/**
 * Dialog nodes: a prompt, an input predicate and the prompt/validate/retry
 * loop that keeps reading lines until one is accepted.  The four node classes
 * of the program (plain, exit, confirmation, options) become the four cases
 * of `Kind`; console reads become a sequence of input lines and console
 * writes an output log holding one entry per `print` call.
 */
module Dialog {
  import opened Text
  import opened Validators

  datatype Option<T> = None | Some(value: T)

  datatype Kind =
    | Plain                          // the base node: every line is accepted
    | Exit                           // ends the conversation once a line is read
    | Confirm                        // yes/no question
    | Options(options: seq<string>)  // numbered multiple choice

  // Two literals, so that proofs can read its first characters without unfolding the whole string.
  const RetryMessage := "Sorry, " + "I couldn't understand your response. Please try again."
  const YesNoHint := "[Y]es / [N]o"
  const EndHint := "Press Enter to end the conversation."

  /**
   * The input predicate of each kind of node: the base and exit nodes take
   * any line, a confirmation node at most three characters, and an options
   * node only digits, and nothing at all when it has no options.
   */
  predicate Accepts(kind: Kind, s: string)
    ensures (kind.Plain? || kind.Exit?) ==> Accepts(kind, s)
    ensures kind.Confirm? && Accepts(kind, s) ==> 1 <= |s| <= 3
    ensures kind.Options? && Accepts(kind, s) ==> |kind.options| >= 1 && IsDigitString(s)
  {
    match kind
    case Plain => true
    case Exit => true
    case Confirm => ConfirmValid(s)
    case Options(options) => OptionsValid(s, |options|)
  }

  /** The numbered option lines, "(1) label" onwards. */
  function OptionLines(options: seq<string>): (lines: seq<string>)
    ensures |lines| == |options|
  {
    seq(|options|, i requires 0 <= i < |options| => "(" + NatToString(i + 1) + ") " + options[i])
  }

  /** What a node prints each time it shows its prompt. */
  function Render(prompt: string, kind: Kind): (lines: seq<string>)
    ensures |lines| > 0 && lines[0] == prompt
  {
    match kind
    case Plain => [prompt]
    case Exit => [prompt, EndHint]
    case Confirm => [prompt, YesNoHint]
    case Options(options) => [prompt] + OptionLines(options)
  }

  /**
   * Menu line i of an options node shows the number i + 1, and typing that
   * number selects option i + 1: the menu and the input check agree.
   */
  lemma MenuNumberSelects(prompt: string, options: seq<string>, i: int)
    requires 0 <= i < |options|
    ensures Render(prompt, Options(options))[i + 1] == "(" + NatToString(i + 1) + ") " + options[i]
    ensures OptionsValid(NatToString(i + 1), |options|)
    ensures OptionsResult(NatToString(i + 1), |options|) == i + 1
  {
    OptionsAcceptsPadded(0, i + 1, |options|);
    assert Zeros(0) + NatToString(i + 1) == NatToString(i + 1);
    ValueOfNatToString(i + 1);
  }

  /** No hint or option line is the retry message, so a prompt other than it keeps it out of the rendering. */
  lemma RenderWithoutRetry(prompt: string, kind: Kind)
    requires prompt != RetryMessage
    ensures RetryMessage !in Render(prompt, kind)
  {
    assert RetryMessage[0] == 'S';
    match kind
    case Plain =>
    case Exit =>
      assert EndHint[0] == 'P';
    case Confirm =>
      assert YesNoHint[0] == '[';
    case Options(options) =>
      forall i | 0 <= i < |options| ensures OptionLines(options)[i] != RetryMessage {
        assert OptionLines(options)[i][0] == '(';
      }
  }

  /**
   * The index of the first line the node accepts, or None when it accepts none.
   */
  function FirstAccepted(kind: Kind, inputs: seq<string>): (r: Option<nat>)
    ensures r.Some? ==> r.value < |inputs| && Accepts(kind, inputs[r.value])
    ensures r.Some? ==> forall j :: 0 <= j < r.value ==> !Accepts(kind, inputs[j])
    ensures r.None? ==> forall j :: 0 <= j < |inputs| ==> !Accepts(kind, inputs[j])
  {
    if inputs == [] then None
    else if Accepts(kind, inputs[0]) then Some(0)
    else match FirstAccepted(kind, inputs[1..])
      case None => None
      case Some(k) => Some(k + 1)
  }

  /**
   * The log of one run of the retry loop after `retries` rejected lines: a
   * blank line and the prompt, then a blank line, the retry message and the
   * prompt again for every rejection.
   */
  function Transcript(lines: seq<string>, retries: nat): (out: seq<string>)
    ensures |out| == 1 + |lines| + retries * (2 + |lines|)
  {
    if retries == 0 then [""] + lines
    else Transcript(lines, retries - 1) + ["", RetryMessage] + lines
  }

  /** A run always ends by showing the prompt. */
  lemma {:induction false} TranscriptEndsWithPrompt(lines: seq<string>, retries: nat)
    ensures |Transcript(lines, retries)| > |lines|
    ensures Transcript(lines, retries)[|Transcript(lines, retries)| - |lines|..] == lines
  {
    if retries > 0 {
      TranscriptEndsWithPrompt(lines, retries - 1);
    }
  }

  /** Nothing but blank lines, the retry message and the node's own prompt lines is printed. */
  lemma {:induction false} TranscriptLines(lines: seq<string>, retries: nat)
    ensures forall x :: x in Transcript(lines, retries) ==> x == "" || x == RetryMessage || x in lines
  {
    if retries > 0 {
      TranscriptLines(lines, retries - 1);
    }
  }

  /** The retry message is printed exactly once per rejected line. */
  lemma {:induction false} RetryCount(lines: seq<string>, retries: nat)
    requires RetryMessage !in lines
    ensures multiset(Transcript(lines, retries))[RetryMessage] == retries
  {
    if retries > 0 {
      RetryCount(lines, retries - 1);
      assert multiset(Transcript(lines, retries))
        == multiset(Transcript(lines, retries - 1)) + multiset(["", RetryMessage]) + multiset(lines);
    } else {
      assert "" != RetryMessage;
    }
  }

  /** An exit node takes the first line there is, and prints its prompt and hint once. */
  lemma ExitTakesAnyLine(prompt: string, inputs: seq<string>)
    ensures FirstAccepted(Exit, inputs) == if inputs == [] then None else Some(0)
    ensures Transcript(Render(prompt, Exit), 0) == ["", prompt, EndHint]
  {
  }

  /** What a run of the loop reads. */
  datatype Read = Accepted(line: string, rejected: nat) | Exhausted

  /** What a node's `execute` hands back. */
  datatype Answer = Line(line: string) | Number(n: int)

  /** The outcome of a node's `execute`, with the count of lines it consumed. */
  datatype Step =
    | Returned(answer: Answer, consumed: nat)
    | Quit(consumed: nat)   // the exit node ends the process with status 0
    | NoInput               // the input ran out before a line was accepted

  class DialogNode {
    var prompt: string
    const kind: Kind

    constructor (prompt: string, kind: Kind)
      ensures this.prompt == prompt && this.kind == kind
    {
      this.prompt := prompt;
      this.kind := kind;
    }

    /**
     * The base loop: show the prompt, read a line, and while the line is
     * rejected show the retry message and the prompt and read again.  The
     * loop returns the first accepted line; when every line is rejected it
     * runs out of input after showing the prompt once more.
     */
    method Execute(inputs: seq<string>) returns (r: Read, output: seq<string>)
      ensures r == match FirstAccepted(kind, inputs)
                   case Some(k) => Accepted(inputs[k], k)
                   case None => Exhausted
      ensures output == Transcript(Render(prompt, kind), if r.Accepted? then r.rejected else |inputs|)
    {
      var lines := Render(prompt, kind);
      output := [""] + lines;
      if |inputs| == 0 {
        return Exhausted, output;
      }
      var i := 0;
      while !Accepts(kind, inputs[i])
        invariant 0 <= i < |inputs|
        invariant forall j :: 0 <= j < i ==> !Accepts(kind, inputs[j])
        invariant output == Transcript(lines, i)
        decreases |inputs| - i
      {
        output := output + ["", RetryMessage] + lines;
        if i + 1 == |inputs| {
          return Exhausted, output;
        }
        i := i + 1;
      }
      r := Accepted(inputs[i], i);
    }

    /**
     * `execute` as each kind of node overrides it: the base loop, then the
     * accepted line as typed (plain node), its yes/no reading (confirmation
     * node), its number (options node), or the end of the process (exit node).
     */
    method Run(inputs: seq<string>) returns (step: Step, output: seq<string>)
      ensures step.NoInput? <==> FirstAccepted(kind, inputs).None?
      ensures step.NoInput? ==> output == Transcript(Render(prompt, kind), |inputs|)
      ensures !step.NoInput? ==>
        0 < step.consumed <= |inputs| && FirstAccepted(kind, inputs) == Some(step.consumed - 1) &&
        output == Transcript(Render(prompt, kind), step.consumed - 1)
      ensures step.Quit? <==> kind.Exit? && !step.NoInput?
      ensures step.Returned? && kind.Plain? ==> step.answer == Line(inputs[step.consumed - 1])
      ensures step.Returned? && kind.Confirm? ==>
        step.answer.Number? && (step.answer.n == 0 || step.answer.n == 1) &&
        (step.answer.n == 1 <==> inputs[step.consumed - 1] in YesInputs)
      ensures step.Returned? && kind.Options? ==>
        step.answer.Number? && 1 <= step.answer.n <= |kind.options| &&
        step.answer.n == DigitsValue(inputs[step.consumed - 1])
    {
      var r;
      r, output := Execute(inputs);
      if r.Exhausted? {
        return NoInput, output;
      }
      var consumed := r.rejected + 1;
      match kind
      case Plain =>
        step := Returned(Line(r.line), consumed);
      case Exit =>
        step := Quit(consumed);
      case Confirm =>
        step := Returned(Number(ConfirmResult(r.line)), consumed);
      case Options(options) =>
        step := Returned(Number(OptionsResult(r.line, |options|)), consumed);
    }
  }
}
