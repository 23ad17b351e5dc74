/**
 * The conversation script: the yes/no opening question, the budget and use
 * case questions, the recommendation scan, and the exit node that shows the
 * recommendation (or the no-match message) and ends the process.
 */
module Session {
  import opened Text
  import opened Validators
  import opened Dialog
  import opened Recommendation

  const IntroPrompt := "Hi! I'm Davin, a chatbot designed to find your perfect laptop. Would you like my assistance?"
  const BudgetPrompt := "What is your budget?"
  const BudgetOptions := ["$0-$250", "$250-$500", "$500-$750", "$750-$1000", "$1000+"]
  const UseCasePrompt := "Which of the following best describes what you will use the laptop for?"
  const UseCaseOptions := ["Office Work", "Web Surfing", "Gaming", "Video Editing"]
  const EarlyExitPrompt := "No worries!"
  const NoMatchPrompt := "Sorry, I couldn't find a laptop within your budget."

  function RecommendationPrompt(name: string): string {
    "Based on your responses, I recommend the " + name + "."
  }

  /** How a conversation ends. */
  datatype Ending =
    | Declined                                          // "no" to the opening question, then exit 0
    | Recommended(budget: int, useCase: int, index: nat)  // a laptop was named, then exit 0
    | NoMatch(budget: int, useCase: int)                  // the no-match message, then exit 0
    | WeightError(budget: int, useCase: int)              // use case 1 reads a field Laptop lacks: AttributeError
    | InputExhausted                                    // a read found no more input: EOFError

  /** The number chosen at an options node, and how many lines it took to get it. */
  datatype Pick = Pick(number: int, consumed: nat)

  /**
   * What an options node asking over `lines` ends up with: the first line it
   * accepts, read as a number; None when it accepts none of them.
   */
  function OptionChosen(options: seq<string>, lines: seq<string>): (r: Option<Pick>)
    ensures r.Some? ==> 1 <= r.value.number <= |options| && 1 <= r.value.consumed <= |lines|
    ensures r.None? <==> forall j :: 0 <= j < |lines| ==> !OptionsValid(lines[j], |options|)
  {
    match FirstAccepted(Options(options), lines)
    case None => None
    case Some(k) => Some(Pick(DigitsValue(lines[k]), k + 1))
  }

  /** The reply to the opening question: whether it reads as yes, and where the lines after it start. */
  datatype Reply = Reply(yes: bool, next: nat)

  /**
   * What the confirmation node asking the opening question ends up with: the
   * first line it accepts, read as yes exactly when typed as a lower-case yes
   * spelling; None when it accepts none of them.
   */
  function Opening(inputs: seq<string>): (r: Option<Reply>)
    ensures r.Some? ==>
      1 <= r.value.next <= |inputs| && ConfirmValid(inputs[r.value.next - 1]) &&
      (r.value.yes <==> inputs[r.value.next - 1] in YesInputs)
    ensures r.None? <==> forall j :: 0 <= j < |inputs| ==> !ConfirmValid(inputs[j])
  {
    match FirstAccepted(Confirm, inputs)
    case None => None
    case Some(k) => Some(Reply(inputs[k] in YesInputs, k + 1))
  }

  /** The budget and use-case answers, and how many lines it took to get both. */
  datatype Answers = Answers(budget: int, useCase: int, consumed: nat)

  /**
   * The answers the budget and use-case questions take from the lines typed
   * after the yes, the second question reading where the first stopped;
   * None when the lines run out before both are answered.
   */
  function AnswersIn(rest: seq<string>): (r: Option<Answers>)
    ensures r.Some? ==>
      1 <= r.value.budget <= |BudgetOptions| && 1 <= r.value.useCase <= |UseCaseOptions| &&
      2 <= r.value.consumed <= |rest|
  {
    match OptionChosen(BudgetOptions, rest)
    case None => None
    case Some(b) =>
      match OptionChosen(UseCaseOptions, rest[b.consumed..])
      case None => None
      case Some(u) => Some(Answers(b.number, u.number, b.consumed + u.consumed))
  }

  /** "0" and "x" are rejected and retried: the answers are budget 3 and use case 2, taken from the second and fourth lines. */
  lemma ExampleAnswers()
    ensures AnswersIn(["0", "3", "x", "2", ""]) == Some(Answers(3, 2, 4))
  {
    var rest := ["0", "3", "x", "2", ""];
    assert !IsDigit('x');
    assert DigitsValue("0") == 0 && DigitsValue("3") == 3 && DigitsValue("2") == 2;
    assert FirstAccepted(Options(BudgetOptions), rest) == Some(1);
    assert rest[2..] == ["x", "2", ""];
    assert FirstAccepted(Options(UseCaseOptions), rest[2..]) == Some(1);
  }

  /** Use case 1 with a laptop that passes the price filter reads the missing weight. */
  predicate WeightReached(budget: int, useCase: int) {
    useCase == 1 && exists j :: 0 <= j < |Catalog| && Qualifies(Catalog[j], MaxPrice(budget))
  }

  /**
   * The ending the lines typed after a yes lead to: out of input before both
   * answers; the weight error for use case 1 once a laptop passes; out of
   * input when no line is left for the exit node; otherwise a recommendation
   * or the no-match message for exactly the answers typed.
   */
  predicate EndingFits(rest: seq<string>, ending: Ending) {
    match AnswersIn(rest)
    case None => ending == InputExhausted
    case Some(a) =>
      if WeightReached(a.budget, a.useCase) then ending == WeightError(a.budget, a.useCase)
      else if a.consumed == |rest| then ending == InputExhausted
      else (ending.Recommended? || ending.NoMatch?) && ending.budget == a.budget && ending.useCase == a.useCase
  }

  /**
   * What an ending stands on: a recommendation is the `IsBest` laptop for the
   * answers, no match means no laptop passing the filter scores above 0, and
   * the weight error means use case 1 met a laptop that passes.
   */
  predicate Justified(ending: Ending) {
    match ending
    case Recommended(budget, useCase, index) =>
      1 <= budget <= 5 && 2 <= useCase <= 4 && IsBest(Catalog, MaxPrice(budget), useCase, index)
    case NoMatch(budget, useCase) =>
      1 <= budget <= 5 && 1 <= useCase <= 4 &&
      if useCase == 1
      then forall j :: 0 <= j < |Catalog| ==> !Qualifies(Catalog[j], MaxPrice(budget))
      else NoCandidate(Catalog, MaxPrice(budget), useCase)
    case WeightError(budget, useCase) => 1 <= budget <= 5 && WeightReached(budget, useCase)
    case _ => true
  }

  /** The last two lines printed for an ending that reaches an exit node: its prompt and the end hint. */
  predicate Shown(ending: Ending, output: seq<string>) {
    match ending
    case Declined => |output| >= 2 && output[|output| - 2..] == [EarlyExitPrompt, EndHint]
    case Recommended(_, _, index) =>
      index < |Catalog| &&
      |output| >= 2 && output[|output| - 2..] == [RecommendationPrompt(Catalog[index].name), EndHint]
    case NoMatch(_, _) => |output| >= 2 && output[|output| - 2..] == [NoMatchPrompt, EndHint]
    case _ => true
  }

  /**
   * The ending the lines determine: out of input when no line answers the
   * opening question; after an answer other than a lower-case yes spelling,
   * declined when a further line is there for the exit node; after a yes, the
   * ending `EndingFits` the lines that follow.
   */
  predicate ConversationFits(inputs: seq<string>, ending: Ending) {
    match Opening(inputs)
    case None => ending == InputExhausted
    case Some(reply) =>
      if reply.yes then EndingFits(inputs[reply.next..], ending)
      else ending == if reply.next < |inputs| then Declined else InputExhausted
  }

  /** "YES" passes the opening check but is not a lower-case yes spelling, so the conversation is declined. */
  lemma ExampleUpperCaseYesDeclines(ending: Ending)
    ensures ConversationFits(["YES", ""], ending) <==> ending == Declined
  {
    ConfirmExamples();
    assert FirstAccepted(Confirm, ["YES", ""]) == Some(0);
  }

  /** "yes", budget 3 and use case 2, then a line for the exit node: a justified ending recommends "Bell XYZ 13". */
  lemma ExampleRecommendation(ending: Ending)
    requires ConversationFits(["yes", "3", "2", ""], ending) && Justified(ending)
    ensures ending == Recommended(3, 2, 1)
  {
    var inputs := ["yes", "3", "2", ""];
    ExampleYesOpening(inputs);
    assert inputs[1..] == ["3", "2", ""];
    ExampleDirectAnswers();
    assert !WeightReached(3, 2);
    assert Qualifies(Catalog[1], MaxPrice(3));
    ExampleBudget3Price(if ending.Recommended? then ending.index else 1);
  }

  /** A first line "yes" is accepted at once and reads as yes. */
  lemma ExampleYesOpening(inputs: seq<string>)
    requires |inputs| > 0 && inputs[0] == "yes"
    ensures Opening(inputs) == Some(Reply(true, 1))
  {
    ConfirmExamples();
  }

  /** "3" and "2" are accepted at once: budget 3 and use case 2, two lines consumed. */
  lemma ExampleDirectAnswers()
    ensures AnswersIn(["3", "2", ""]) == Some(Answers(3, 2, 2))
  {
    var rest := ["3", "2", ""];
    assert DigitsValue("3") == 3 && DigitsValue("2") == 2;
    assert FirstAccepted(Options(BudgetOptions), rest) == Some(0);
    assert rest[1..] == ["2", ""];
    assert FirstAccepted(Options(UseCaseOptions), rest[1..]) == Some(0);
  }

  /** The whole conversation, over the lines the user types. */
  method Converse(inputs: seq<string>) returns (ending: Ending, output: seq<string>)
    ensures ConversationFits(inputs, ending)
    ensures ending.Declined? ==> BudgetPrompt !in output && UseCasePrompt !in output
    ensures Justified(ending) && Shown(ending, output)
  {
    var reply, asked := AskOpening(inputs);
    if reply.None? {
      return InputExhausted, asked;
    }
    var rest := inputs[reply.value.next..];
    var tail;
    if !reply.value.yes {
      ending, tail := Decline(rest);
      NoQuestionAfterNo(asked, tail, reply.value.next - 1);
    } else {
      ending, tail := Proceed(rest);
    }
    output := asked + tail;
    ShownAfter(ending, asked, tail);
  }

  /** Neither later question is among the lines a conversation declined after `retries` rejected answers prints. */
  lemma NoQuestionAfterNo(asked: seq<string>, tail: seq<string>, retries: nat)
    requires asked == Transcript(Render(IntroPrompt, Confirm), retries)
    requires tail == ["", EarlyExitPrompt, EndHint]
    ensures BudgetPrompt !in asked + tail && UseCasePrompt !in asked + tail
  {
    TranscriptLines(Render(IntroPrompt, Confirm), retries);
    assert |BudgetPrompt| == 20 && |UseCasePrompt| == 71;
    assert |IntroPrompt| == 92 && |YesNoHint| == 12 && |RetryMessage| == 61;
    assert |EarlyExitPrompt| == 11 && |EndHint| == 36;
  }

  /** Each question of the script prints the retry message exactly once per rejected line. */
  lemma ScriptRetryCounts(retries: nat)
    ensures multiset(Transcript(Render(IntroPrompt, Confirm), retries))[RetryMessage] == retries
    ensures multiset(Transcript(Render(BudgetPrompt, Options(BudgetOptions)), retries))[RetryMessage] == retries
    ensures multiset(Transcript(Render(UseCasePrompt, Options(UseCaseOptions)), retries))[RetryMessage] == retries
  {
    assert |IntroPrompt| == 92 && |BudgetPrompt| == 20 && |UseCasePrompt| == 71 && |RetryMessage| == 61;
    RenderWithoutRetry(IntroPrompt, Confirm);
    RenderWithoutRetry(BudgetPrompt, Options(BudgetOptions));
    RenderWithoutRetry(UseCasePrompt, Options(UseCaseOptions));
    RetryCount(Render(IntroPrompt, Confirm), retries);
    RetryCount(Render(BudgetPrompt, Options(BudgetOptions)), retries);
    RetryCount(Render(UseCasePrompt, Options(UseCaseOptions)), retries);
  }

  /** Printing more before an ending's output keeps its last two lines. */
  lemma ShownAfter(ending: Ending, before: seq<string>, output: seq<string>)
    requires Shown(ending, output)
    ensures Shown(ending, before + output)
  {
    if |output| >= 2 {
      assert (before + output)[|before + output| - 2..] == output[|output| - 2..];
    }
  }

  /** The answer no: the early-exit node shows its message and ends the process on the next line. */
  method Decline(rest: seq<string>) returns (ending: Ending, output: seq<string>)
    ensures ending == if |rest| > 0 then Declined else InputExhausted
    ensures output == ["", EarlyExitPrompt, EndHint]
  {
    var earlyExitNode := new DialogNode(EarlyExitPrompt, Exit);
    ExitTakesAnyLine(EarlyExitPrompt, rest);
    var step;
    step, output := earlyExitNode.Run(rest);
    ending := if step.NoInput? then InputExhausted else Declined;
  }

  /** The answer yes: the budget question, the use-case question and the conclusion. */
  method Proceed(rest: seq<string>) returns (ending: Ending, output: seq<string>)
    ensures EndingFits(rest, ending) && !ending.Declined?
    ensures Justified(ending) && Shown(ending, output)
  {
    var budget, asked := AskOptions(BudgetPrompt, BudgetOptions, rest);
    output := asked;
    if budget.None? {
      return InputExhausted, output;
    }
    var left := rest[budget.value.consumed..];
    var useCase;
    useCase, asked := AskOptions(UseCasePrompt, UseCaseOptions, left);
    output := output + asked;
    if useCase.None? {
      return InputExhausted, output;
    }
    assert left[useCase.value.consumed..] == rest[budget.value.consumed + useCase.value.consumed..];
    left := left[useCase.value.consumed..];

    var tail;
    ending, tail := Conclude(budget.value.number, useCase.value.number, left);
    asked := output;
    output := asked + tail;
    ShownAfter(ending, asked, tail);
  }

  /** The confirmation node asks the opening question over the lines: it takes the reply `Opening` describes. */
  method AskOpening(inputs: seq<string>) returns (reply: Option<Reply>, output: seq<string>)
    ensures reply == Opening(inputs)
    ensures output == Transcript(Render(IntroPrompt, Confirm), if reply.Some? then reply.value.next - 1 else |inputs|)
  {
    var node := new DialogNode(IntroPrompt, Confirm);
    var step;
    step, output := node.Run(inputs);
    if step.NoInput? {
      return None, output;
    }
    reply := Some(Reply(step.answer.n == 1, step.consumed));
  }

  /** An options node asks its question over the lines: it takes the pick `OptionChosen` describes. */
  method AskOptions(prompt: string, options: seq<string>, lines: seq<string>) returns (pick: Option<Pick>, output: seq<string>)
    ensures pick == OptionChosen(options, lines)
    ensures output == Transcript(Render(prompt, Options(options)), if pick.Some? then pick.value.consumed - 1 else |lines|)
  {
    var node := new DialogNode(prompt, Options(options));
    var step;
    step, output := node.Run(lines);
    if step.NoInput? {
      return None, output;
    }
    pick := Some(Pick(step.answer.n, step.consumed));
  }

  /**
   * The end of a conversation that got both answers: the recommendation scan,
   * the rewrite of the exit node's prompt when a laptop was found, and that
   * exit node's run.
   */
  method Conclude(budget: int, useCase: int, rest: seq<string>) returns (ending: Ending, output: seq<string>)
    ensures ending.Recommended? || ending.NoMatch? || ending.WeightError? || ending.InputExhausted?
    ensures ending.WeightError? <==> WeightReached(budget, useCase)
    ensures ending.InputExhausted? <==> |rest| == 0 && !WeightReached(budget, useCase)
    ensures ending.Recommended? ==>
      ending.budget == budget && ending.useCase == useCase &&
      IsBest(Catalog, MaxPrice(budget), useCase, ending.index) &&
      output == ["", RecommendationPrompt(Catalog[ending.index].name), EndHint]
    ensures ending.NoMatch? ==>
      ending.budget == budget && ending.useCase == useCase &&
      (if useCase == 1
       then forall j :: 0 <= j < |Catalog| ==> !Qualifies(Catalog[j], MaxPrice(budget))
       else NoCandidate(Catalog, MaxPrice(budget), useCase)) &&
      output == ["", NoMatchPrompt, EndHint]
    ensures ending.WeightError? ==> ending == WeightError(budget, useCase) && output == []
    ensures 1 <= budget <= 5 && 1 <= useCase <= 4 ==> Justified(ending)
    ensures Shown(ending, output)
  {
    var recommendNode := new DialogNode(NoMatchPrompt, Exit);
    var selection := Recommend(Catalog, MaxPrice(budget), useCase);
    if selection.WeightMissing? {
      return WeightError(budget, useCase), [];
    }
    if selection.Picked? {
      recommendNode.prompt := RecommendationPrompt(Catalog[selection.index].name);
    }
    ExitTakesAnyLine(recommendNode.prompt, rest);
    var step;
    step, output := recommendNode.Run(rest);
    if step.NoInput? {
      return InputExhausted, output;
    }
    if selection.Picked? {
      ending := Recommended(budget, useCase, selection.index);
    } else {
      ending := NoMatch(budget, useCase);
    }
  }
}
