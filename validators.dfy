/**
 * The input predicates and result transforms of the two answering dialog
 * nodes: the yes/no confirmation node and the numbered multiple-choice node.
 */
module Validators {
  import opened Text

  /** The spellings the confirmation node checks against, after lower-casing. */
  const YesInputs: set<string> := {"y", "yes"}
  const NoInputs: set<string> := {"n", "no"}

  /** The confirmation node accepts a line whose lower-cased form is a yes or a no spelling. */
  predicate ConfirmValid(s: string)
    ensures ConfirmValid(s) ==> 1 <= |s| <= 3
  {
    var l := Lower(s);
    l in YesInputs || l in NoInputs
  }

  /**
   * The confirmation node's answer: 1 when the accepted line, as typed and
   * NOT lower-cased, is a yes spelling, 0 otherwise.
   */
  function ConfirmResult(s: string): (r: int)
    ensures r == 0 || r == 1
  {
    if s in YesInputs then 1 else 0
  }

  /** Every way of typing y, yes, n and no in any mixture of cases. */
  const ConfirmSpellings: set<string> :=
    {"y", "Y",
     "yes", "yeS", "yEs", "yES", "Yes", "YeS", "YEs", "YES",
     "n", "N",
     "no", "nO", "No", "NO"}

  /** The confirmation node accepts exactly the case variants of y, yes, n and no. */
  lemma ConfirmAcceptsExactlySpellings(s: string)
    ensures ConfirmValid(s) <==> s in ConfirmSpellings
  {
    var l := Lower(s);
    if ConfirmValid(s) {
      if l == "y" || l == "n" {
        LowerCharInverse(s[0], l[0]);
        assert s == [s[0]];
      } else if l == "yes" {
        LowerCharInverse(s[0], 'y');
        LowerCharInverse(s[1], 'e');
        LowerCharInverse(s[2], 's');
        assert s == [s[0], s[1], s[2]];
      } else {
        assert l == "no";
        LowerCharInverse(s[0], 'n');
        LowerCharInverse(s[1], 'o');
        assert s == [s[0], s[1]];
      }
    } else if s in ConfirmSpellings {
      SpellingAccepted(s);
    }
  }

  lemma SpellingAccepted(s: string)
    requires s in ConfirmSpellings
    ensures ConfirmValid(s)
  {
    if |s| == 1 {
      assert Lower(s) == [LowerChar(s[0])];
    } else if |s| == 2 {
      assert Lower(s) == [LowerChar(s[0]), LowerChar(s[1])];
    } else {
      assert Lower(s) == [LowerChar(s[0]), LowerChar(s[1]), LowerChar(s[2])];
    }
  }

  /**
   * Of the accepted lines, the answer is 1 exactly for the yes spellings that
   * are typed in lower case: an upper-case "Y" or "YES" passes the check but
   * reads as no.
   */
  lemma ConfirmYesOnlyInLowerCase(s: string)
    requires ConfirmValid(s)
    ensures ConfirmResult(s) == 1 <==> Lower(s) in YesInputs && Lower(s) == s
  {
    if s == "y" {
      assert Lower(s) == [LowerChar('y')];
    } else if s == "yes" {
      assert Lower(s) == [LowerChar('y'), LowerChar('e'), LowerChar('s')];
    }
  }

  lemma ConfirmExamples()
    ensures ConfirmValid("Y") && ConfirmResult("Y") == 0
    ensures ConfirmValid("YES") && ConfirmResult("YES") == 0
    ensures ConfirmValid("yes") && ConfirmResult("yes") == 1
    ensures ConfirmValid("No") && ConfirmResult("No") == 0
    ensures !ConfirmValid("") && !ConfirmValid("yeah") && !ConfirmValid(" y")
  {
    ConfirmAcceptsExactlySpellings("Y");
    ConfirmAcceptsExactlySpellings("YES");
    ConfirmAcceptsExactlySpellings("yes");
    ConfirmAcceptsExactlySpellings("No");
    ConfirmAcceptsExactlySpellings("");
    ConfirmAcceptsExactlySpellings("yeah");
    ConfirmAcceptsExactlySpellings(" y");
  }

  /**
   * The options node with `n` options accepts a non-empty string of digits
   * whose value lies in 1..n.
   */
  predicate OptionsValid(s: string, n: nat)
    ensures OptionsValid(s, n) ==> n >= 1 && s != []
  {
    IsDigitString(s) && 1 <= DigitsValue(s) <= n
  }

  /** The options node's answer: the accepted line read as a number, an option index in 1..n. */
  function OptionsResult(s: string, n: nat): (r: int)
    requires OptionsValid(s, n)
    ensures 1 <= r <= n
    ensures NatToString(r) == s[LeadingZeroCount(s)..]
  {
    OptionsAcceptedIsPadded(s, n);
    DigitsValue(s)
  }

  /** The rendering of k, with any number of leading zeros, is accepted iff k is an option number. */
  lemma OptionsAcceptsPadded(z: nat, k: nat, n: nat)
    ensures OptionsValid(Zeros(z) + NatToString(k), n) <==> 1 <= k <= n
  {
    LeadingZerosValue(z, NatToString(k));
    ValueOfNatToString(k);
  }

  /** Every accepted line is the rendering of an option number, possibly after leading zeros. */
  lemma OptionsAcceptedIsPadded(s: string, n: nat)
    requires OptionsValid(s, n)
    ensures s == Zeros(LeadingZeroCount(s)) + NatToString(DigitsValue(s))
  {
    var z := LeadingZeroCount(s);
    var t := s[z..];
    assert s == s[..z] + t;
    assert IsDigitString(t) by {
      forall i | 0 <= i < |t| ensures IsDigit(t[i]) {
        assert t[i] == s[z + i];
      }
    }
    assert t[0] != '0' || t == "0";
    NatToStringOfValue(t);
    LeadingZerosValue(z, t);
  }

  /** The rejections and the leading-zero acceptance the options node shows. */
  lemma OptionsExamples(n: nat)
    ensures !OptionsValid("", n)
    ensures !OptionsValid("0", n)
    ensures !OptionsValid(NatToString(n + 1), n)
    ensures !OptionsValid("-1", n) && !OptionsValid("1.5", n) && !OptionsValid(" 1", n)
    ensures n >= 3 ==> OptionsValid("03", n)
    ensures n >= 1 ==> OptionsValid("1", n)
  {
    OptionsRejectsOutOfRange(n);
    OptionsRejectsNonDigits(n);
    OptionsAcceptsExamples(n);
  }

  lemma OptionsRejectsOutOfRange(n: nat)
    ensures !OptionsValid("", n) && !OptionsValid("0", n) && !OptionsValid(NatToString(n + 1), n)
  {
    OptionsAcceptsPadded(0, 0, n);
    OptionsAcceptsPadded(0, n + 1, n);
    assert Zeros(0) + NatToString(n + 1) == NatToString(n + 1);
  }

  lemma OptionsRejectsNonDigits(n: nat)
    ensures !OptionsValid("-1", n) && !OptionsValid("1.5", n) && !OptionsValid(" 1", n)
  {
    assert !IsDigit('-') && !IsDigit('.') && !IsDigit(' ');
    assert "-1"[0] == '-' && "1.5"[1] == '.' && " 1"[0] == ' ';
  }

  lemma OptionsAcceptsExamples(n: nat)
    ensures n >= 3 ==> OptionsValid("03", n)
    ensures n >= 1 ==> OptionsValid("1", n)
  {
    assert "03" == Zeros(1) + NatToString(3);
    OptionsAcceptsPadded(1, 3, n);
    OptionsAcceptsPadded(0, 1, n);
  }
}
