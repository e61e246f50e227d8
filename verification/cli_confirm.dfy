/**
 * The CLI's yes/no prompt. The kaggo CLI (cmd/kaggo/main.go) and the older
 * CLI (cmd/main.go) carry textually identical copies of `confirm`; this
 * module models both.
 */
module CliConfirm {
  import opened Wrappers
  import opened Text

  /** The answers taken as yes, after trimming and lower-casing. */
  const YesAnswers: seq<string> := ["y", "yes", "ye"]

  /**
   * confirm, given what reading one line from the input produced: a read
   * error is passed on (and the answer is no); otherwise the answer is yes
   * exactly when the trimmed, lower-cased line is "y", "yes" or "ye".
   */
  function Confirm(line: Result<string, string>): (r: Result<bool, string>)
    ensures line.Failure? ==> r == Failure(line.error)
    ensures line.Success? ==> r.Success? && (r.value <==> ToLower(TrimSpace(line.value)) in YesAnswers)
  {
    match line
    case Failure(e) => Failure(e)
    case Success(s) => Success(ToLower(TrimSpace(s)) in YesAnswers)
  }

  /**
   * Surrounding whitespace and letter case do not change the answer: the
   * line reads as its lower-cased core.
   */
  lemma {:induction false} ConfirmIgnoresCaseAndSpace(w1: string, s: string, w2: string)
    requires AllSpace(w1) && AllSpace(w2)
    ensures Confirm(Success(w1 + s + w2)) == Confirm(Success(ToLower(s)))
  {
    TrimSpaceAbsorbs(w1, s, w2);
    TrimSpaceLower(s);
    var t := TrimSpace(s);
    forall i | 0 <= i < |t|
      ensures ToLower(ToLower(t))[i] == ToLower(t)[i]
    {
      assert LowerChar(LowerChar(t[i])) == LowerChar(t[i]);
    }
    assert ToLower(ToLower(t)) == ToLower(t);
  }

  /** A line whose answer has no white space at its ends reads as that answer, lower-cased. */
  lemma {:induction false} TypedAnswer(w1: string, s: string, w2: string)
    requires AllSpace(w1) && AllSpace(w2)
    requires s == [] || (!IsSpace(s[0]) && !IsSpace(s[|s| - 1]))
    ensures Confirm(Success(w1 + s + w2)) == Success(ToLower(s) in YesAnswers)
  {
    TrimSpaceAbsorbs(w1, s, w2);
    assert TrimLeft(s) == s;
    assert TrimRight(s) == s;
  }

  /** Any casing of "y", "ye" or "yes", with any white space around it, is a yes. */
  lemma {:induction false} ConfirmAcceptsYes(w1: string, s: string, w2: string)
    requires AllSpace(w1) && AllSpace(w2)
    requires ToLower(s) in YesAnswers
    ensures Confirm(Success(w1 + s + w2)) == Success(true)
  {
    var t := ToLower(s);
    assert t[0] == 'y' && t[|t| - 1] in "yes";
    LowerKeepsSpace(s[0]);
    LowerKeepsSpace(s[|s| - 1]);
    TypedAnswer(w1, s, w2);
  }

  /** A blank line is a no. */
  lemma {:induction false} ConfirmRejectsBlank(s: string)
    requires AllSpace(s)
    ensures Confirm(Success(s)) == Success(false)
  {
    TrimSpaceAllSpace(s);
  }

  /**
   * A line holding any character other than white space and the letters
   * y, e and s (in either case) is a no.
   */
  lemma {:induction false} ConfirmRejectsOtherLetters(s: string, c: char)
    requires c in s && !IsSpace(c) && LowerChar(c) !in "yes"
    ensures Confirm(Success(s)) == Success(false)
  {
    TrimSpaceKeeps(s, c);
    var t := TrimSpace(s);
    var k :| 0 <= k < |t| && t[k] == c;
    assert ToLower(t)[k] == LowerChar(c);
  }
}
