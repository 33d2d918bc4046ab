/**
 * The operator checkpoints of WioLinkCLI/Program.cs: "press ENTER" and the
 * yes/no retry question. The console is a sequence of lines; `None` is a
 * null from `Console.ReadLine`, and reading past the last line yields null
 * again and again, as it does at end of input.
 */
module OperatorPrompt {
  import opened Wrappers

  /** What one typed line means to the retry question. */
  datatype Answer = Retry | Abort | Reprompt

  /** A null line (end of input) never answers; an answer is a line of at most one character. */
  function Classify(line: Option<string>): (a: Answer)
    ensures line.None? ==> a == Reprompt
    ensures a != Reprompt ==> line.Some? && |line.value| <= 1
  {
    if line == Some("y") || line == Some("Y") || line == Some("") then Retry
    else if line == Some("n") || line == Some("N") then Abort
    else Reprompt
  }

  /** The retry question either gets an answer, having read up to `next`, or is asked forever. */
  datatype Confirmation = Confirmed(retry: bool, next: nat) | NoAnswer

  /** "Press ENTER": one line is read, whatever it says; at end of input the read returns null at once. */
  function Enter(console: seq<Option<string>>, pos: nat): (next: nat)
    ensures pos <= next && (pos < |console| ==> next == pos + 1) && (pos >= |console| ==> next == pos)
  {
    if pos < |console| then pos + 1 else pos
  }

  /**
   * The retry question asked from line `pos` on: the first line that means
   * yes or no answers it, every line before that is asked again, and a
   * console that runs out first leaves it asking forever.
   */
  function Confirm(console: seq<Option<string>>, pos: nat): (c: Confirmation)
    ensures c.Confirmed? ==>
      && pos < c.next <= |console|
      && Classify(console[c.next - 1]) == (if c.retry then Retry else Abort)
      && forall j :: pos <= j < c.next - 1 ==> Classify(console[j]) == Reprompt
    ensures c.NoAnswer? ==> forall j :: pos <= j < |console| ==> Classify(console[j]) == Reprompt
    decreases |console| - pos
  {
    if pos >= |console| then NoAnswer
    else
      match Classify(console[pos])
      case Retry => Confirmed(true, pos + 1)
      case Abort => Confirmed(false, pos + 1)
      case Reprompt => Confirm(console, pos + 1)
  }

  /** The question reads only the lines from `pos` on: consoles that agree there get the same answer. */
  lemma {:induction false} ConfirmAgrees(console: seq<Option<string>>, other: seq<Option<string>>, pos: nat)
    requires |console| == |other|
    requires forall j :: pos <= j < |console| ==> console[j] == other[j]
    ensures Confirm(console, pos) == Confirm(other, pos)
    decreases |console| - pos
  {
    if pos < |console| && Classify(console[pos]) == Reprompt {
      ConfirmAgrees(console, other, pos + 1);
    }
  }

  /** `RetryConfirmation`: the prompt loop itself. */
  method RetryConfirmation(console: seq<Option<string>>, pos: nat) returns (c: Confirmation)
    ensures c == Confirm(console, pos)
  {
    var i := pos;
    while true
      invariant pos <= i
      invariant Confirm(console, i) == Confirm(console, pos)
      decreases |console| - i
    {
      if i >= |console| {
        c := NoAnswer;
        break;
      }
      var input := console[i];
      i := i + 1;
      var answer := Classify(input);
      if answer == Retry {
        c := Confirmed(true, i);
        break;
      }
      if answer == Abort {
        c := Confirmed(false, i);
        break;
      }
    }
  }
}
