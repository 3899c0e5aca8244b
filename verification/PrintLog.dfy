/** The lines the readers and writers of both programs print. */
module PrintLog {
  import opened Tally

  /** A printed line: by whom, whether for a write, and the value shown. */
  datatype Line = Line(who: nat, isWrite: bool, shown: int)

  function WriteLine(l: Line): int { Counted(l.isWrite) }

  /** Lines of one kind printed by one thread or process. */
  function By(who: nat, isWrite: bool): Line -> int {
    (l: Line) => Counted(l.who == who && l.isWrite == isWrite)
  }

  /** The k-th write line shows k, and a read line shows the number of writes before it. */
  predicate PrintedInOrder(log: seq<Line>) {
    forall k :: 0 <= k < |log| ==> log[k].shown == Sum(log[..k + 1], WriteLine)
  }

  lemma LogAfter(log: seq<Line>, l: Line)
    requires PrintedInOrder(log) && l.shown == Sum(log, WriteLine) + WriteLine(l)
    ensures PrintedInOrder(log + [l]) && Sum(log + [l], WriteLine) == l.shown
  {
    SumAppend(log, WriteLine, l);
    forall k | 0 <= k < |log + [l]| ensures (log + [l])[k].shown == Sum((log + [l])[..k + 1], WriteLine) {
      assert (log + [l])[..k + 1] == if k < |log| then log[..k + 1] else log + [l];
    }
  }

  /** A log in order never shows a smaller value after a larger one. */
  lemma {:induction false} NeverDecreases(log: seq<Line>, j: nat, k: nat)
    requires PrintedInOrder(log) && j <= k < |log|
    ensures log[j].shown <= log[k].shown
    decreases k - j
  {
    if j < k {
      NeverDecreases(log, j, k - 1);
      assert log[..k + 1] == log[..k] + [log[k]];
      SumAppend(log[..k], WriteLine, log[k]);
    }
  }
}
