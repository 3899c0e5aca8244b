/** System V semaphore sets: `semop()` applies an array of operations in order,
    and all of it or none of it (System Interfaces volume of POSIX.1-2017). */
module SysVSem {

  import opened Options

  /** One `struct sembuf` with no flags. */
  datatype SemBuf = SemBuf(num: nat, op: int)

  predicate InSet(ops: seq<SemBuf>, n: nat) {
    forall i :: 0 <= i < |ops| ==> ops[i].num < n
  }

  /** Whether one operation can be done on a semaphore of value `v`. */
  predicate Ready(v: int, op: int) {
    if op == 0 then v == 0 else v + op >= 0
  }

  /** The semaphore values after the whole array, or None when the caller has to wait. */
  function Apply(sems: seq<nat>, ops: seq<SemBuf>): (r: Option<seq<nat>>)
    requires InSet(ops, |sems|)
    ensures r.Some? ==> |r.value| == |sems|
    decreases |ops|
  {
    if ops == [] then Some(sems)
    else if !Ready(sems[ops[0].num], ops[0].op) then None
    else Apply(sems[ops[0].num := sems[ops[0].num] + ops[0].op], ops[1..])
  }

  lemma ApplyStep(sems: seq<nat>, a: SemBuf, rest: seq<SemBuf>)
    requires a.num < |sems| && InSet(rest, |sems|)
    ensures Apply(sems, [a] + rest) ==
            if Ready(sems[a.num], a.op) then Apply(sems[a.num := sems[a.num] + a.op], rest) else None
  {
    assert ([a] + rest)[1..] == rest;
  }

  /** The net change an array makes to semaphore `k`. */
  function Net(ops: seq<SemBuf>, k: nat): int
    decreases |ops|
  {
    if ops == [] then 0 else (if ops[0].num == k then ops[0].op else 0) + Net(ops[1..], k)
  }

  /** When an array succeeds, every semaphore has moved by its net change. */
  lemma {:induction false} ApplyNet(sems: seq<nat>, ops: seq<SemBuf>)
    requires InSet(ops, |sems|) && Apply(sems, ops).Some?
    ensures |Apply(sems, ops).value| == |sems|
    ensures forall k :: 0 <= k < |sems| ==> Apply(sems, ops).value[k] == sems[k] + Net(ops, k)
    decreases |ops|
  {
    if ops != [] {
      ApplyNet(sems[ops[0].num := sems[ops[0].num] + ops[0].op], ops[1..]);
    }
  }

  /** An array succeeds exactly when each operation is ready on the value the
      earlier ones leave behind. */
  lemma {:induction false} ApplyWhen(sems: seq<nat>, ops: seq<SemBuf>)
    requires InSet(ops, |sems|)
    ensures Apply(sems, ops).Some? <==>
            forall i :: 0 <= i < |ops| ==> Ready(sems[ops[i].num] + Net(ops[..i], ops[i].num), ops[i].op)
    decreases |ops|
  {
    if ops != [] {
      assert ops[..0] == [];
      if Ready(sems[ops[0].num], ops[0].op) {
        var rest, next := ops[1..], sems[ops[0].num := sems[ops[0].num] + ops[0].op];
        ApplyWhen(next, rest);
        forall i | 0 < i < |ops|
          ensures sems[ops[i].num] + Net(ops[..i], ops[i].num)
               == next[rest[i - 1].num] + Net(rest[..i - 1], rest[i - 1].num)
        {
          assert ops[..i][1..] == rest[..i - 1];
        }
        assert forall i :: 0 <= i < |rest| ==> rest[i] == ops[i + 1];
      } else {
        assert !Ready(sems[ops[0].num] + Net(ops[..0], ops[0].num), ops[0].op);
      }
    }
  }

  /** Two operations on different semaphores: both are ready, or nothing happens. */
  lemma TwoOps(sems: seq<nat>, a: SemBuf, b: SemBuf)
    requires a.num < |sems| && b.num < |sems| && a.num != b.num
    ensures Apply(sems, [a, b]) ==
            if Ready(sems[a.num], a.op) && Ready(sems[b.num], b.op)
            then Some(sems[a.num := sems[a.num] + a.op][b.num := sems[b.num] + b.op])
            else None
  {
    assert [a, b] == [a] + ([b] + []);
    ApplyStep(sems, a, [b]);
    if Ready(sems[a.num], a.op) { ApplyStep(sems[a.num := sems[a.num] + a.op], b, []); }
  }
}
