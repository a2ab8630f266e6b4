/** The segmented queue with many consumers, with segments freed beside it, as
    the hazard domain allows (Hazard.FreedOnce, Hazard.HeldIsNotFreed): a
    segment the head has passed, once no push and no pop holds it. No step
    touches a freed segment. */
module SegmentManyMemory {
  import opened SegmentQueueMany

  datatype Memory = Memory(q: State, freed: set<nat>)

  // The segment a push, or a pop, has protected and may touch.
  ghost predicate PushHolds(b: Producer, g: nat) {
    b.Pushing? && !b.at.ReadTail? && !b.at.Placed? && b.at.t == g
  }

  ghost predicate PopHolds(c: Consumer, g: nat) {
    !c.at.Away? && !c.at.ReadHead? && c.at.h == g
  }

  ghost predicate Held(s: State, g: nat) {
    || (exists p :: 0 <= p < |s.prods| && PushHolds(s.prods[p], g))
    || (exists q :: 0 <= q < |s.cons| && PopHolds(s.cons[q], g))
  }

  ghost predicate Free(m: Memory, m': Memory, g: nat) {
    g < m.q.head && !Held(m.q, g) && m' == m.(freed := m.freed + {g})
  }

  ghost predicate MemoryNext(m: Memory, m': Memory) {
    || (Next(m.q, m'.q) && m'.freed == m.freed)
    || exists g: nat :: Free(m, m', g)
  }

  ghost predicate IsMemoryRun(run: seq<Memory>) {
    && |run| > 0 && Init(run[0].q) && run[0].freed == {}
    && forall i :: 0 <= i < |run| - 1 ==> MemoryNext(run[i], run[i + 1])
  }

  // ------------------------------------------------------------- invariant

  ghost predicate Safe(m: Memory) {
    && (forall g :: g in m.freed ==> g < m.q.head)
    && (forall g :: Held(m.q, g) ==> g !in m.freed)
  }

  // Who holds a segment after a step held it before, or has it from the tail or
  // the head.
  lemma LinkHoldsOn(s: State, s': State, p: nat, r: nat, g: nat)
    requires PushLink(s, s', p) || PushMoveTail(s, s', p) || PushEnd(s, s', p)
    requires r < |s'.prods| && PushHolds(s'.prods[r], g)
    ensures r < |s.prods| && PushHolds(s.prods[r], g)
  {}

  lemma FillHoldsOn(s: State, s': State, p: nat, r: nat, g: nat)
    requires PushFill(s, s', p) || PushSkipped(s, s', p) || PushGiveUp(s, s', p)
    requires r < |s'.prods| && PushHolds(s'.prods[r], g)
    ensures r < |s.prods| && PushHolds(s.prods[r], g)
  {}

  lemma PushHoldsOn(s: State, s': State, p: nat, r: nat, g: nat)
    requires PushStep(s, s', p) && r < |s'.prods| && PushHolds(s'.prods[r], g)
    ensures r < |s.prods| && (PushHolds(s.prods[r], g) || g == s.tail)
  {
    if PushLink(s, s', p) || PushMoveTail(s, s', p) || PushEnd(s, s', p) {
      LinkHoldsOn(s, s', p, r, g);
    } else if PushFill(s, s', p) || PushSkipped(s, s', p) || PushGiveUp(s, s', p) {
      FillHoldsOn(s, s', p, r, g);
    }
  }

  lemma ReadHoldsOn(s: State, s': State, q: nat, r: nat, g: nat)
    requires PopBegin(s, s', q) || PopProtect(s, s', q) || PopReadDeq(s, s', q) || PopReadEnq(s, s', q)
    requires r < |s'.cons| && PopHolds(s'.cons[r], g)
    ensures r < |s.cons| && (PopHolds(s.cons[r], g) || g == s.head)
  {}

  lemma SegmentHoldsOn(s: State, s': State, q: nat, r: nat, g: nat)
    requires PopSegmentStep(s, s', q) && r < |s'.cons| && PopHolds(s'.cons[r], g)
    ensures r < |s.cons| && (PopHolds(s.cons[r], g) || g == s.head)
  {
    if PopBegin(s, s', q) || PopProtect(s, s', q) || PopReadDeq(s, s', q) || PopReadEnq(s, s', q) {
      ReadHoldsOn(s, s', q, r, g);
    }
  }

  lemma CellHoldsOn(s: State, s': State, q: nat, r: nat, g: nat)
    requires PopCellStep(s, s', q) && r < |s'.cons| && PopHolds(s'.cons[r], g)
    ensures r < |s.cons| && PopHolds(s.cons[r], g)
  {}

  lemma NextHoldsOn(s: State, s': State, g: nat)
    requires Next(s, s') && Held(s', g)
    ensures Held(s, g) || g == s.tail || g == s.head
  {
    var p: nat :| PushStep(s, s', p) || PopStep(s, s', p);
    if PushStep(s, s', p) {
      PushLeavesPops(s, s', p);
      if r :| 0 <= r < |s'.prods| && PushHolds(s'.prods[r], g) { PushHoldsOn(s, s', p, r, g); }
    } else {
      PopLeavesPushes(s, s', p);
      if r :| 0 <= r < |s'.cons| && PopHolds(s'.cons[r], g) {
        if PopSegmentStep(s, s', p) { SegmentHoldsOn(s, s', p, r, g); } else { CellHoldsOn(s, s', p, r, g); }
      }
    }
  }

  lemma NextSafe(m: Memory, m': Memory)
    requires Inv(m.q) && Safe(m) && Next(m.q, m'.q) && m'.freed == m.freed
    ensures Inv(m'.q) && Safe(m')
  {
    NextKeeps(m.q, m'.q);
    forall g | Held(m'.q, g) ensures g !in m'.freed { NextHoldsOn(m.q, m'.q, g); }
  }

  lemma FreeSafe(m: Memory, m': Memory, g: nat)
    requires Inv(m.q) && Safe(m) && Free(m, m', g)
    ensures Inv(m'.q) && Safe(m')
  {}

  lemma MemoryNextSafe(m: Memory, m': Memory)
    requires Inv(m.q) && Safe(m) && MemoryNext(m, m')
    ensures Inv(m'.q) && Safe(m')
  {
    if Next(m.q, m'.q) && m'.freed == m.freed {
      NextSafe(m, m');
    } else {
      var g: nat :| Free(m, m', g);
      FreeSafe(m, m', g);
    }
  }

  lemma {:induction false} RunSafe(run: seq<Memory>, n: nat)
    requires IsMemoryRun(run) && n < |run|
    ensures Inv(run[n].q) && Safe(run[n])
  {
    if n == 0 {
      InitHolds(run[0].q);
    } else {
      RunSafe(run, n - 1);
      assert MemoryNext(run[n - 1], run[n]);
      MemoryNextSafe(run[n - 1], run[n]);
    }
  }

  // ------------------------------------------------------------- main results

  /** In every run in which segments are freed: the segment a push or a pop is
      at, every segment from the head on, and so the one the tail leads to, is
      not freed. */
  lemma TouchesNoneFreed(run: seq<Memory>, n: nat, g: nat)
    requires IsMemoryRun(run) && n < |run| && (Held(run[n].q, g) || g >= run[n].q.head)
    ensures g !in run[n].freed
    ensures run[n].q.tail !in run[n].freed && run[n].q.head !in run[n].freed
  {
    RunSafe(run, n);
  }

  // The step moves the head past g, which is then retired.
  ghost predicate Retires(s: State, s': State, g: nat) {
    exists q: nat :: PopAdvanceHead(s, s', q) && s.cons[q].at.h == g == s.head
  }

  /** A segment is retired once, when the head and the tail have left it for
      good: what the domain asks of a retire. */
  lemma RetiredOnce(run: seq<State>, i: nat, n: nat, g: nat)
    requires IsRun(run) && i < n < |run| && Retires(run[i], run[i + 1], g)
    ensures run[n].head > g && run[n].tail > g && (n + 1 < |run| ==> !Retires(run[n], run[n + 1], g))
  {
    forall k | i + 1 < k <= n ensures Grows(run[k - 1], run[k]) { RunStep(run, k); }
    RunGrows(run, i + 1, n);
    RunHolds(run, n);
  }
}
