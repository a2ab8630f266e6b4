/** The segmented queue with one consumer, with segments freed beside it, as the
    hazard domain allows (Hazard.FreedOnce, Hazard.HeldIsNotFreed): a segment
    the head has passed, once no push holds it. The consumer protects nothing:
    it alone moves the head, and it touches nothing behind it. No step touches
    a freed segment. */
module SegmentOneMemory {
  import opened Positions
  import opened SegmentQueueOne

  datatype Memory = Memory(q: State, freed: set<nat>)

  // The segment a push has protected and may touch.
  ghost predicate PushHolds(b: Producer, g: nat) {
    b.Pushing? && !b.at.ReadTail? && !b.at.Placed? && b.at.t == g
  }

  ghost predicate Held(s: State, g: nat) {
    exists p :: 0 <= p < |s.prods| && PushHolds(s.prods[p], g)
  }

  // The segments the consumer may touch in its next step.
  ghost predicate PopTouches(s: State, g: nat) {
    match s.cons.at
    case Away => false
    case Top => g == s.head
    case AdvanceTail => g == s.head
    case AdvanceHead => g == s.head
    case Holes(k) => k < |s.cons.holes| && g == s.cons.holes[k].seg
    case Walk => g == s.cons.walk.seg
    case Walking(_) => g == s.cons.walk.seg
    case Look(k, m) => m <= k < |s.cons.holes| && (g == s.cons.holes[m].seg || g == s.cons.holes[k].seg)
  }

  ghost predicate Free(m: Memory, m': Memory, g: nat) {
    g < m.q.head && !Held(m.q, g) && m' == m.(freed := m.freed + {g})
  }

  ghost predicate MemoryNext(m: Memory, m': Memory) {
    || (Next(m.q, m'.q) && m'.freed == m.freed)
    || exists g: nat :: Free(m, m', g)
  }

  ghost predicate IsMemoryRun(run: seq<Memory>) {
    && |run| > 0 && Init(run[0].q) && run[0].freed == {}
    && forall i :: 0 <= i < |run| - 1 ==> MemoryNext(run[i], run[i + 1])
  }

  // ------------------------------------------------------------- invariant

  ghost predicate Safe(m: Memory) {
    && (forall g :: g in m.freed ==> g < m.q.head)
    && (forall g :: Held(m.q, g) ==> g !in m.freed)
  }

  // Who holds a segment after a step held it before, or has it from the tail.
  lemma LinkHoldsOn(s: State, s': State, p: nat, r: nat, g: nat)
    requires PushLink(s, s', p) || PushMoveTail(s, s', p) || PushEnd(s, s', p)
    requires r < |s'.prods| && PushHolds(s'.prods[r], g)
    ensures r < |s.prods| && PushHolds(s.prods[r], g)
  {}

  lemma PushHoldsOn(s: State, s': State, p: nat, r: nat, g: nat)
    requires PushStep(s, s', p) && r < |s'.prods| && PushHolds(s'.prods[r], g)
    ensures r < |s.prods| && (PushHolds(s.prods[r], g) || g == s.tail)
  {
    if PushLink(s, s', p) || PushMoveTail(s, s', p) || PushEnd(s, s', p) { LinkHoldsOn(s, s', p, r, g); }
  }

  lemma PopLeavesPushes(s: State, s': State)
    requires PopStep(s, s')
    ensures s'.prods == s.prods && s.head <= s'.head
  {}

  lemma PushLeavesHead(s: State, s': State, p: nat)
    requires PushStep(s, s', p)
    ensures s'.head == s.head
  {}

  lemma NextSafe(m: Memory, m': Memory)
    requires Inv(m.q) && Safe(m) && Next(m.q, m'.q) && m'.freed == m.freed
    ensures Safe(m')
  {
    var s, s' := m.q, m'.q;
    if PopStep(s, s') {
      PopLeavesPushes(s, s');
      assert forall g :: Held(s', g) ==> Held(s, g);
    } else {
      var p: nat :| PushStep(s, s', p);
      PushLeavesHead(s, s', p);
      forall g | Held(s', g) ensures Held(s, g) || g == s.tail {
        var r :| 0 <= r < |s'.prods| && PushHolds(s'.prods[r], g);
        PushHoldsOn(s, s', p, r, g);
      }
    }
  }

  lemma FreeSafe(m: Memory, m': Memory, g: nat)
    requires Safe(m) && Free(m, m', g)
    ensures Safe(m')
  {}

  lemma MemoryNextSafe(m: Memory, m': Memory)
    requires Inv(m.q) && Safe(m) && MemoryNext(m, m')
    ensures Inv(m'.q) && Safe(m')
  {
    if Next(m.q, m'.q) && m'.freed == m.freed {
      StepExtends(m.q, m'.q);
      NextSafe(m, m');
    } else {
      var g: nat :| Free(m, m', g);
      FreeSafe(m, m', g);
    }
  }

  lemma {:induction false} RunSafe(run: seq<Memory>, n: nat)
    requires IsMemoryRun(run) && n < |run|
    ensures Inv(run[n].q) && Safe(run[n])
  {
    if n == 0 {
      InitHolds(run[0].q);
    } else {
      RunSafe(run, n - 1);
      assert MemoryNext(run[n - 1], run[n]);
      MemoryNextSafe(run[n - 1], run[n]);
    }
  }

  // ------------------------------------------------------------- main results

  // The holes and the walk are not behind the head.
  lemma TouchesFromHead(s: State, g: nat)
    requires Inv(s) && PopTouches(s, g)
    ensures g >= s.head
  {
    if s.cons.at.Holes? || s.cons.at.Look? {
      forall x | x in s.cons.holes ensures x.seg >= s.head {
        assert x !in s.out && x.idx < SEGMENT;
      }
    }
  }

  /** In every run in which segments are freed: the segment a push is at, those
      the consumer is about to touch, and the one the tail leads to, are not
      freed. */
  lemma TouchesNoneFreed(run: seq<Memory>, n: nat, g: nat)
    requires IsMemoryRun(run) && n < |run| && (Held(run[n].q, g) || PopTouches(run[n].q, g))
    ensures g !in run[n].freed && run[n].q.tail !in run[n].freed
  {
    RunSafe(run, n);
    if PopTouches(run[n].q, g) { TouchesFromHead(run[n].q, g); }
  }
}
