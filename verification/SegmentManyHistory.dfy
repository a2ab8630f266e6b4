/** The segmented queue with many consumers is linearisable: every run has one
    sequential history of a first-in first-out queue, in which each push of an
    element, each pop and each empty answer takes effect at a moment inside its
    call.

    An element enters as its push takes its cell. It leaves as a pop takes the
    cell, or, if the pop was there first, as it enters. Which cells get an
    element shows at the end of the run: f is its last state. */
module SegmentManyHistory {
  import opened Basics
  import opened Positions
  import opened SegmentQueueMany

  // ------------------------------------------------- the sequential queue

  ghost function Entered(s: State, f: State): set<Pos> {
    set x | x in FullCells(f) && Reserved(s.segs, x)
  }

  ghost function Gone(s: State, f: State): set<Pos> {
    set x | x in FullCells(f) && Reserved(s.segs, x) && Claimed(s.segs, x)
  }

  // The elements queued, oldest first.
  ghost function Queue(s: State, f: State): seq<Pos> {
    Line(Entered(s, f) - Gone(s, f))
  }

  // Those that enter, and those that leave, in a step.
  ghost function Enters(s: State, s': State, f: State): seq<Pos> {
    Line(Entered(s', f) - Entered(s, f))
  }

  ghost function Leaves(s: State, s': State, f: State): seq<Pos> {
    Line(Gone(s', f) - Gone(s, f))
  }

  // Cells are taken from the first on, by pushes and by pops.
  lemma TakenFromFirst(s: State, x: Pos, y: Pos)
    requires QueueOk(s) && x.idx < SEGMENT && y.idx < SEGMENT
    ensures Reserved(s.segs, x) && !Reserved(s.segs, y) ==> Lt(x, y)
    ensures Claimed(s.segs, x) && !Claimed(s.segs, y) ==> Lt(x, y)
  {}

  lemma EnterAfter(s: State, s': State, f: State)
    requires QueueOk(s)
    ensures AllBefore(Entered(s, f) - Gone(s, f), Entered(s', f) - Entered(s, f))
  {
    forall x, y | x in Entered(s, f) - Gone(s, f) && y in Entered(s', f) - Entered(s, f) ensures Lt(x, y) {
      TakenFromFirst(s, x, y);
    }
  }

  lemma LeaveBefore(s: State, s': State, f: State)
    requires QueueOk(s')
    ensures AllBefore(Gone(s', f) - Gone(s, f), Entered(s', f) - Gone(s', f))
  {
    forall x, y | x in Gone(s', f) - Gone(s, f) && y in Entered(s', f) - Gone(s', f) ensures Lt(x, y) {
      TakenFromFirst(s', x, y);
    }
  }

  lemma TakenStays(s: State, s': State, x: Pos)
    requires Grows(s, s')
    ensures Reserved(s.segs, x) ==> Reserved(s'.segs, x)
    ensures Claimed(s.segs, x) ==> Claimed(s'.segs, x)
  {}

  lemma SameElements(s: State, s': State, f: State)
    requires Grows(s, s')
    ensures Entered(s, f) <= Entered(s', f) && Gone(s, f) <= Gone(s', f) && Gone(s, f) <= Entered(s, f)
    ensures Entered(s, f) - Gone(s, f) + (Entered(s', f) - Entered(s, f)) ==
            Gone(s', f) - Gone(s, f) + (Entered(s', f) - Gone(s', f))
  {
    forall x ensures Reserved(s.segs, x) ==> Reserved(s'.segs, x)
             ensures Claimed(s.segs, x) ==> Claimed(s'.segs, x)
    {
      TakenStays(s, s', x);
    }
  }

  /** Each step of a run is some moves of a first-in first-out queue: those that
      enter join the end, in order, and those that leave go from the front. */
  lemma StepIsFifo(run: seq<State>, f: State, k: nat)
    requires IsRun(run) && k + 1 < |run|
    ensures Queue(run[k], f) + Enters(run[k], run[k + 1], f) == Leaves(run[k], run[k + 1], f) + Queue(run[k + 1], f)
  {
    RunHolds(run, k);
    RunHolds(run, k + 1);
    RunStep(run, k + 1);
    MovesFifo(run[k], run[k + 1], f);
  }

  lemma MovesFifo(s: State, s': State, f: State)
    requires QueueOk(s) && QueueOk(s') && Grows(s, s')
    ensures Queue(s, f) + Enters(s, s', f) == Leaves(s, s', f) + Queue(s', f)
  {
    SameElements(s, s', f);
    EnterAfter(s, s', f);
    LeaveBefore(s, s', f);
    LineJoins(Entered(s, f) - Gone(s, f), Entered(s', f) - Entered(s, f));
    LineJoins(Gone(s', f) - Gone(s, f), Entered(s', f) - Gone(s', f));
  }

  lemma StartsEmpty(run: seq<State>, f: State)
    requires IsRun(run)
    ensures Queue(run[0], f) == []
  {
    assert Entered(run[0], f) - Gone(run[0], f) == {};
  }

  // All that has entered by state n, and all that has left, in order.
  ghost function Ins(run: seq<State>, f: State, n: nat): seq<Pos>
    requires n < |run|
  {
    if n == 0 then [] else Ins(run, f, n - 1) + Enters(run[n - 1], run[n], f)
  }

  ghost function Outs(run: seq<State>, f: State, n: nat): seq<Pos>
    requires n < |run|
  {
    if n == 0 then [] else Outs(run, f, n - 1) + Leaves(run[n - 1], run[n], f)
  }

  ghost predicate FifoAt(run: seq<State>, f: State, k: nat)
    requires k + 1 < |run|
  {
    Queue(run[k], f) + Enters(run[k], run[k + 1], f) == Leaves(run[k], run[k + 1], f) + Queue(run[k + 1], f)
  }

  lemma {:induction false} HistoryOf(run: seq<State>, f: State, n: nat)
    requires n < |run| && Queue(run[0], f) == [] && forall k: nat :: k + 1 < |run| ==> FifoAt(run, f, k)
    ensures Ins(run, f, n) == Outs(run, f, n) + Queue(run[n], f)
  {
    if n > 0 {
      HistoryOf(run, f, n - 1);
      assert FifoAt(run, f, n - 1);
      StillPrefix(Ins(run, f, n - 1), Outs(run, f, n - 1), Queue(run[n - 1], f), Enters(run[n - 1], run[n], f),
                  Leaves(run[n - 1], run[n], f), Queue(run[n], f));
    }
  }

  /** In every run, in every state: what has left is what entered first, in that
      order, and the queue is the rest. */
  lemma History(run: seq<State>, f: State, n: nat)
    requires IsRun(run) && n < |run|
    ensures Ins(run, f, n) == Outs(run, f, n) + Queue(run[n], f)
  {
    StartsEmpty(run, f);
    forall k: nat | k + 1 < |run| ensures FifoAt(run, f, k) { StepIsFifo(run, f, k); }
    HistoryOf(run, f, n);
  }

  // -------------------------------------------------------- inside the call

  // What a push has in cells, or has cells taken for.
  ghost predicate Has(s: State, p: nat, x: Pos) {
    At(s, p) && (x in s.prods[p].mine || Owes(s.prods[p], x))
  }

  // After a step it has nothing but what it had, and what nobody had.
  ghost predicate Gains(s: State, s': State, p: nat) {
    forall x :: Has(s', p, x) ==> At(s, p) && (Has(s, p, x) || !Reserved(s.segs, x))
  }

  lemma FillGains(s: State, s': State, p: nat)
    requires ProducersOk(s) && (PushFill(s, s', p) || PushSkipped(s, s', p) || PushGiveUp(s, s', p))
    ensures Gains(s, s', p)
  {
    assert ProducerOk(s, p, s.prods[p]);
    forall x | Has(s', p, x) ensures Has(s, p, x) {
      assert PushFill(s, s', p) ==> Owes(s.prods[p], Pos(s.prods[p].at.t, s.prods[p].at.j));
    }
  }

  lemma ReserveGains(s: State, s': State, p: nat)
    requires PushReserve(s, s', p)
    ensures Gains(s, s', p)
  {}

  lemma LinkGains(s: State, s': State, p: nat)
    requires PushLink(s, s', p)
    ensures Gains(s, s', p)
  {
    forall x | Has(s', p, x) ensures Has(s, p, x) || !Reserved(s.segs, x) {
      var b, c := s.prods[p], s'.prods[p];
      assert x in c.mine;
      var r :| 0 <= r < |c.mine| && c.mine[r] == x;
      assert r < |b.mine| ==> x == b.mine[r];
    }
  }

  lemma RestGains(s: State, s': State, p: nat)
    requires PushProtect(s, s', p) || PushReadNext(s, s', p) || PushMoveTail(s, s', p) || PushEnd(s, s', p)
    ensures Gains(s, s', p)
  {}

  lemma OtherGains(s: State, s': State, r: nat, p: nat)
    requires PushStep(s, s', r) && r != p
    ensures Gains(s, s', p)
  {
    PushMoves(s, s', r, p);
    OtherProducerSame(s, s', r, p);
  }

  lemma OtherProducerSame(s: State, s': State, r: nat, p: nat)
    requires PushStep(s, s', r) && r != p
    ensures |s'.prods| == |s.prods| && (p < |s.prods| ==> s'.prods[p] == s.prods[p])
  {
    if PushFill(s, s', r) || PushSkipped(s, s', r) || PushGiveUp(s, s', r) { OtherFillSame(s, s', r, p); }
  }

  lemma OtherFillSame(s: State, s': State, r: nat, p: nat)
    requires (PushFill(s, s', r) || PushSkipped(s, s', r) || PushGiveUp(s, s', r)) && r != p
    ensures |s'.prods| == |s.prods| && (p < |s.prods| ==> s'.prods[p] == s.prods[p])
  {}

  lemma NextGains(s: State, s': State, p: nat)
    requires ProducersOk(s) && Next(s, s')
    ensures Gains(s, s', p)
  {
    var r: nat :| PushStep(s, s', r) || PopStep(s, s', r);
    if PopStep(s, s', r) { PopLeavesPushes(s, s', r); }
    else if r != p { OtherGains(s, s', r, p); }
    else if PushReserve(s, s', p) { ReserveGains(s, s', p); }
    else if PushLink(s, s', p) { LinkGains(s, s', p); }
    else if PushFill(s, s', p) || PushSkipped(s, s', p) || PushGiveUp(s, s', p) { FillGains(s, s', p); }
    else if items :| PushBegin(s, s', p, items) {}
    else { RestGains(s, s', p); }
  }

  ghost predicate GainsAt(run: seq<State>, p: nat, k: nat)
    requires k + 1 < |run|
  {
    Grows(run[k], run[k + 1]) && Gains(run[k], run[k + 1], p)
  }

  lemma RunGains(run: seq<State>, p: nat, k: nat)
    requires IsRun(run) && k + 1 < |run|
    ensures GainsAt(run, p, k)
  {
    RunHolds(run, k);
    RunStep(run, k + 1);
    NextGains(run[k], run[k + 1], p);
  }

  // A push takes its cells after it has begun.
  lemma {:induction false} TakenInPush(run: seq<State>, p: nat, b: nat, e: nat, x: Pos)
    requires SamePush(run, p, b, e) && Has(run[e], p, x) && forall k :: b <= k < e ==> GainsAt(run, p, k)
    ensures !Reserved(run[b + 1].segs, x)
    decreases e
  {
    assert GainsAt(run, p, e - 1);
    if e - 1 > b {
      if Reserved(run[e - 1].segs, x) {
        TakenInPush(run, p, b, e - 1, x);
      } else {
        ReservedSince(run, p, b + 1, e - 1, x);
      }
    }
  }

  lemma {:induction false} ReservedSince(run: seq<State>, p: nat, i: nat, j: nat, x: Pos)
    requires i <= j < |run| && forall k :: i <= k < j ==> GainsAt(run, p, k)
    ensures Reserved(run[i].segs, x) ==> Reserved(run[j].segs, x)
    decreases j
  {
    if i < j {
      ReservedSince(run, p, i, j - 1, x);
      assert GainsAt(run, p, j - 1);
      TakenStays(run[j - 1], run[j], x);
    }
  }

  lemma {:induction false} EnterStep(run: seq<State>, f: State, x: Pos, i: nat, j: nat) returns (k: nat)
    requires i <= j < |run| && x !in Entered(run[i], f) && x in Entered(run[j], f)
    ensures i <= k < j && x in Enters(run[k], run[k + 1], f)
    decreases j
  {
    if x in Entered(run[j - 1], f) {
      k := EnterStep(run, f, x, i, j - 1);
    } else {
      k := j - 1;
      assert x in Elements(Enters(run[k], run[k + 1], f));
    }
  }

  lemma {:induction false} LeaveStep(run: seq<State>, f: State, x: Pos, i: nat, j: nat) returns (k: nat)
    requires i <= j < |run| && x !in Gone(run[i], f) && x in Gone(run[j], f)
    ensures i <= k < j && x in Leaves(run[k], run[k + 1], f)
    decreases j
  {
    if x in Gone(run[j - 1], f) {
      k := LeaveStep(run, f, x, i, j - 1);
    } else {
      k := j - 1;
      assert x in Elements(Leaves(run[k], run[k + 1], f));
    }
  }

  lemma StaysFull(run: seq<State>, e: nat, x: Pos)
    requires IsRun(run) && e < |run| && x in FullCells(run[e])
    ensures x in FullCells(run[|run| - 1])
  {
    forall k | e < k <= |run| - 1 ensures Grows(run[k - 1], run[k]) { RunStep(run, k); }
    RunGrows(run, e, |run| - 1);
  }

  /** An element enters the queue inside its push: after the push has begun, and
      before it is known to have the element in a cell. */
  lemma PushPoint(run: seq<State>, p: nat, b: nat, e: nat, x: Pos)
    requires IsRun(run) && SamePush(run, p, b, e) && x in run[e].prods[p].mine
    ensures exists k :: b < k < e && x in Enters(run[k], run[k + 1], run[|run| - 1])
  {
    var f := run[|run| - 1];
    forall k: nat | b <= k < e ensures GainsAt(run, p, k) { RunGains(run, p, k); }
    RunHolds(run, e);
    assert ProducerOk(run[e], p, run[e].prods[p]);
    StaysFull(run, e, x);
    TakenInPush(run, p, b, e, x);
    var k := EnterStep(run, f, x, b + 1, e);
  }

  // The same of pops: after a step a pop holds the cell it held, or one that
  // no pop had taken.
  ghost predicate Grabs(s: State, s': State, q: nat) {
    && |s'.cons| == |s.cons|
    && forall x :: q < |s.cons| && Holding(s'.cons[q], x) ==>
         !s.cons[q].at.Away? && (Holding(s.cons[q], x) || !Claimed(s.segs, x))
  }

  lemma ReadGrabs(s: State, s': State, r: nat, q: nat)
    requires PopBegin(s, s', r) || PopProtect(s, s', r) || PopReadDeq(s, s', r) || PopReadEnq(s, s', r)
    ensures Grabs(s, s', q)
  {}

  lemma SegmentGrabs(s: State, s': State, r: nat, q: nat)
    requires PopSegmentStep(s, s', r)
    ensures Grabs(s, s', q)
  {
    if PopBegin(s, s', r) || PopProtect(s, s', r) || PopReadDeq(s, s', r) || PopReadEnq(s, s', r) {
      ReadGrabs(s, s', r, q);
    }
  }

  lemma ClaimGrabs(s: State, s': State, r: nat, q: nat)
    requires PopClaim(s, s', r) || PopReadState(s, s', r) || PopLookEnq(s, s', r)
    ensures Grabs(s, s', q)
  {}

  lemma CellGrabs(s: State, s': State, r: nat, q: nat)
    requires PopCellStep(s, s', r)
    ensures Grabs(s, s', q)
  {
    if PopClaim(s, s', r) || PopReadState(s, s', r) || PopLookEnq(s, s', r) { ClaimGrabs(s, s', r, q); }
  }

  lemma NextGrabs(s: State, s': State, q: nat)
    requires Next(s, s')
    ensures Grabs(s, s', q)
  {
    var r: nat :| PushStep(s, s', r) || PopStep(s, s', r);
    if PushStep(s, s', r) { PushLeavesPops(s, s', r); }
    else if PopSegmentStep(s, s', r) { SegmentGrabs(s, s', r, q); }
    else { CellGrabs(s, s', r, q); }
  }

  ghost predicate GrabsAt(run: seq<State>, q: nat, k: nat)
    requires k + 1 < |run|
  {
    Grows(run[k], run[k + 1]) && Grabs(run[k], run[k + 1], q)
  }

  lemma RunGrabs(run: seq<State>, q: nat, k: nat)
    requires IsRun(run) && k + 1 < |run|
    ensures GrabsAt(run, q, k)
  {
    RunStep(run, k + 1);
    assert Next(run[k], run[k + 1]);
    NextGrabs(run[k], run[k + 1], q);
  }

  lemma {:induction false} ClaimedSince(run: seq<State>, q: nat, i: nat, j: nat, x: Pos)
    requires i <= j < |run| && forall k :: i <= k < j ==> GrabsAt(run, q, k)
    ensures Claimed(run[i].segs, x) ==> Claimed(run[j].segs, x)
    decreases j
  {
    if i < j {
      ClaimedSince(run, q, i, j - 1, x);
      assert GrabsAt(run, q, j - 1);
      TakenStays(run[j - 1], run[j], x);
    }
  }

  lemma {:induction false} TakenInPop(run: seq<State>, q: nat, b: nat, e: nat, x: Pos)
    requires SamePop(run, q, b, e) && Holding(run[e].cons[q], x) && forall k :: b <= k < e ==> GrabsAt(run, q, k)
    ensures !Claimed(run[b + 1].segs, x)
    decreases e
  {
    assert GrabsAt(run, q, e - 1);
    if e - 1 > b {
      if Claimed(run[e - 1].segs, x) {
        TakenInPop(run, q, b, e - 1, x);
      } else {
        ClaimedSince(run, q, b + 1, e - 1, x);
      }
    }
  }

  /** The element a pop hands out leaves the queue inside the pop. */
  lemma PopPoint(run: seq<State>, q: nat, b: nat, e: nat, x: Pos)
    requires IsRun(run) && SamePop(run, q, b, e) && run[e].cons[q].at == Take(x.seg, x.idx)
    ensures exists k :: b < k < e && x in Leaves(run[k], run[k + 1], run[|run| - 1])
  {
    var f := run[|run| - 1];
    forall k: nat | b <= k < e ensures GrabsAt(run, q, k) { RunGrabs(run, q, k); }
    RunHolds(run, e);
    assert PlaceOk(run[e], q, run[e].cons[q]);
    assert x == Pos(x.seg, x.idx) && x in FullCells(run[e]);
    StaysFull(run, e, x);
    TakenInPop(run, q, b, e, x);
    var k := LeaveStep(run, f, x, b + 1, e);
  }

  /** A pop that answers empty: at one moment inside it the queue was empty. */
  lemma EmptyPoint(run: seq<State>, q: nat, b: nat, e: nat)
    requires IsRun(run) && SamePop(run, q, b, e) && e + 1 < |run| && EndsWithout(run[e], run[e + 1], q)
    ensures exists i :: b < i <= e && Queue(run[i], run[|run| - 1]) == []
  {
    var i := EmptyAtOnce(run, q, b, e);
    assert Entered(run[i], run[|run| - 1]) - Gone(run[i], run[|run| - 1]) == {};
  }

  // ------------------------------------------------------ which pushes are over

  // The push of producer p, with x among its elements, returns in this step.
  ghost predicate Returns(s: State, s': State, p: nat, x: Pos) {
    p < |s.prods| == |s'.prods| && s.prods[p].Pushing? && s'.prods[p].Idle? && x in s.prods[p].mine
  }

  ghost predicate ReturnsAt(run: seq<State>, i: nat, p: nat, x: Pos) {
    i + 1 < |run| && Returns(run[i], run[i + 1], p, x)
  }

  ghost predicate ReturnedBy(run: seq<State>, n: nat, x: Pos) {
    exists i: nat, p: nat :: i < n && ReturnsAt(run, i, p, x)
  }

  ghost predicate Finishes(s: State, s': State) {
    forall x :: x in s'.finished <==> x in s.finished || exists p: nat :: Returns(s, s', p, x)
  }

  lemma PushFinishes(s: State, s': State, p: nat)
    requires PushStep(s, s', p)
    ensures Finishes(s, s')
  {
    forall r: nat | r != p ensures r < |s.prods| == |s'.prods| ==> s'.prods[r] == s.prods[r] {
      OtherProducerSame(s, s', p, r);
    }
    if PushEnd(s, s', p) {
      assert forall x :: x in s.prods[p].mine <==> Returns(s, s', p, x);
    } else {
      StillPushing(s, s', p);
    }
  }

  lemma StillPushing(s: State, s': State, p: nat)
    requires PushStep(s, s', p) && !PushEnd(s, s', p)
    ensures p < |s'.prods| && s'.prods[p].Pushing? && s'.finished == s.finished
  {
    if PushLink(s, s', p) || PushMoveTail(s, s', p) { LinkPushing(s, s', p); }
  }

  lemma LinkPushing(s: State, s': State, p: nat)
    requires PushLink(s, s', p) || PushMoveTail(s, s', p)
    ensures p < |s'.prods| && s'.prods[p].Pushing? && s'.finished == s.finished
  {}

  lemma PopFinishesNone(s: State, s': State, q: nat)
    requires PopStep(s, s', q)
    ensures s'.prods == s.prods && s'.finished == s.finished
  {
    PopLeavesPushes(s, s', q);
  }

  lemma NextFinishes(s: State, s': State)
    requires Next(s, s')
    ensures Finishes(s, s')
  {
    var p: nat :| PushStep(s, s', p) || PopStep(s, s', p);
    if PushStep(s, s', p) { PushFinishes(s, s', p); } else { PopFinishesNone(s, s', p); }
  }

  ghost predicate FinishesAt(run: seq<State>, k: nat)
    requires k + 1 < |run|
  {
    Finishes(run[k], run[k + 1])
  }

  lemma RunFinishes(run: seq<State>, k: nat)
    requires IsRun(run) && k + 1 < |run|
    ensures FinishesAt(run, k)
  {
    assert Next(run[k], run[k + 1]);
    NextFinishes(run[k], run[k + 1]);
  }

  lemma {:induction false} FinishedOn(run: seq<State>, n: nat, x: Pos)
    requires n < |run| && run[0].finished == {} && forall k: nat :: k + 1 < |run| ==> FinishesAt(run, k)
    ensures x in run[n].finished <==> ReturnedBy(run, n, x)
  {
    if n > 0 {
      FinishedOn(run, n - 1, x);
      assert FinishesAt(run, n - 1);
      var s, s' := run[n - 1], run[n];
      if p: nat :| Returns(s, s', p, x) { assert ReturnsAt(run, n - 1, p, x); }
    }
  }

  /** The elements called finished are those of the pushes that have returned. */
  lemma FinishedExactly(run: seq<State>, n: nat, x: Pos)
    requires IsRun(run) && n < |run|
    ensures x in run[n].finished <==> ReturnedBy(run, n, x)
  {
    forall k: nat | k + 1 < |run| ensures FinishesAt(run, k) { RunFinishes(run, k); }
    FinishedOn(run, n, x);
  }
}
