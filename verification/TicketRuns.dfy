/** Runs of the bounded ring with 32-bit tickets: as long as the counters do
    not go too far during any one call, every test on wrapped tickets gives the
    unbounded answer; and a run in which they do go too far. */
module TicketRuns {
  import opened Basics
  import opened BoundedRing
  import opened Tickets32

  // ------------------------------------------------- what a call has read

  // The values of tail and of head a stage still has.
  function TailRead(at: Stage): Option<nat> {
    match at
    case PushHead(t) => Some(t)
    case PushAgain(t, _) => Some(t)
    case PushCas(t, _) => Some(t)
    case PopStore(_, t) => Some(t)
    case SizeAgain(_, t) => Some(t)
    case Cas(_, t) => Some(t)
    case _ => None
  }

  function HeadRead(at: Stage): Option<nat> {
    match at
    case PopSeen(h) => Some(h)
    case PopTail(h) => Some(h)
    case PopStore(h, _) => Some(h)
    case PopCas(h) => Some(h)
    case SizeTail(h) => Some(h)
    case SizeAgain(h, _) => Some(h)
    case Cas(h, _) => Some(h)
    case _ => None
  }

  // Event e is of a ticket not taken in state s.
  ghost predicate Untaken(s: State, e: Event) {
    if e.Fill? then s.tail <= e.i else s.head <= e.i
  }

  // After a step, thread p has what it had, or what it read, or the tickets it
  // took.
  ghost predicate Recalls(s: State, s': State, p: nat) {
    At(s', p) ==>
      var at := s'.threads[p].at;
      && (TailRead(at).Some? ==>
            TailRead(at).value == s'.tail || (At(s, p) && TailRead(s.threads[p].at) == TailRead(at)))
      && (HeadRead(at).Some? ==>
            HeadRead(at).value == s'.head || (At(s, p) && HeadRead(s.threads[p].at) == HeadRead(at)))
      && forall e :: Owes(s', p, e) ==> At(s, p) && (Owes(s, p, e) || Untaken(s, e))
  }

  lemma PushRecalls(s: State, s': State, p: nat)
    requires PushLook(s, s', p)
    ensures Recalls(s, s', p)
  {}

  lemma PopReadRecalls(s: State, s': State, p: nat)
    requires PopReadHead(s, s', p) || PopReadSeen(s, s', p) || PopReadTail(s, s', p)
    ensures Recalls(s, s', p)
  {}

  lemma PopRecalls(s: State, s': State, p: nat)
    requires PopLook(s, s', p)
    ensures Recalls(s, s', p)
  {
    if PopReadHead(s, s', p) || PopReadSeen(s, s', p) || PopReadTail(s, s', p) { PopReadRecalls(s, s', p); }
  }

  lemma SizeReadRecalls(s: State, s': State, p: nat)
    requires SizeReadHead(s, s', p) || SizeReadTail(s, s', p)
    ensures Recalls(s, s', p)
  {}

  lemma SizeRecalls(s: State, s': State, p: nat)
    requires SizeLook(s, s', p)
    ensures Recalls(s, s', p)
  {
    if SizeReadHead(s, s', p) || SizeReadTail(s, s', p) { SizeReadRecalls(s, s', p); }
  }

  lemma PackedRecalls(s: State, s': State, p: nat)
    requires PackedLook(s, s', p)
    ensures Recalls(s, s', p)
  {}

  lemma EnterRecalls(s: State, s': State, p: nat)
    requires WorkEnter(s, s', p) || WorkCount(s, s', p) || WorkReturn(s, s', p)
    ensures Recalls(s, s', p)
  {}

  lemma CellRecalls(s: State, s': State, p: nat)
    requires CellStep(s, s', p)
    ensures Recalls(s, s', p)
  {
    if WorkEnter(s, s', p) || WorkCount(s, s', p) || WorkReturn(s, s', p) { EnterRecalls(s, s', p); }
  }

  lemma PushTicketRecalls(s: State, s': State, p: nat)
    requires Inv(s) && PushTicket(s, s', p)
    ensures Recalls(s, s', p)
  {
    assert ThreadOk(s, p, s.threads[p]);
  }

  lemma PopTicketRecalls(s: State, s': State, p: nat)
    requires Inv(s) && PopTicket(s, s', p)
    ensures Recalls(s, s', p)
  {
    assert ThreadOk(s, p, s.threads[p]);
  }

  lemma DecideUntaken(s: State, op: Op)
    requires s.head <= s.tail && Decide(s.cfg.cap, op, s.head, s.tail).Claim?
    ensures forall e :: e in Decide(s.cfg.cap, op, s.head, s.tail).todo ==> Untaken(s, e)
  {}

  lemma PackedTicketRecalls(s: State, s': State, p: nat)
    requires PackedTicket(s, s', p)
    ensures Recalls(s, s', p)
  {
    DecideUntaken(s, s.threads[p].op);
    assert s'.threads[p].at == Work(Decide(s.cfg.cap, s.threads[p].op, s.head, s.tail).todo, false);
  }

  lemma StepRecalls(s: State, s': State, q: nat, p: nat)
    requires Inv(s) && Step(s, s', q)
    ensures Recalls(s, s', p)
  {
    StepMoves(s, s', q);
    if q == p {
      if op :| Begin(s, s', p, op) {}
      else if PushLook(s, s', p) { PushRecalls(s, s', p); }
      else if PopLook(s, s', p) { PopRecalls(s, s', p); }
      else if PushTicket(s, s', p) { PushTicketRecalls(s, s', p); }
      else if PopTicket(s, s', p) { PopTicketRecalls(s, s', p); }
      else if PackedTicket(s, s', p) { PackedTicketRecalls(s, s', p); }
      else if CellStep(s, s', p) { CellRecalls(s, s', p); }
      else if SizeLook(s, s', p) { SizeRecalls(s, s', p); }
      else { PackedRecalls(s, s', p); }
    }
  }

  ghost predicate RecallsAt(run: seq<State>, p: nat, k: nat)
    requires k + 1 < |run|
  {
    Recalls(run[k], run[k + 1], p)
  }

  lemma RunRecalls(run: seq<State>, p: nat)
    requires IsRun(run)
    ensures forall k: nat :: k < |run| - 1 ==> RecallsAt(run, p, k)
  {
    forall k: nat | k < |run| - 1 ensures RecallsAt(run, p, k) {
      RunHolds(run, k);
      assert Next(run[k], run[k + 1]);
      var q: nat :| Step(run[k], run[k + 1], q);
      StepRecalls(run[k], run[k + 1], q, p);
    }
  }

  // Where thread p stands in state n, read during its call: i is the state of
  // the read.
  lemma {:induction false} TailSince(run: seq<State>, p: nat, n: nat) returns (i: nat)
    requires n < |run| && At(run[n], p) && TailRead(run[n].threads[p].at).Some? && !At(run[0], p)
    requires forall k: nat :: k < |run| - 1 ==> RecallsAt(run, p, k)
    ensures InCall(run, p, i, n) && run[i].tail == TailRead(run[n].threads[p].at).value
  {
    if TailRead(run[n].threads[p].at).value == run[n].tail {
      i := n;
    } else {
      assert RecallsAt(run, p, n - 1);
      i := TailSince(run, p, n - 1);
    }
  }

  lemma {:induction false} HeadSince(run: seq<State>, p: nat, n: nat) returns (i: nat)
    requires n < |run| && At(run[n], p) && HeadRead(run[n].threads[p].at).Some? && !At(run[0], p)
    requires forall k: nat :: k < |run| - 1 ==> RecallsAt(run, p, k)
    ensures InCall(run, p, i, n) && run[i].head == HeadRead(run[n].threads[p].at).value
  {
    if HeadRead(run[n].threads[p].at).value == run[n].head {
      i := n;
    } else {
      assert RecallsAt(run, p, n - 1);
      i := HeadSince(run, p, n - 1);
    }
  }

  // An event thread p owes: during its call there was a state in which its
  // ticket was not taken.
  lemma {:induction false} OwedSince(run: seq<State>, p: nat, n: nat, e: Event) returns (i: nat)
    requires n < |run| && Owes(run[n], p, e) && !At(run[0], p)
    requires forall k: nat :: k < |run| - 1 ==> RecallsAt(run, p, k)
    ensures InCall(run, p, i, n) && Untaken(run[i], e)
  {
    assert RecallsAt(run, p, n - 1);
    if Untaken(run[n - 1], e) {
      i := n - 1;
    } else {
      i := OwedSince(run, p, n - 1, e);
    }
  }

  // ----------------------------------------------------- calls that are brief

  // Up to state n, no counter goes up by more than d during any one call.
  ghost predicate Brief(run: seq<State>, n: nat, d: nat) {
    forall p: nat, i: nat, k: nat :: k <= n && InCall(run, p, i, k) ==>
      run[k].head <= run[i].head + d && run[k].tail <= run[i].tail + d
  }

  ghost predicate Near(a: nat, b: nat, d: nat) {
    a <= b + d && b <= a + d
  }

  // What thread p is about to compare, in state s.
  ghost predicate Close(s: State, p: nat, d: nat) {
    At(s, p) ==>
      match s.threads[p].at
      case PushHead(t) => t <= s.head + s.cfg.cap && s.head <= t + d
      case PushAgain(t, _) => Near(t, s.tail, d)
      case PushCas(t, _) => Near(t, s.tail, d)
      case PopSeen(h) => h <= s.head && s.head <= h + d
      case PopStore(h, t) => h <= t <= h + s.cfg.cap + d
      case PopCas(h) => Near(h, s.head, d)
      case SizeAgain(h, t) => Near(h, s.head, d) && h <= t <= h + s.cfg.cap + d
      case Cas(h, t) => Near(h, s.head, d) && Near(t, s.tail, d)
      case _ => true
  }

  lemma ReadsClose(run: seq<State>, n: nat, p: nat, d: nat)
    requires IsRun(run) && n < |run| && Brief(run, n, d)
    ensures Close(run[n], p, d)
  {
    if At(run[n], p) {
      RunRecalls(run, p);
      RunHolds(run, n);
      assert ThreadOk(run[n], p, run[n].threads[p]);
      ThreadCount(run, n);
      if TailRead(run[n].threads[p].at).Some? {
        var i := TailSince(run, p, n);
        RunHolds(run, i);
        CountersGrow(run, i, n);
      }
      if HeadRead(run[n].threads[p].at).Some? {
        var i := HeadSince(run, p, n);
        RunHolds(run, i);
        CountersGrow(run, i, n);
      }
    }
  }

  // The cell an event waits for is behind its ticket by no more than the
  // capacity and d.
  ghost predicate CellClose(s: State, p: nat, d: nat) {
    Working(s, p) && |s.cells| > 0 && !s.threads[p].at.todo[0].Count? ==>
      var i := s.threads[p].at.todo[0].i;
      CellOf(s.cells, i).ticket <= i <= CellOf(s.cells, i).ticket + s.cfg.cap + d
  }

  lemma CellsClose(run: seq<State>, n: nat, p: nat, d: nat)
    requires IsRun(run) && n < |run| && Brief(run, n, d)
    ensures CellClose(run[n], p, d)
  {
    RunHolds(run, n);
    var s := run[n];
    if Working(s, p) && !s.threads[p].at.todo[0].Count? {
      var e := s.threads[p].at.todo[0];
      assert ThreadOk(s, p, s.threads[p]) && Owned(s, p, e);
      if !InsideOk(s.cells, e) {
        var q, f := WaitsForLower(s, p);
        RunRecalls(run, q);
        ThreadCount(run, n);
        var i := OwedSince(run, q, n, f);
        RunHolds(run, i);
      }
    }
  }

  // ------------------------------------------------------- the copy of tail

  // A pop that stores the copy of tail.
  ghost predicate Stores(s: State, s': State, p: nat) {
    PopRefuse(s, s', p) || PopRefresh(s, s', p)
  }

  // With head at hk when the copy was last stored: head is past the copy by at
  // most what it was then and one more, and so is the ticket of a pop that has
  // found an element.
  ghost predicate SeenOk(s: State, hk: nat) {
    && (s.head <= s.seen || s.head <= hk + 1)
    && forall p: nat :: At(s, p) && s.threads[p].at.PopCas? ==> s.threads[p].at.h < s.seen || s.threads[p].at.h <= hk
  }

  lemma StoreKeeps(s: State, s': State, p: nat)
    requires Inv(s) && Stores(s, s', p)
    ensures SeenOk(s', s'.head) && s'.head == s.head && s'.seen == s.threads[p].at.t
  {
    assert ThreadOk(s, p, s.threads[p]);
    forall q: nat | At(s', q) && s'.threads[q].at.PopCas?
      ensures s'.threads[q].at.h < s'.seen || s'.threads[q].at.h <= s'.head
    {
      if q != p { assert ThreadOk(s, q, s.threads[q]); }
    }
  }

  lemma ReadSeenKeeps(s: State, s': State, p: nat, hk: nat)
    requires SeenOk(s, hk) && PopLook(s, s', p) && !Stores(s, s', p)
    ensures SeenOk(s', hk) && s'.seen == s.seen
  {
    forall q: nat | At(s', q) && s'.threads[q].at.PopCas?
      ensures s'.threads[q].at.h < s'.seen || s'.threads[q].at.h <= hk
    {
      if q != p { assert s'.threads[q] == s.threads[q]; }
    }
  }

  lemma PopTicketSeen(s: State, s': State, p: nat, hk: nat)
    requires Inv(s) && SeenOk(s, hk) && PopTicket(s, s', p)
    ensures SeenOk(s', hk) && s'.seen == s.seen
  {
    assert ThreadOk(s, p, s.threads[p]);
    forall q: nat | At(s', q) && s'.threads[q].at.PopCas?
      ensures s'.threads[q].at.h < s'.seen || s'.threads[q].at.h <= hk
    {
      assert q != p && s'.threads[q] == s.threads[q];
    }
  }

  // Any other step of the split ring leaves head and the copy alone.
  ghost predicate LeavesSeen(s: State, s': State, p: nat) {
    && s'.head == s.head && s'.seen == s.seen
    && p < |s.threads| == |s'.threads| && s'.threads == s.threads[p := s'.threads[p]]
    && (s'.threads[p].Call? ==> !s'.threads[p].at.PopCas?)
  }

  lemma PushLeavesSeen(s: State, s': State, p: nat)
    requires PushLook(s, s', p)
    ensures LeavesSeen(s, s', p)
  {}

  lemma PushTicketLeavesSeen(s: State, s': State, p: nat)
    requires PushTicket(s, s', p)
    ensures LeavesSeen(s, s', p)
  {}

  lemma SizeReadLeavesSeen(s: State, s': State, p: nat)
    requires SizeReadHead(s, s', p) || SizeReadTail(s, s', p)
    ensures LeavesSeen(s, s', p)
  {}

  lemma SizeLeavesSeen(s: State, s': State, p: nat)
    requires SizeLook(s, s', p)
    ensures LeavesSeen(s, s', p)
  {
    if SizeReadHead(s, s', p) || SizeReadTail(s, s', p) { SizeReadLeavesSeen(s, s', p); }
  }

  lemma PackedLeavesSeen(s: State, s': State, p: nat)
    requires PackedLook(s, s', p)
    ensures LeavesSeen(s, s', p)
  {}

  lemma EnterLeavesSeen(s: State, s': State, p: nat)
    requires WorkEnter(s, s', p) || WorkCount(s, s', p) || WorkReturn(s, s', p)
    ensures LeavesSeen(s, s', p)
  {}

  lemma CellLeavesSeen(s: State, s': State, p: nat)
    requires CellStep(s, s', p)
    ensures LeavesSeen(s, s', p)
  {
    if WorkEnter(s, s', p) || WorkCount(s, s', p) || WorkReturn(s, s', p) { EnterLeavesSeen(s, s', p); }
  }

  lemma BeginLeavesSeen(s: State, s': State, p: nat, op: Op)
    requires Begin(s, s', p, op)
    ensures LeavesSeen(s, s', p)
  {}

  lemma OtherKeeps(s: State, s': State, p: nat, hk: nat)
    requires SeenOk(s, hk) && LeavesSeen(s, s', p)
    ensures SeenOk(s', hk) && s'.seen == s.seen
  {}

  lemma StepSeen(s: State, s': State, p: nat, hk: nat)
    requires Inv(s) && !s.cfg.packed && SeenOk(s, hk) && Step(s, s', p) && !Stores(s, s', p)
    ensures SeenOk(s', hk) && s'.seen == s.seen
  {
    NeverPacked(s, p);
    if op :| Begin(s, s', p, op) { BeginLeavesSeen(s, s', p, op); OtherKeeps(s, s', p, hk); }
    else if PopLook(s, s', p) { ReadSeenKeeps(s, s', p, hk); }
    else if PopTicket(s, s', p) { PopTicketSeen(s, s', p, hk); }
    else if PushLook(s, s', p) { PushLeavesSeen(s, s', p); OtherKeeps(s, s', p, hk); }
    else if PushTicket(s, s', p) { PushTicketLeavesSeen(s, s', p); OtherKeeps(s, s', p, hk); }
    else if CellStep(s, s', p) { CellLeavesSeen(s, s', p); OtherKeeps(s, s', p, hk); }
    else if SizeLook(s, s', p) { SizeLeavesSeen(s, s', p); OtherKeeps(s, s', p, hk); }
    else if PackedLook(s, s', p) { PackedLeavesSeen(s, s', p); OtherKeeps(s, s', p, hk); }
  }

  lemma NeverPacked(s: State, p: nat)
    requires Inv(s) && !s.cfg.packed
    ensures At(s, p) ==> !s.threads[p].at.Cas?
  {
    if At(s, p) { assert ThreadOk(s, p, s.threads[p]); }
  }

  // State k is the last at which the copy in state n was stored.
  ghost predicate SeenSince(run: seq<State>, k: nat, n: nat, d: nat) {
    && k <= n < |run| && run[k].seen == run[n].seen && run[k].head <= run[k].seen + d && SeenOk(run[n], run[k].head)
  }

  lemma SeenNext(run: seq<State>, n: nat, k: nat, d: nat)
    requires IsRun(run) && n + 1 < |run| && Brief(run, n, d) && !run[n].cfg.packed && SeenSince(run, k, n, d)
    ensures SeenSince(run, k, n + 1, d) || SeenSince(run, n + 1, n + 1, d)
  {
    RunHolds(run, n);
    assert Next(run[n], run[n + 1]);
    var p: nat :| Step(run[n], run[n + 1], p);
    if Stores(run[n], run[n + 1], p) {
      StoreKeeps(run[n], run[n + 1], p);
      StoredNear(run, n, p, d);
    } else {
      StepSeen(run[n], run[n + 1], p, run[k].head);
    }
  }

  lemma {:induction false} SeenNear(run: seq<State>, n: nat, d: nat)
    requires IsRun(run) && n < |run| && Brief(run, n, d) && !run[0].cfg.packed
    ensures exists k: nat :: SeenSince(run, k, n, d)
  {
    if n == 0 {
      assert SeenSince(run, 0, 0, d);
    } else {
      SeenNear(run, n - 1, d);
      var k: nat :| SeenSince(run, k, n - 1, d);
      CountersGrow(run, 0, n - 1);
      SeenNext(run, n - 1, k, d);
    }
  }

  lemma StoredNear(run: seq<State>, n: nat, p: nat, d: nat)
    requires IsRun(run) && n < |run| && Brief(run, n, d) && At(run[n], p) && run[n].threads[p].at.PopStore?
    ensures run[n].head <= run[n].threads[p].at.t + d
  {
    RunRecalls(run, p);
    RunHolds(run, n);
    assert ThreadOk(run[n], p, run[n].threads[p]);
    ThreadCount(run, n);
    var i := HeadSince(run, p, n);
  }

  // ------------------------------------------------------------- main result

  // The wait for a cell's number.
  ghost predicate CellTestAgrees(cells: seq<Cell>, e: Event)
    requires |cells| > 0
  {
    match e
    case Fill(i, _) => Wrap(CellOf(cells, i).number) == Wrap(i) <==> CellOf(cells, i).number == i
    case Take(i) => Wrap(CellOf(cells, i).number) == Wrap(i + 1) <==> CellOf(cells, i).number == i + 1
    case Count(_) => true
  }

  // The test thread p is about to make, on wrapped tickets, gives the answer
  // of the unbounded ones; and what it answers or decides from is the same.
  ghost predicate Agrees(s: State, p: nat) {
    At(s, p) ==>
      match s.threads[p].at
      case PushHead(t) => Minus(Wrap(t), Wrap(s.head)) >= s.cfg.cap <==> LooksFull(s.cfg.cap, t, s.head)
      case PushAgain(t, _) => Wrap(s.tail) == Wrap(t) <==> s.tail == t
      case PushCas(t, _) => Wrap(s.tail) == Wrap(t) <==> s.tail == t
      case PopSeen(h) => Signed(Minus(Wrap(s.seen), Wrap(h))) <= 0 <==> s.seen <= h
      case PopStore(h, t) => Wrap(h) == Wrap(t) <==> h == t
      case PopCas(h) => Wrap(s.head) == Wrap(h) <==> s.head == h
      case SizeAgain(h, t) => (Wrap(s.head) == Wrap(h) <==> s.head == h) && Minus(Wrap(t), Wrap(h)) == t - h
      case Load => Minus(Wrap(s.tail), Wrap(s.head)) == s.tail - s.head
      case Cas(h, t) =>
        && (Wrap(s.head) == Wrap(h) && Wrap(s.tail) == Wrap(t) <==> s.head == h && s.tail == t)
        && Minus(Wrap(s.tail), Wrap(s.head)) == s.tail - s.head
      case Work(todo, _) => todo != [] && |s.cells| > 0 ==> CellTestAgrees(s.cells, todo[0])
      case _ => true
  }

  lemma SeenAgreesIn(run: seq<State>, n: nat, p: nat, d: nat)
    requires IsRun(run) && n < |run| && Brief(run, n, d) && d + run[n].cfg.cap < WORD / 2
    requires At(run[n], p) && run[n].threads[p].at.PopSeen?
    ensures Agrees(run[n], p)
  {
    RunHolds(run, n);
    assert ThreadOk(run[n], p, run[n].threads[p]);
    ReadsClose(run, n, p, d);
    CountersGrow(run, 0, n);
    SeenNear(run, n, d);
    SeenAgrees(run[n].seen, run[n].threads[p].at.h);
  }

  lemma CellTest(cells: seq<Cell>, e: Event, cap: nat, d: nat)
    requires |cells| > 0 && d + cap < WORD / 2
    requires !e.Count? ==>
               var c := CellOf(cells, e.i);
               c.ticket <= e.i <= c.ticket + cap + d && (c.number == c.ticket || c.number == c.ticket + 1)
    ensures CellTestAgrees(cells, e)
  {
    if e.Fill? { SameAgrees(CellOf(cells, e.i).number, e.i); }
    else if e.Take? { SameAgrees(CellOf(cells, e.i).number, e.i + 1); }
  }

  lemma CellAgreesIn(run: seq<State>, n: nat, p: nat, d: nat)
    requires IsRun(run) && n < |run| && Brief(run, n, d) && d + run[n].cfg.cap < WORD / 2 && Working(run[n], p)
    ensures Agrees(run[n], p)
  {
    RunHolds(run, n);
    CellsClose(run, n, p, d);
    var s, e := run[n], run[n].threads[p].at.todo[0];
    assert CellOk(s.cfg.ring, s.head, s.pushed, e.i % s.cfg.ring, CellOf(s.cells, e.i));
    CellTest(s.cells, e, s.cfg.cap, d);
  }

  lemma PushTests(s: State, p: nat, d: nat)
    requires At(s, p) && Close(s, p, d) && s.cfg.cap <= MAX_CAPACITY && d + s.cfg.cap < WORD / 2
    requires s.threads[p].at.PushHead? || s.threads[p].at.PushAgain? || s.threads[p].at.PushCas?
    ensures Agrees(s, p)
  {
    var t := s.threads[p].at.t;
    if s.threads[p].at.PushHead? { FullAgrees(s.cfg.cap, t, s.head); } else { SameAgrees(s.tail, t); }
  }

  lemma PopTests(s: State, p: nat, d: nat)
    requires At(s, p) && Close(s, p, d) && d + s.cfg.cap < WORD / 2
    requires s.threads[p].at.PopStore? || s.threads[p].at.PopCas? || s.threads[p].at.SizeAgain?
    ensures Agrees(s, p)
  {
    var at := s.threads[p].at;
    if at.PopStore? { SameAgrees(at.h, at.t); } else { SameAgrees(s.head, at.h); }
    if at.SizeAgain? { MinusIs(at.t, at.h); }
  }

  lemma PackedTests(s: State, p: nat, d: nat)
    requires At(s, p) && Close(s, p, d) && d + s.cfg.cap < WORD / 2 && s.head <= s.tail <= s.head + s.cfg.cap
    requires s.threads[p].at.Load? || s.threads[p].at.Cas?
    ensures Agrees(s, p)
  {
    var at := s.threads[p].at;
    MinusIs(s.tail, s.head);
    if at.Cas? { SameAgrees(s.head, at.h); SameAgrees(s.tail, at.t); }
  }

  lemma ReadAgreesIn(run: seq<State>, n: nat, p: nat, d: nat)
    requires IsRun(run) && n < |run| && Brief(run, n, d) && run[n].cfg.cap <= MAX_CAPACITY
    requires d + run[n].cfg.cap < WORD / 2
    requires At(run[n], p) && !run[n].threads[p].at.PopSeen? && !run[n].threads[p].at.Work?
    ensures Agrees(run[n], p)
  {
    RunHolds(run, n);
    ReadsClose(run, n, p, d);
    var at := run[n].threads[p].at;
    if at.PushHead? || at.PushAgain? || at.PushCas? { PushTests(run[n], p, d); }
    else if at.PopStore? || at.PopCas? || at.SizeAgain? { PopTests(run[n], p, d); }
    else if at.Load? || at.Cas? { PackedTests(run[n], p, d); }
  }

  /** In every run in which no counter goes up by more than d during one call,
      with d and the capacity together below half a word: every test made on
      32-bit tickets gives the answer of the unbounded ones. The bound is enough;
      that it is the least is not claimed. StaleCopyMisread is a run that fails
      with d two above it, at capacity one. */
  lemma TestsAgree(run: seq<State>, n: nat, p: nat, d: nat)
    requires IsRun(run) && n < |run| && Brief(run, n, d) && run[n].cfg.cap <= MAX_CAPACITY
    requires d + run[n].cfg.cap < WORD / 2
    ensures Agrees(run[n], p)
  {
    if At(run[n], p) {
      if run[n].threads[p].at.PopSeen? { SeenAgreesIn(run, n, p, d); }
      else if Working(run[n], p) { CellAgreesIn(run, n, p, d); }
      else if !run[n].threads[p].at.Work? { ReadAgreesIn(run, n, p, d); }
    }
  }

  // ------------------------------------------------- a call that is not brief

  ghost predicate Reachable(s: State) {
    exists run :: IsRun(run) && run[|run| - 1] == s
  }

  lemma Onward(s: State, s': State, p: nat)
    requires Reachable(s) && Step(s, s', p)
    ensures Reachable(s')
  {
    var run :| IsRun(run) && run[|run| - 1] == s;
    assert Next(s, s');
    assert IsRun(run + [s']);
  }

  // Room for one element.
  const SMALL := Config(1, 2, false, false, true, true)

  // Thread 0 is stalled, thread 1 at a point of a call, or idle; the counters,
  // and what is in the two cells: cell n % 2 has that sequence number, the other
  // is free for the ticket after n.
  ghost predicate Shape(s: State, stalled: Thread, h: nat, t: nat, seen: nat, here: Thread, n: nat, number: nat) {
    && s.cfg == SMALL && s.head == h && s.tail == t && s.seen == seen && s.threads == [stalled, here]
    && |s.cells| == 2 && s.cells[n % 2].number == number && s.cells[(n + 1) % 2].number == n + 1
  }

  function Pushing(e: Elem, at: Stage): Thread {
    Call(Push([e]), at, [], [])
  }

  function Popping(at: Stage, got: seq<Elem>, due: seq<Elem>): Thread {
    Call(Pop(1), at, got, due)
  }

  function With(s: State, t: Thread): State
    requires |s.threads| == 2
  {
    s.(threads := s.threads[1 := t])
  }

  lemma PushStarts(s: State, z: Thread, n: nat, e: Elem) returns (t: State)
    requires Reachable(s) && Shape(s, z, n, n, n, Idle, n, n)
    ensures Reachable(t) && Shape(t, z, n, n, n, Pushing(e, PushHead(n)), n, n)
  {
    var s1 := With(s, Pushing(e, PushTail));
    assert Begin(s, s1, 1, Push([e]));
    Onward(s, s1, 1);
    t := With(s, Pushing(e, PushHead(n)));
    assert PushReadTail(s1, t, 1);
    Onward(s1, t, 1);
  }

  lemma Claims(s: State, p: nat, h: nat, t: nat, todo: seq<Event>, added: seq<Elem>) returns (r: State)
    requires At(s, p)
    ensures TakeTickets(s, r, p, h, t, todo, added)
  {
    var fills := TicketsFilled(todo);
    var takes := TicketsTaken(todo);
    r := s.(head := h, tail := t, pushed := s.pushed + added,
            fills := s.fills + (map i | i in fills :: p),
            takes := s.takes + (map i | i in takes :: p),
            lost := if s.threads[p].op.Overrun? then s.lost + (map i | i in takes :: p) else s.lost,
            threads := s.threads[p := s.threads[p].(
              at := Work(todo, false),
              due := if s.threads[p].op.Pop? && s.head <= h <= |s.pushed| then s.pushed[s.head..h] else [])]);
  }

  lemma PushLooks(s: State, z: Thread, n: nat, e: Elem) returns (t: State)
    requires Reachable(s) && Shape(s, z, n, n, n, Pushing(e, PushHead(n)), n, n)
    ensures Reachable(t) && Shape(t, z, n, n, n, Pushing(e, PushCas(n, n)), n, n)
  {
    t := With(s, Pushing(e, PushCas(n, n)));
    assert PushReadHead(s, t, 1);
    Onward(s, t, 1);
  }

  lemma PushTakes(s: State, z: Thread, n: nat, e: Elem) returns (t: State)
    requires Reachable(s) && Shape(s, z, n, n, n, Pushing(e, PushCas(n, n)), n, n)
    ensures Reachable(t) && Shape(t, z, n, n + 1, n, Pushing(e, Work([Fill(n, e)], false)), n, n)
  {
    t := Claims(s, 1, n, n + 1, [Fill(n, e)], [e]);
    assert PushTicket(s, t, 1);
    Onward(s, t, 1);
  }

  lemma PushEnters(s: State, z: Thread, n: nat, e: Elem) returns (t: State)
    requires Reachable(s) && Shape(s, z, n, n + 1, n, Pushing(e, Work([Fill(n, e)], false)), n, n)
    ensures Reachable(t) && Shape(t, z, n, n + 1, n, Pushing(e, Work([Fill(n, e)], true)), n, n)
  {
    t := With(s, Pushing(e, Work([Fill(n, e)], true)));
    assert WorkEnter(s, t, 1);
    Onward(s, t, 1);
  }

  lemma PushFills(s: State, z: Thread, n: nat, e: Elem) returns (t: State)
    requires Reachable(s) && Shape(s, z, n, n + 1, n, Pushing(e, Work([Fill(n, e)], true)), n, n)
    ensures Reachable(t) && Shape(t, z, n, n + 1, n, Pushing(e, Work([], false)), n, n + 1)
    ensures t.cells[n % 2].val.Some?
  {
    t := With(s, Pushing(e, Work([], false))).(
      cells := s.cells[n % 2 := s.cells[n % 2].(number := n + 1, val := Some(e))], fills := s.fills - {n});
    assert [Fill(n, e)][1..] == [];
    assert WorkFill(s, t, 1);
    Onward(s, t, 1);
  }

  lemma PushThrough(s: State, z: Thread, n: nat, e: Elem) returns (t: State)
    requires Reachable(s) && Shape(s, z, n, n, n, Idle, n, n)
    ensures Reachable(t) && Shape(t, z, n, n + 1, n, Idle, n, n + 1) && t.cells[n % 2].val.Some?
  {
    var s1 := PushStarts(s, z, n, e);
    var s2 := PushLooks(s1, z, n, e);
    var s3 := PushTakes(s2, z, n, e);
    var s4 := PushEnters(s3, z, n, e);
    var s5 := PushFills(s4, z, n, e);
    t := With(s5, Idle);
    assert WorkReturn(s5, t, 1);
    Onward(s5, t, 1);
  }

  lemma PopStarts(s: State) returns (t: State)
    requires Reachable(s) && s.cfg == SMALL && |s.threads| == 2 && s.threads[1] == Idle
    ensures Reachable(t) && t == With(s, Popping(PopSeen(s.head), [], []))
  {
    var s1 := With(s, Popping(PopHead, [], []));
    assert Begin(s, s1, 1, Pop(1));
    Onward(s, s1, 1);
    t := With(s, Popping(PopSeen(s.head), [], []));
    assert PopReadHead(s1, t, 1);
    Onward(s1, t, 1);
  }

  lemma PopLooks(s: State, z: Thread, n: nat) returns (t: State)
    requires Reachable(s) && Shape(s, z, n, n + 1, n, Popping(PopSeen(n), [], []), n, n + 1)
    ensures Reachable(t) && t == With(s, Popping(PopStore(n, n + 1), [], []))
  {
    var s1 := With(s, Popping(PopTail(n), [], []));
    assert PopReadSeen(s, s1, 1);
    Onward(s, s1, 1);
    t := With(s, Popping(PopStore(n, n + 1), [], []));
    assert PopReadTail(s1, t, 1);
    Onward(s1, t, 1);
  }

  lemma PopRefreshes(s: State, z: Thread, n: nat) returns (t: State)
    requires Reachable(s) && Shape(s, z, n, n + 1, n, Popping(PopStore(n, n + 1), [], []), n, n + 1)
    ensures Reachable(t) && t == With(s, Popping(PopCas(n), [], [])).(seen := n + 1)
  {
    t := With(s, Popping(PopCas(n), [], [])).(seen := n + 1);
    assert PopRefresh(s, t, 1);
    Onward(s, t, 1);
  }

  lemma PopTakes(s: State, z: Thread, n: nat) returns (t: State, due: seq<Elem>)
    requires Reachable(s) && Shape(s, z, n, n + 1, n + 1, Popping(PopCas(n), [], []), n, n + 1)
    ensures Reachable(t) && Shape(t, z, n + 1, n + 1, n + 1, Popping(Work([Take(n)], false), [], due), n, n + 1)
    ensures t.cells == s.cells
  {
    t := Claims(s, 1, n + 1, n + 1, [Take(n)], []);
    due := t.threads[1].due;
    assert PopTicket(s, t, 1);
    Onward(s, t, 1);
  }

  lemma PopEnters(s: State, z: Thread, n: nat, due: seq<Elem>) returns (t: State)
    requires Reachable(s) && Shape(s, z, n + 1, n + 1, n + 1, Popping(Work([Take(n)], false), [], due), n, n + 1)
    ensures Reachable(t) && t == With(s, Popping(Work([Take(n)], true), [], due))
  {
    t := With(s, Popping(Work([Take(n)], true), [], due));
    assert WorkEnter(s, t, 1);
    Onward(s, t, 1);
  }

  lemma PopEmpties(s: State, z: Thread, n: nat, due: seq<Elem>) returns (t: State, got: seq<Elem>)
    requires Reachable(s) && Shape(s, z, n + 1, n + 1, n + 1, Popping(Work([Take(n)], true), [], due), n, n + 1)
    requires s.cells[n % 2].val.Some?
    ensures Reachable(t) && Shape(t, z, n + 1, n + 1, n + 1, Popping(Work([], false), got, due), n + 1, n + 1)
  {
    var e := s.cells[n % 2].val.value;
    got := [] + [e];
    t := With(s, Popping(Work([], false), got, due)).(
      cells := s.cells[n % 2 := Cell(n + 2, None, n + 2)], takes := s.takes - {n}, delivered := s.delivered[n := e]);
    assert [Take(n)][1..] == [];
    assert WorkTake(s, t, 1);
    Onward(s, t, 1);
  }

  lemma PopThrough(s: State, z: Thread, n: nat) returns (t: State)
    requires Reachable(s) && Shape(s, z, n, n + 1, n, Idle, n, n + 1) && s.cells[n % 2].val.Some?
    ensures Reachable(t) && Shape(t, z, n + 1, n + 1, n + 1, Idle, n + 1, n + 1)
  {
    var s1 := PopStarts(s);
    var s2 := PopLooks(s1, z, n);
    var s3 := PopRefreshes(s2, z, n);
    var s4, due := PopTakes(s3, z, n);
    var s5 := PopEnters(s4, z, n, due);
    var s6, got := PopEmpties(s5, z, n, due);
    t := With(s6, Idle);
    assert WorkReturn(s6, t, 1);
    Onward(s6, t, 1);
  }

  ghost predicate Initial(s: State) {
    Init(s) && s.cfg == SMALL && s.threads == [Idle, Idle] && |s.cells| == 2 && s.cells[0].number == 0
      && s.cells[1].number == 1
  }

  lemma Starts() returns (s: State)
    ensures Initial(s) && Reachable(s)
  {
    s := State(SMALL, 0, 0, 0, [Cell(0, None, 0), Cell(1, None, 1)], [Idle, Idle], 0, [], map[], map[], map[], map[],
      {}, []);
    assert IsRun([s]);
  }

  // A pop has found the queue empty and is about to store the copy of tail it
  // read, 0.
  lemma PopStalls() returns (t: State)
    ensures Reachable(t) && Shape(t, Popping(PopStore(0, 0), [], []), 0, 0, 0, Idle, 0, 0)
  {
    var s := Starts();
    var s1 := s.(threads := [Popping(PopHead, [], []), Idle]);
    assert Begin(s, s1, 0, Pop(1));
    Onward(s, s1, 0);
    var s2 := s.(threads := [Popping(PopSeen(0), [], []), Idle]);
    assert PopReadHead(s1, s2, 0);
    Onward(s1, s2, 0);
    t := PopStallsThen(s, s2);
  }

  lemma PopStallsThen(s0: State, s: State) returns (t: State)
    requires Initial(s0) && Reachable(s) && s == s0.(threads := [Popping(PopSeen(0), [], []), Idle])
    ensures Reachable(t) && Shape(t, Popping(PopStore(0, 0), [], []), 0, 0, 0, Idle, 0, 0)
  {
    var s1 := s.(threads := [Popping(PopTail(0), [], []), Idle]);
    assert PopReadSeen(s, s1, 0);
    Onward(s, s1, 0);
    t := s.(threads := [Popping(PopStore(0, 0), [], []), Idle]);
    assert PopReadTail(s1, t, 0);
    Onward(s1, t, 0);
  }

  // A push has read tail, 0, and is about to read head.
  lemma PushStalls(e: Elem) returns (t: State)
    ensures Reachable(t) && Shape(t, Pushing(e, PushHead(0)), 0, 0, 0, Idle, 0, 0)
  {
    var s := Starts();
    var s1 := s.(threads := [Pushing(e, PushTail), Idle]);
    assert Begin(s, s1, 0, Push([e]));
    Onward(s, s1, 0);
    t := s.(threads := [Pushing(e, PushHead(0)), Idle]);
    assert PushReadTail(s1, t, 0);
    Onward(s1, t, 0);
  }

  // Thread 1 puts n elements through the queue in the meantime.
  lemma {:induction false} GoesThrough(s: State, z: Thread, n: nat, e: Elem) returns (t: State)
    requires Reachable(s) && Shape(s, z, 0, 0, 0, Idle, 0, 0)
    ensures Reachable(t) && Shape(t, z, n, n, n, Idle, n, n)
  {
    if n == 0 {
      t := s;
    } else {
      var r := GoesThrough(s, z, n - 1, e);
      var r' := PushThrough(r, z, n - 1, e);
      t := PopThrough(r', z, n - 1);
    }
  }

  /** The copy can be any distance behind: for every n there is a run in which a
      pop about to test it has read head n of an empty queue, while the copy is
      0, because another pop was slow to store it. */
  lemma StaleCopy(n: nat, e: Elem) returns (t: State)
    ensures Reachable(t) && t.head == n && t.tail == n && t.seen == 0 && At(t, 1) && t.threads[1].at == PopSeen(n)
  {
    var s0 := PopStalls();
    var s := GoesThrough(s0, Popping(PopStore(0, 0), [], []), n, e);
    var s1 := s.(seen := 0, threads := [Idle, Idle]);
    assert PopRefuse(s, s1, 0);
    Onward(s, s1, 0);
    t := PopStarts(s1);
  }

  /** So when half a word and one elements pass during that call, the test on
      32-bit tickets goes wrong: the pop goes on to take a ticket of an empty
      queue. */
  lemma StaleCopyMisread(e: Elem) returns (t: State)
    ensures Reachable(t) && t.head == t.tail && At(t, 1) && t.threads[1].at == PopSeen(t.head)
    ensures Signed(Minus(Wrap(t.seen), Wrap(t.head))) > 0 && !Agrees(t, 1)
  {
    t := StaleCopy(WORD / 2 + 1, e);
    SeenFailsBehind(0);
  }

  /** And when a word of elements, at capacity one, passes between the two reads
      of a push, its fullness test goes wrong: the tail it read is long past, and
      it reads as one with room. */
  lemma StaleTailMisread(e: Elem) returns (t: State)
    ensures Reachable(t) && At(t, 0) && t.threads[0].at.PushHead? && LooksFull(t.cfg.cap, t.threads[0].at.t, t.head)
    ensures Minus(Wrap(t.threads[0].at.t), Wrap(t.head)) < t.cfg.cap && !Agrees(t, 0)
  {
    var s := PushStalls(e);
    t := GoesThrough(s, Pushing(e, PushHead(0)), WORD, e);
    FullFailsBehind(1, 0);
  }
}
