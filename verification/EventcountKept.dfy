/** Every step of the eventcount's machine keeps its invariant, one side at a
    time, so it holds in every state of every run. */
module EventcountKept {
  import opened Eventcount

  lemma {:induction false} NobodyCounts(ts: seq<Thread>, k: Kind, d: Side)
    requires forall p :: 0 <= p < |ts| ==> Measure(k, d, ts[p]) == 0
    ensures Total(ts, k, d) == 0
  {
    if ts != [] { NobodyCounts(ts[..|ts| - 1], k, d); }
  }

  lemma InitHolds(s: State)
    requires Init(s)
    ensures Inv(s)
  {
    NobodyCounts(s.threads, Announced, Elements);
    NobodyCounts(s.threads, Announced, Room);
  }

  // ------------------------------------------------- steps keep the invariant

  lemma Deltas(ts: seq<Thread>, p: nat, t: Thread, d: Side)
    requires p < |ts|
    ensures forall k :: Total(ts[p := t], k, d) == Total(ts, k, d) - Measure(k, d, ts[p]) + Measure(k, d, t)
    ensures forall k, q :: 0 <= q < |ts| ==> Measure(k, d, ts[q]) <= Total(ts, k, d)
  {
    forall k ensures Total(ts[p := t], k, d) == Total(ts, k, d) - Measure(k, d, ts[p]) + Measure(k, d, t) {
      TotalUpdate(ts, p, t, k, d);
    }
    forall k, q | 0 <= q < |ts| ensures Measure(k, d, ts[q]) <= Total(ts, k, d) {
      TotalUpdate(ts, q, t, k, d);
    }
  }

  ghost predicate NobodyElse(ts: seq<Thread>, p: nat, d: Side) {
    forall q :: 0 <= q < |ts| && q != p ==> !Sleeps(ts[q], d)
  }

  function Change(k: Kind, d: Side, a: Thread, b: Thread): int {
    Measure(k, d, b) - Measure(k, d, a)
  }

  // A step of thread p, to t, that changes the waiter of side d from w to w':
  // what it must do for the threads asleep and about to sleep there.
  ghost predicate Fair(w: Waiter, w': Waiter, d: Side, ts: seq<Thread>, p: nat, t: Thread)
    requires p < |ts|
  {
    && w'.waiters - w.waiters == Change(Announced, d, ts[p], t) && w.epoch <= w'.epoch
    && (|| NobodyElse(ts, p, d)
        || (&& (w'.avail == 0 || w'.avail - w.avail <= Change(Pending, d, ts[p], t) + Change(Bound, d, ts[p], t))
            && (w'.closed ==> (w.closed && Change(Closing, d, ts[p], t) >= 0) || Measure(Closing, d, t) > 0)))
    && (|| w.epoch < w'.epoch
        || (w.waiters == 0 && w'.waiters == 0)
        || (&& (w'.avail == 0 || w'.avail - w.avail <= Change(Early, d, ts[p], t) + Change(Bound, d, ts[p], t))
            && (w'.closed ==> (w.closed && Change(EarlyClose, d, ts[p], t) >= 0) || Measure(EarlyClose, d, t) > 0)))
  }

  lemma SideKeeps(w: Waiter, w': Waiter, d: Side, ts: seq<Thread>, p: nat, t: Thread)
    requires SideOk(w, d, ts) && p < |ts| && ThreadOk(w', d, ts[p := t], t) && Fair(w, w', d, ts, p, t)
    ensures SideOk(w', d, ts[p := t])
  {
    Deltas(ts, p, t, d);
    forall q | 0 <= q < |ts| && q != p ensures ThreadOk(w', d, ts[p := t], ts[q]) {
      assert ThreadOk(w, d, ts, ts[q]);
      if AboutTo(ts[q], d, w'.epoch) || SawOpen(ts[q], d, w'.epoch) {
        assert Measure(Announced, d, ts[q]) == 1;
      }
    }
  }

  lemma {:induction false} EarlyIsPending(ts: seq<Thread>, d: Side)
    ensures Total(ts, Early, d) <= Total(ts, Pending, d) && Total(ts, EarlyClose, d) <= Total(ts, Closing, d)
  {
    if ts != [] { EarlyIsPending(ts[..|ts| - 1], d); }
  }

  lemma NobodyAnnounced(ts: seq<Thread>, d: Side)
    requires Total(ts, Announced, d) == 0
    ensures forall q :: 0 <= q < |ts| ==> !Sleeps(ts[q], d)
  {
    forall q | 0 <= q < |ts| ensures !Sleeps(ts[q], d) {
      TotalUpdate(ts, q, Idle, Announced, d);
    }
  }

  lemma ReadClosedFair(s: State, s': State, p: nat, d: Side)
    requires ReadClosed(s, s', p)
    ensures Fair(Get(s, d), Get(s', d), d, s.threads, p, s'.threads[p])
  {}

  lemma ReadClosedSide(s: State, s': State, p: nat, d: Side)
    requires SideOk(Get(s, d), d, s.threads) && ReadClosed(s, s', p)
    ensures SideOk(Get(s', d), d, s'.threads)
  {
    assert ThreadOk(Get(s, d), d, s.threads, s.threads[p]);
    ReadClosedFair(s, s', p, d);
    SideKeeps(Get(s, d), Get(s', d), d, s.threads, p, s'.threads[p]);
  }

  lemma FoundChanges(d: Side, a: Thread, b: Thread, e: Side, w: nat)
    requires a.Call? && b.Call? && b.op == a.op && (a.op.Move? || a.op.Peek?)
    requires (a.at.Look1? && b.at == Notify(e, w)) || (a.at.Look2? && b.at == Cancel(Then(e, w)))
    ensures Change(Announced, d, a, b) == 0 && Change(Closing, d, a, b) == 0 && Change(EarlyClose, d, a, b) == 0
    ensures Change(Bound, d, a, b) == if d == a.op.d then -1 else 0
    ensures Change(Pending, d, a, b) == if d == e then w else 0
    ensures Change(Early, d, a, b) == if d == e then w else 0
  {}

  lemma LookFindsFair(s: State, s': State, p: nat, d: Side)
    requires LookFinds(s, s', p) && StageOk(s.threads[p])
    ensures Fair(Get(s, d), Get(s', d), d, s.threads, p, s'.threads[p])
  {
    var due := Due(s, s.threads[p].op);
    FoundChanges(d, s.threads[p], s'.threads[p], due.d, due.w);
  }

  lemma LookFindsSide(s: State, s': State, p: nat, d: Side)
    requires SideOk(Get(s, d), d, s.threads) && LookFinds(s, s', p)
    ensures SideOk(Get(s', d), d, s'.threads)
  {
    assert ThreadOk(Get(s, d), d, s.threads, s.threads[p]);
    LookFindsFair(s, s', p, d);
    SideKeeps(Get(s, d), Get(s', d), d, s.threads, p, s'.threads[p]);
  }

  // The last look has failed: nothing is available, and a close since the key
  // was read has not yet bumped the epoch.
  lemma LookFailsOwn(w: Waiter, d: Side, ts: seq<Thread>, p: nat, t: Thread)
    requires p < |ts| && ThreadOk(w, d, ts, ts[p]) && ts[p].Call? && StageOk(t)
    requires t.Call? && t.op == ts[p].op && (t.op.Move? || t.op.Peek?) && (t.op.d == d ==> w.avail == 0)
    requires ts[p].at.Look1? ==> t.at.Prepare? || t.at.Done?
    requires ts[p].at.Look1? || ts[p].at.Look2?
    requires ts[p].at.Look2? ==> if ts[p].at.c then t.at == Cancel(Finished) else t.at == Check(ts[p].at.key)
    ensures ThreadOk(w, d, ts[p := t], t)
  {
    TotalUpdate(ts, p, t, EarlyClose, d);
    if ts[p].at.Look2? && !ts[p].at.c {
      assert AboutTo(t, d, w.epoch) ==> SawOpen(ts[p], d, w.epoch);
    }
  }

  lemma FailedChanges(d: Side, a: Thread, b: Thread)
    requires a.Call? && b.Call? && b.op == a.op && (a.op.Move? || a.op.Peek?)
    requires
      || (a.at.Look1? && (b.at.Prepare? || b.at.Done?))
      || (a.at.Look2? && (b.at == Cancel(Finished) || b.at.Check?))
    ensures Change(Announced, d, a, b) == 0 && Change(Closing, d, a, b) == 0 && Change(EarlyClose, d, a, b) == 0
    ensures Change(Pending, d, a, b) == 0 && Change(Early, d, a, b) == 0
    ensures d != a.op.d ==> Change(Bound, d, a, b) == 0
  {}

  lemma LookFailsFair(s: State, s': State, p: nat, d: Side)
    requires LookFails(s, s', p)
    ensures Fair(Get(s, d), Get(s', d), d, s.threads, p, s'.threads[p])
  {
    FailedChanges(d, s.threads[p], s'.threads[p]);
  }

  lemma LookFailsSide(s: State, s': State, p: nat, d: Side)
    requires SideOk(Get(s, d), d, s.threads) && LookFails(s, s', p)
    ensures SideOk(Get(s', d), d, s'.threads)
  {
    assert ThreadOk(Get(s, d), d, s.threads, s.threads[p]);
    LookFailsOwn(Get(s, d), d, s.threads, p, s'.threads[p]);
    LookFailsFair(s, s', p, d);
    SideKeeps(Get(s, d), Get(s', d), d, s.threads, p, s'.threads[p]);
  }

  lemma SpinAgainSide(s: State, s': State, p: nat, d: Side)
    requires SideOk(Get(s, d), d, s.threads) && SpinAgain(s, s', p)
    ensures SideOk(Get(s', d), d, s'.threads)
  {
    assert ThreadOk(Get(s, d), d, s.threads, s.threads[p]);
    SideKeeps(Get(s, d), Get(s', d), d, s.threads, p, s'.threads[p]);
  }

  lemma AnnouncedChanges(d: Side, a: Thread, b: Thread)
    requires a.Call? && b.Call? && b.op == a.op && (a.op.Move? || a.op.Peek?) && a.at.Prepare? && b.at.ReadKey?
    ensures Change(Announced, d, a, b) == if d == a.op.d then 1 else 0
    ensures Change(Closing, d, a, b) == 0 && Change(EarlyClose, d, a, b) == 0
    ensures Change(Bound, d, a, b) == 0 && Change(Pending, d, a, b) == 0 && Change(Early, d, a, b) == 0
  {}

  lemma AnnounceFair(s: State, s': State, p: nat, d: Side)
    requires Announce(s, s', p)
    ensures Fair(Get(s, d), Get(s', d), d, s.threads, p, s'.threads[p])
  {
    AnnouncedChanges(d, s.threads[p], s'.threads[p]);
  }

  lemma AnnounceSide(s: State, s': State, p: nat, d: Side)
    requires SideOk(Get(s, d), d, s.threads) && Announce(s, s', p)
    ensures SideOk(Get(s', d), d, s'.threads)
  {
    assert ThreadOk(Get(s, d), d, s.threads, s.threads[p]);
    AnnounceFair(s, s', p, d);
    SideKeeps(Get(s, d), Get(s', d), d, s.threads, p, s'.threads[p]);
  }

  lemma TakeKeySide(s: State, s': State, p: nat, d: Side)
    requires SideOk(Get(s, d), d, s.threads) && TakeKey(s, s', p)
    ensures SideOk(Get(s', d), d, s'.threads)
  {
    assert ThreadOk(Get(s, d), d, s.threads, s.threads[p]);
    SideKeeps(Get(s, d), Get(s', d), d, s.threads, p, s'.threads[p]);
  }

  lemma TotalsSame(ts: seq<Thread>, p: nat, t: Thread, d: Side)
    requires p < |ts| && forall k :: Measure(k, d, t) == Measure(k, d, ts[p])
    ensures forall k :: Total(ts[p := t], k, d) == Total(ts, k, d)
  {
    Deltas(ts, p, t, d);
  }

  // The key is the epoch still: what held of a thread about to sleep holds of
  // one asleep.
  lemma CompareOwn(w: Waiter, d: Side, ts: seq<Thread>, p: nat, t: Thread)
    requires p < |ts| && ThreadOk(w, d, ts, ts[p]) && ts[p].Call? && (ts[p].at.Check? || ts[p].at.Futex?)
    requires t.Call? && t.op == ts[p].op
    requires
      || t.at == Cancel(Again)
      || (ts[p].at.Check? && t.at == Futex(ts[p].at.key))
      || (ts[p].at.Futex? && t.at == Asleep && (t.op.d == d ==> ts[p].at.key == w.epoch))
    requires t.op.Move? || t.op.Peek?
    ensures ThreadOk(w, d, ts[p := t], t)
  {
    EarlyIsPending(ts, d);
    if t.at != Cancel(Again) {
      TotalsSame(ts, p, t, d);
    }
  }

  lemma CompareKeyFair(s: State, s': State, p: nat, d: Side)
    requires CompareKey(s, s', p)
    ensures Fair(Get(s, d), Get(s', d), d, s.threads, p, s'.threads[p])
  {}

  lemma CompareKeySide(s: State, s': State, p: nat, d: Side)
    requires SideOk(Get(s, d), d, s.threads) && CompareKey(s, s', p)
    ensures SideOk(Get(s', d), d, s'.threads)
  {
    assert ThreadOk(Get(s, d), d, s.threads, s.threads[p]);
    CompareOwn(Get(s, d), d, s.threads, p, s'.threads[p]);
    CompareKeyFair(s, s', p, d);
    SideKeeps(Get(s, d), Get(s', d), d, s.threads, p, s'.threads[p]);
  }

  lemma WakeUnaskedSide(s: State, s': State, p: nat, d: Side)
    requires SideOk(Get(s, d), d, s.threads) && WakeUnasked(s, s', p)
    ensures SideOk(Get(s', d), d, s'.threads)
  {
    assert ThreadOk(Get(s, d), d, s.threads, s.threads[p]);
    SideKeeps(Get(s, d), Get(s', d), d, s.threads, p, s'.threads[p]);
  }

  lemma CountedOutChanges(d: Side, a: Thread, b: Thread)
    requires a.Call? && b.Call? && b.op == a.op && (a.op.Move? || a.op.Peek?) && a.at.Cancel?
    requires b.at == match a.at.next case Again => Closed1 case Then(e, w) => Notify(e, w) case Finished => Done(false)
    ensures Change(Announced, d, a, b) == if d == a.op.d then -1 else 0
    ensures Change(Closing, d, a, b) == 0 && Change(EarlyClose, d, a, b) == 0
    ensures Change(Bound, d, a, b) == 0 && Change(Pending, d, a, b) == 0 && Change(Early, d, a, b) == 0
  {}

  lemma CountOutFair(s: State, s': State, p: nat, d: Side)
    requires CountOut(s, s', p)
    ensures Fair(Get(s, d), Get(s', d), d, s.threads, p, s'.threads[p])
  {
    CountedOutChanges(d, s.threads[p], s'.threads[p]);
  }

  lemma CountOutSide(s: State, s': State, p: nat, d: Side)
    requires SideOk(Get(s, d), d, s.threads) && CountOut(s, s', p)
    ensures SideOk(Get(s', d), d, s'.threads)
  {
    assert ThreadOk(Get(s, d), d, s.threads, s.threads[p]);
    CountOutFair(s, s', p, d);
    SideKeeps(Get(s, d), Get(s', d), d, s.threads, p, s'.threads[p]);
  }

  lemma ReadWaitersFair(s: State, s': State, p: nat, d: Side)
    requires ReadWaiters(s, s', p) && SideOk(Get(s, d), d, s.threads)
    ensures Fair(Get(s, d), Get(s', d), d, s.threads, p, s'.threads[p])
  {
    if Get(s, d).waiters == 0 { NobodyAnnounced(s.threads, d); }
    NotifyChanges(d, s.threads[p], s'.threads[p]);
    NotifyChangesRest(d, s.threads[p], s'.threads[p]);
  }

  // notify found somebody or not: what is due stays due, unless none is.
  lemma NotifyChangesRest(d: Side, a: Thread, b: Thread)
    requires a.Call? && b.Call? && b.op == a.op && a.at.Notify? && (b.at == Done(true) || b.at == Bump(a.at.d, a.at.w))
    ensures Change(Announced, d, a, b) == 0 && Change(Bound, d, a, b) == 0
    ensures Change(Closing, d, a, b) == 0 && Change(EarlyClose, d, a, b) == 0
  {}

  lemma NotifyChanges(d: Side, a: Thread, b: Thread)
    requires a.Call? && b.Call? && b.op == a.op && a.at.Notify? && (b.at == Done(true) || b.at == Bump(a.at.d, a.at.w))
    ensures b.at.Bump? || d != a.at.d ==> Change(Pending, d, a, b) == 0 && Change(Early, d, a, b) == 0
    ensures b.at.Done? && d == a.at.d ==> Change(Pending, d, a, b) == 0 - a.at.w && Change(Early, d, a, b) == 0 - a.at.w
  {}

  lemma ReadWaitersSide(s: State, s': State, p: nat, d: Side)
    requires SideOk(Get(s, d), d, s.threads) && ReadWaiters(s, s', p)
    ensures SideOk(Get(s', d), d, s'.threads)
  {
    assert ThreadOk(Get(s, d), d, s.threads, s.threads[p]);
    ReadWaitersFair(s, s', p, d);
    SideKeeps(Get(s, d), Get(s', d), d, s.threads, p, s'.threads[p]);
  }

  lemma BumpEpochFair(s: State, s': State, p: nat, d: Side)
    requires BumpEpoch(s, s', p)
    ensures Fair(Get(s, d), Get(s', d), d, s.threads, p, s'.threads[p])
  {}

  lemma BumpEpochSide(s: State, s': State, p: nat, d: Side)
    requires SideOk(Get(s, d), d, s.threads) && BumpEpoch(s, s', p)
    ensures SideOk(Get(s', d), d, s'.threads)
  {
    assert ThreadOk(Get(s, d), d, s.threads, s.threads[p]);
    BumpEpochFair(s, s', p, d);
    SideKeeps(Get(s, d), Get(s', d), d, s.threads, p, s'.threads[p]);
  }

  lemma WakeEndFair(s: State, s': State, p: nat, d: Side)
    requires WakeEnd(s, s', p)
    ensures Fair(Get(s, d), Get(s', d), d, s.threads, p, s'.threads[p])
  {
    assert forall q: nat :: q < |s.threads| && Sleeps(s.threads[q], d) ==> IsAsleep(s, d, q);
  }

  lemma WakeEndSide(s: State, s': State, p: nat, d: Side)
    requires SideOk(Get(s, d), d, s.threads) && WakeEnd(s, s', p)
    ensures SideOk(Get(s', d), d, s'.threads)
  {
    assert ThreadOk(Get(s, d), d, s.threads, s.threads[p]);
    WakeEndFair(s, s', p, d);
    SideKeeps(Get(s, d), Get(s', d), d, s.threads, p, s'.threads[p]);
  }

  lemma StoreClosedSide(s: State, s': State, p: nat, d: Side)
    requires SideOk(Get(s, d), d, s.threads) && StoreClosed(s, s', p)
    ensures SideOk(Get(s', d), d, s'.threads)
  {
    assert ThreadOk(Get(s, d), d, s.threads, s.threads[p]);
    SideKeeps(Get(s, d), Get(s', d), d, s.threads, p, s'.threads[p]);
  }

  lemma ClosedChanges(d: Side, a: Thread, b: Thread)
    requires a.Call? && b.Call? && b.op == a.op && a.op.Close? && a.at.CloseBump? && b.at.CloseWake?
    ensures Change(Announced, d, a, b) == 0 && Change(Closing, d, a, b) == 0 && Change(Bound, d, a, b) == 0
    ensures Change(Pending, d, a, b) == 0 && Change(Early, d, a, b) == 0
    ensures d != a.op.d ==> Change(EarlyClose, d, a, b) == 0
  {}

  lemma BumpClosedFair(s: State, s': State, p: nat, d: Side)
    requires BumpClosed(s, s', p)
    ensures Fair(Get(s, d), Get(s', d), d, s.threads, p, s'.threads[p])
  {
    ClosedChanges(d, s.threads[p], s'.threads[p]);
  }

  lemma BumpClosedSide(s: State, s': State, p: nat, d: Side)
    requires SideOk(Get(s, d), d, s.threads) && BumpClosed(s, s', p)
    ensures SideOk(Get(s', d), d, s'.threads)
  {
    assert ThreadOk(Get(s, d), d, s.threads, s.threads[p]);
    BumpClosedFair(s, s', p, d);
    SideKeeps(Get(s, d), Get(s', d), d, s.threads, p, s'.threads[p]);
  }

  lemma CloseEndFair(s: State, s': State, p: nat, d: Side)
    requires CloseEnd(s, s', p)
    ensures Fair(Get(s, d), Get(s', d), d, s.threads, p, s'.threads[p])
  {
    assert forall q: nat :: q < |s.threads| && Sleeps(s.threads[q], d) ==> IsAsleep(s, d, q);
  }

  lemma CloseEndSide(s: State, s': State, p: nat, d: Side)
    requires SideOk(Get(s, d), d, s.threads) && CloseEnd(s, s', p)
    ensures SideOk(Get(s', d), d, s'.threads)
  {
    assert ThreadOk(Get(s, d), d, s.threads, s.threads[p]);
    CloseEndFair(s, s', p, d);
    SideKeeps(Get(s, d), Get(s', d), d, s.threads, p, s'.threads[p]);
  }

  lemma ReturnSide(s: State, s': State, p: nat, d: Side)
    requires SideOk(Get(s, d), d, s.threads) && Return(s, s', p)
    ensures SideOk(Get(s', d), d, s'.threads)
  {
    assert ThreadOk(Get(s, d), d, s.threads, s.threads[p]);
    SideKeeps(Get(s, d), Get(s', d), d, s.threads, p, s'.threads[p]);
  }

  lemma BeginSide(s: State, s': State, p: nat, op: Op, d: Side)
    requires SideOk(Get(s, d), d, s.threads) && Begin(s, s', p, op)
    ensures SideOk(Get(s', d), d, s'.threads)
  {
    SideKeeps(Get(s, d), Get(s', d), d, s.threads, p, s'.threads[p]);
  }

  // A sleeper woken: it will look, so one more may be available.
  lemma Woken(w: Waiter, d: Side, ts: seq<Thread>, q: nat, more: nat)
    requires SideOk(w, d, ts) && q < |ts| && ts[q].Call? && ts[q].at.Asleep?
    requires more <= Change(Bound, d, ts[q], ts[q].(at := Cancel(Again)))
    ensures SideOk(w.(avail := w.avail + more), d, ts[q := ts[q].(at := Cancel(Again))])
  {
    assert ThreadOk(w, d, ts, ts[q]);
    SideKeeps(w, w.(avail := w.avail + more), d, ts, q, ts[q].(at := Cancel(Again)));
  }

  // One fewer available, and one fewer to wake.
  lemma WokeOne(w: Waiter, d: Side, ts: seq<Thread>, p: nat, less: nat)
    requires SideOk(w, d, ts) && p < |ts| && ts[p].Call? && ts[p].at.Wake? && ts[p].at.w > 0
    requires less <= w.avail && less == if ts[p].at.d == d then 1 else 0
    ensures SideOk(w.(avail := w.avail - less), d, ts[p := ts[p].(at := Wake(ts[p].at.d, ts[p].at.w - 1))])
  {
    assert ThreadOk(w, d, ts, ts[p]);
    SideKeeps(w, w.(avail := w.avail - less), d, ts, p, ts[p].(at := Wake(ts[p].at.d, ts[p].at.w - 1)));
  }

  lemma WakeOneSide(s: State, s': State, p: nat, q: nat, d: Side)
    requires SideOk(Get(s, d), d, s.threads) && WakeOne(s, s', p, q)
    ensures SideOk(Get(s', d), d, s'.threads)
  {
    var w, one := Get(s, d), if s.threads[p].at.d == d then 1 else 0;
    Woken(w, d, s.threads, q, one);
    WokeOne(w.(avail := w.avail + one), d, s.threads[q := s.threads[q].(at := Cancel(Again))], p, one);
  }

  lemma WakeClosedSide(s: State, s': State, p: nat, q: nat, d: Side)
    requires SideOk(Get(s, d), d, s.threads) && WakeClosed(s, s', p, q)
    ensures SideOk(Get(s', d), d, s'.threads)
  {
    Woken(Get(s, d), d, s.threads, q, 0);
  }

  lemma WaitSide(s: State, s': State, p: nat, d: Side)
    requires SideOk(Get(s, d), d, s.threads) && WaitStep(s, s', p)
    ensures SideOk(Get(s', d), d, s'.threads)
  {
    if {
      case ReadClosed(s, s', p) => ReadClosedSide(s, s', p, d);
      case LookFinds(s, s', p) => LookFindsSide(s, s', p, d);
      case LookFails(s, s', p) => LookFailsSide(s, s', p, d);
      case SpinAgain(s, s', p) => SpinAgainSide(s, s', p, d);
      case Announce(s, s', p) => AnnounceSide(s, s', p, d);
      case TakeKey(s, s', p) => TakeKeySide(s, s', p, d);
      case CompareKey(s, s', p) => CompareKeySide(s, s', p, d);
      case WakeUnasked(s, s', p) => WakeUnaskedSide(s, s', p, d);
      case CountOut(s, s', p) => CountOutSide(s, s', p, d);
    }
  }

  lemma NotifySide(s: State, s': State, p: nat, d: Side)
    requires SideOk(Get(s, d), d, s.threads) && NotifyStep(s, s', p)
    ensures SideOk(Get(s', d), d, s'.threads)
  {
    if {
      case ReadWaiters(s, s', p) => ReadWaitersSide(s, s', p, d);
      case BumpEpoch(s, s', p) => BumpEpochSide(s, s', p, d);
      case WakeEnd(s, s', p) => WakeEndSide(s, s', p, d);
      case StoreClosed(s, s', p) => StoreClosedSide(s, s', p, d);
      case BumpClosed(s, s', p) => BumpClosedSide(s, s', p, d);
      case CloseEnd(s, s', p) => CloseEndSide(s, s', p, d);
      case Return(s, s', p) => ReturnSide(s, s', p, d);
    }
  }

  lemma StepSide(s: State, s': State, p: nat, d: Side)
    requires SideOk(Get(s, d), d, s.threads) && Step(s, s', p)
    ensures SideOk(Get(s', d), d, s'.threads)
  {
    if {
      case exists op :: Begin(s, s', p, op) =>
        var op :| Begin(s, s', p, op);
        BeginSide(s, s', p, op, d);
      case WaitStep(s, s', p) => WaitSide(s, s', p, d);
      case NotifyStep(s, s', p) => NotifySide(s, s', p, d);
      case exists q: nat :: WakeOne(s, s', p, q) || WakeClosed(s, s', p, q) =>
        var q: nat :| WakeOne(s, s', p, q) || WakeClosed(s, s', p, q);
        if WakeOne(s, s', p, q) { WakeOneSide(s, s', p, q, d); } else { WakeClosedSide(s, s', p, q, d); }
    }
  }

  // What is on the two sides of a bounded queue adds up to its capacity; a
  // side that is closed stays closed.
  // Elements and room stay the same together, and a side stays closed.
  ghost predicate Stays(s: State, s': State) {
    && s'.cap == s.cap
    && (s.cap >= 0 ==> s'.elements.avail + s'.room.avail == s.elements.avail + s.room.avail)
    && forall d: Side :: Get(s, d).closed ==> Get(s', d).closed
  }

  lemma WaitStays(s: State, s': State, p: nat)
    requires WaitStep(s, s', p)
    ensures Stays(s, s')
  {}

  lemma NotifyStays(s: State, s': State, p: nat)
    requires NotifyStep(s, s', p)
    ensures Stays(s, s')
  {}

  lemma StepTotals(s: State, s': State, p: nat)
    requires Step(s, s', p)
    ensures Stays(s, s')
  {
    if WaitStep(s, s', p) { WaitStays(s, s', p); } else if NotifyStep(s, s', p) { NotifyStays(s, s', p); }
  }

  lemma {:induction false} RunHolds(run: seq<State>, i: nat)
    requires IsRun(run) && i < |run|
    ensures Inv(run[i])
    ensures run[i].cap >= 0 ==> run[i].elements.avail + run[i].room.avail == run[i].cap
  {
    if i == 0 {
      InitHolds(run[0]);
    } else {
      RunHolds(run, i - 1);
      assert Next(run[i - 1], run[i]);
      var p: nat :| Step(run[i - 1], run[i], p);
      StepTotals(run[i - 1], run[i], p);
      StepSide(run[i - 1], run[i], p, Elements);
      StepSide(run[i - 1], run[i], p, Room);
    }
  }
}
