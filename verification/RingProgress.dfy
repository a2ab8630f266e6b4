/** An operation of the bounded ring that runs alone gets its tickets or its
    answer: from every state of every run, wherever it is and however stale what
    it has read, a few steps of its own lead there. */
module RingProgress {
  import opened BoundedRing
  import TicketRuns

  // It has its tickets, or has returned.
  ghost predicate Settled(s: State, p: nat) {
    p < |s.threads| && (s.threads[p].Idle? || s.threads[p].at.Work?)
  }

  ghost predicate Own(s: State, s': State, p: nat) {
    SplitStep(s, s', p) || PackedStep(s, s', p)
  }

  // At most n steps of its own lead there.
  ghost predicate Solo(s: State, p: nat, n: nat)
    decreases n
  {
    Settled(s, p) || (n > 0 && exists s' :: Own(s, s', p) && Solo(s', p, n - 1))
  }

  lemma First(s: State, s': State, p: nat, n: nat)
    requires Own(s, s', p) && Solo(s', p, n)
    ensures Solo(s, p, n + 1)
  {}

  lemma {:induction false} More(s: State, p: nat, n: nat, m: nat)
    requires Solo(s, p, n) && n <= m
    ensures Solo(s, p, m)
    decreases n
  {
    if !Settled(s, p) {
      var s' :| Own(s, s', p) && Solo(s', p, n - 1);
      More(s', p, n - 1, m - 1);
    }
  }

  function Moved(s: State, p: nat, at: Stage): State
    requires p < |s.threads| && s.threads[p].Call?
  {
    s.(threads := s.threads[p := s.threads[p].(at := at)])
  }

  function Done(s: State, p: nat): State
    requires p < |s.threads|
  {
    s.(threads := s.threads[p := Idle])
  }

  // ------------------------------------------------------------------ pushes

  ghost predicate Pushes(s: State, p: nat) {
    At(s, p) && s.threads[p].op.Push? && |s.threads[p].op.items| == 1
  }

  // The tail it has read is the tail.
  lemma PushFresh(s: State, p: nat)
    requires Pushes(s, p) && (s.threads[p].at.PushAgain? || s.threads[p].at.PushCas?) && s.threads[p].at.t == s.tail
    ensures Solo(s, p, 1)
  {
    var s': State;
    if s.threads[p].at.PushAgain? {
      s' := Done(s, p);
      assert PushRefuse(s, s', p);
    } else {
      var items := s.threads[p].op.items;
      s' := TicketRuns.Claims(s, p, s.head, s.tail + 1, [Fill(s.tail, items[0])], items);
      assert PushTicket(s, s', p);
    }
    First(s, s', p, 0);
  }

  lemma PushReads(s: State, p: nat)
    requires Pushes(s, p) && s.threads[p].at.PushHead? && s.threads[p].at.t == s.tail
    ensures Solo(s, p, 2)
  {
    var t := s.tail;
    var s' := Moved(s, p, if LooksFull(s.cfg.cap, t, s.head) then PushAgain(t, s.head) else PushCas(t, s.head));
    assert PushReadHead(s, s', p);
    PushFresh(s', p);
    First(s, s', p, 1);
  }

  lemma PushBegins(s: State, p: nat)
    requires Pushes(s, p) && s.threads[p].at.PushTail?
    ensures Solo(s, p, 3)
  {
    var s' := Moved(s, p, PushHead(s.tail));
    assert PushReadTail(s, s', p);
    PushReads(s', p);
    First(s, s', p, 2);
  }

  lemma PushStale(s: State, p: nat)
    requires Pushes(s, p) && (s.threads[p].at.PushAgain? || s.threads[p].at.PushCas?)
    requires s.threads[p].at.PushCas? && !s.cfg.mp ==> s.threads[p].at.t == s.tail
    ensures Solo(s, p, 4)
  {
    if s.threads[p].at.t == s.tail {
      PushFresh(s, p);
      More(s, p, 1, 4);
    } else {
      var s' := Moved(s, p, PushTail);
      assert PushRetry(s, s', p);
      PushBegins(s', p);
      First(s, s', p, 3);
    }
  }

  lemma PushSolo(s: State, p: nat)
    requires Inv(s) && Pushes(s, p) && !s.cfg.packed && !s.threads[p].at.Work?
    ensures Solo(s, p, 5)
  {
    assert ThreadOk(s, p, s.threads[p]);
    var at := s.threads[p].at;
    if at.PushTail? {
      PushBegins(s, p);
      More(s, p, 3, 5);
    } else if at.PushHead? {
      var full := LooksFull(s.cfg.cap, at.t, s.head);
      var s' := Moved(s, p, if full then PushAgain(at.t, s.head) else PushCas(at.t, s.head));
      assert PushReadHead(s, s', p);
      PushStale(s', p);
      First(s, s', p, 4);
    } else {
      PushStale(s, p);
      More(s, p, 4, 5);
    }
  }

  // -------------------------------------------------------------------- pops

  ghost predicate Pops(s: State, p: nat) {
    At(s, p) && s.threads[p].op == Pop(1)
  }

  lemma PopFresh(s: State, p: nat)
    requires Pops(s, p) && s.threads[p].at.PopCas? && s.threads[p].at.h == s.head
    ensures Solo(s, p, 1)
  {
    var s' := TicketRuns.Claims(s, p, s.head + 1, s.tail, [Take(s.head)], []);
    assert PopTicket(s, s', p);
    First(s, s', p, 0);
  }

  lemma PopStores(s: State, p: nat)
    requires Pops(s, p) && s.threads[p].at.PopStore? && s.threads[p].at.h == s.head
    ensures Solo(s, p, 2)
  {
    var h, t := s.threads[p].at.h, s.threads[p].at.t;
    if h == t {
      var s' := Done(s, p).(seen := t);
      assert PopRefuse(s, s', p);
      First(s, s', p, 1);
    } else {
      var s' := Moved(s, p, PopCas(h)).(seen := t);
      assert PopRefresh(s, s', p);
      PopFresh(s', p);
      First(s, s', p, 1);
    }
  }

  lemma PopReads(s: State, p: nat)
    requires Pops(s, p) && s.threads[p].at.PopTail? && s.threads[p].at.h == s.head
    ensures Solo(s, p, 3)
  {
    var s' := Moved(s, p, PopStore(s.head, s.tail));
    assert PopReadTail(s, s', p);
    PopStores(s', p);
    First(s, s', p, 2);
  }

  lemma PopLooks(s: State, p: nat)
    requires Pops(s, p) && s.threads[p].at.PopSeen? && s.threads[p].at.h == s.head
    ensures Solo(s, p, 4)
  {
    var s' := Moved(s, p, if s.seen <= s.head then PopTail(s.head) else PopCas(s.head));
    assert PopReadSeen(s, s', p);
    if s.seen <= s.head {
      PopReads(s', p);
    } else {
      PopFresh(s', p);
      More(s', p, 1, 3);
    }
    First(s, s', p, 3);
  }

  lemma PopBegins(s: State, p: nat)
    requires Pops(s, p) && s.threads[p].at.PopHead?
    ensures Solo(s, p, 5)
  {
    var s' := Moved(s, p, PopSeen(s.head));
    assert PopReadHead(s, s', p);
    PopLooks(s', p);
    First(s, s', p, 4);
  }

  lemma PopStale(s: State, p: nat)
    requires Pops(s, p) && s.threads[p].at.PopCas? && (!s.cfg.mc ==> s.threads[p].at.h == s.head)
    ensures Solo(s, p, 6)
  {
    if s.threads[p].at.h == s.head {
      PopFresh(s, p);
      More(s, p, 1, 6);
    } else {
      var s' := Moved(s, p, PopHead);
      assert PopRetry(s, s', p);
      PopBegins(s', p);
      First(s, s', p, 5);
    }
  }

  lemma PopStoresStale(s: State, p: nat)
    requires Pops(s, p) && s.threads[p].at.PopStore? && (!s.cfg.mc ==> s.threads[p].at.h == s.head)
    ensures Solo(s, p, 7)
  {
    var h, t := s.threads[p].at.h, s.threads[p].at.t;
    if h == t {
      var s' := Done(s, p).(seen := t);
      assert PopRefuse(s, s', p);
      First(s, s', p, 6);
    } else {
      var s' := Moved(s, p, PopCas(h)).(seen := t);
      assert PopRefresh(s, s', p);
      PopStale(s', p);
      First(s, s', p, 6);
    }
  }

  lemma PopSolo(s: State, p: nat)
    requires Inv(s) && Pops(s, p) && !s.cfg.packed && !s.threads[p].at.Work?
    ensures Solo(s, p, 9)
  {
    assert ThreadOk(s, p, s.threads[p]);
    var at := s.threads[p].at;
    if at.PopHead? {
      PopBegins(s, p);
      More(s, p, 5, 9);
    } else if at.PopSeen? {
      var s' := Moved(s, p, if s.seen <= at.h then PopTail(at.h) else PopCas(at.h));
      assert PopReadSeen(s, s', p);
      if s.seen <= at.h { PopReadsStale(s', p); } else { PopStale(s', p); More(s', p, 6, 8); }
      First(s, s', p, 8);
    } else if at.PopTail? {
      PopReadsStale(s, p);
      More(s, p, 8, 9);
    } else if at.PopStore? {
      PopStoresStale(s, p);
      More(s, p, 7, 9);
    } else {
      PopStale(s, p);
      More(s, p, 6, 9);
    }
  }

  lemma PopReadsStale(s: State, p: nat)
    requires Pops(s, p) && s.threads[p].at.PopTail? && (!s.cfg.mc ==> s.threads[p].at.h == s.head)
    ensures Solo(s, p, 8)
  {
    var s' := Moved(s, p, PopStore(s.threads[p].at.h, s.tail));
    assert PopReadTail(s, s', p);
    PopStoresStale(s', p);
    First(s, s', p, 7);
  }

  // ------------------------------------------------------- sizes, and one word

  lemma SizeBegins(s: State, p: nat)
    requires At(s, p) && s.threads[p].at.SizeHead?
    ensures Solo(s, p, 3)
  {
    var s1 := Moved(s, p, SizeTail(s.head));
    assert SizeReadHead(s, s1, p);
    var s2 := Moved(s, p, SizeAgain(s.head, s.tail));
    assert SizeReadTail(s1, s2, p);
    var s3 := Done(s, p);
    assert SizeAnswer(s2, s3, p);
    First(s2, s3, p, 0);
    First(s1, s2, p, 1);
    First(s, s1, p, 2);
  }

  lemma SizeStale(s: State, p: nat)
    requires At(s, p) && s.threads[p].at.SizeAgain?
    ensures Solo(s, p, 4)
  {
    if s.threads[p].at.h == s.head {
      var s' := Done(s, p);
      assert SizeAnswer(s, s', p);
      First(s, s', p, 3);
    } else {
      var s' := Moved(s, p, SizeHead);
      assert SizeRetry(s, s', p);
      SizeBegins(s', p);
      First(s, s', p, 3);
    }
  }

  lemma SizeSolo(s: State, p: nat)
    requires At(s, p) && (s.threads[p].at.SizeHead? || s.threads[p].at.SizeTail? || s.threads[p].at.SizeAgain?)
    ensures Solo(s, p, 5)
  {
    if s.threads[p].at.SizeHead? {
      SizeBegins(s, p);
      More(s, p, 3, 5);
    } else if s.threads[p].at.SizeTail? {
      var s' := Moved(s, p, SizeAgain(s.threads[p].at.h, s.tail));
      assert SizeReadTail(s, s', p);
      SizeStale(s', p);
      First(s, s', p, 4);
    } else {
      SizeStale(s, p);
      More(s, p, 4, 5);
    }
  }

  lemma PackedSolo(s: State, p: nat)
    requires At(s, p) && s.head <= s.tail && (s.threads[p].at.Load? || s.threads[p].at.Cas?)
    requires s.threads[p].at.Cas? && s.threads[p].op.Overrun? ==> s.cfg.cap > 0
    ensures Solo(s, p, 2)
  {
    var op := s.threads[p].op;
    var d := Decide(s.cfg.cap, op, s.head, s.tail);
    if d.Claim? {
      var s1 := Moved(s, p, Cas(s.head, s.tail));
      assert PackedLoad(s, s1, p);
      var s2 := TicketRuns.Claims(s1, p, d.h, d.t, d.todo, d.added);
      assert PackedTicket(s1, s2, p);
      First(s1, s2, p, 0);
      First(s, s1, p, 1);
    } else if op.Overrun? {
      var s' := Done(s, p).(overruns := s.overruns + 1, dropped := s.dropped + [op.v]);
      assert PackedDrop(s, s', p);
      First(s, s', p, 1);
    } else {
      var s' := Done(s, p);
      assert PackedAnswer(s, s', p);
      First(s, s', p, 1);
    }
  }

  /** In every state of every run: at most nine steps of its own, and no other's,
      give an operation its tickets or its answer. */
  lemma AloneSettles(run: seq<State>, n: nat, p: nat)
    requires IsRun(run) && n < |run| && At(run[n], p)
    ensures Solo(run[n], p, 9)
  {
    RunHolds(run, n);
    var s := run[n];
    assert ThreadOk(s, p, s.threads[p]);
    var at := s.threads[p].at;
    if Settled(s, p) {
    } else if at.Load? || at.Cas? {
      PackedSolo(s, p);
      More(s, p, 2, 9);
    } else if at.SizeHead? || at.SizeTail? || at.SizeAgain? {
      SizeSolo(s, p);
      More(s, p, 5, 9);
    } else if s.threads[p].op.Push? {
      PushSolo(s, p);
      More(s, p, 5, 9);
    } else {
      PopSolo(s, p);
    }
  }
}
