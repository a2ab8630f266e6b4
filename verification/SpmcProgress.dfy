/** A pop of the single-producer queue that runs alone answers: from every state
    of every run, wherever it is and however stale what it has read, a few steps
    of its own lead to an element or to the answer that there is none. */
module SpmcProgress {
  import opened Basics
  import opened Positions
  import opened SpmcQueue

  // At most n steps of its own lead to an answer.
  ghost predicate Solo(s: State, p: nat, n: nat)
    decreases n
  {
    && p < |s.threads|
    && (s.threads[p].Answered? || (n > 0 && exists s' :: Consumes(s, s', p) && Solo(s', p, n - 1)))
  }

  lemma First(s: State, s': State, p: nat, n: nat)
    requires p < |s.threads| && Consumes(s, s', p) && Solo(s', p, n)
    ensures Solo(s, p, n + 1)
  {}

  lemma {:induction false} More(s: State, p: nat, n: nat, m: nat)
    requires Solo(s, p, n) && n <= m
    ensures Solo(s, p, m)
    decreases n
  {
    if !s.threads[p].Answered? {
      var s' :| Consumes(s, s', p) && Solo(s', p, n - 1);
      More(s', p, n - 1, m - 1);
    }
  }

  lemma Keeps(s: State, s': State, p: nat)
    requires Inv(s) && Consumes(s, s', p)
    ensures Inv(s')
  {
    NextKeeps(s, s');
  }

  // ------------------------------------- what it has read of deq is still there

  lemma Takes(s: State, p: nat)
    requires Inv(s) && p < |s.threads| && s.threads[p].Taking?
    ensures Solo(s, p, 1)
  {
    assert ThreadOk(s.segs, s.head, s.threads[p]);
    var Taking(h, d) := s.threads[p];
    var s' := Goes(s.(segs := s.segs[h := s.segs[h].(cells := s.segs[h].cells[d := Raw])]), p,
                   Answered(s.segs[h].cells[d]));
    assert Take(s, s', p);
    First(s, s', p, 0);
  }

  lemma Claims(s: State, p: nat)
    requires Inv(s) && p < |s.threads| && s.threads[p].Claiming?
    requires s.threads[p].h < |s.segs| && s.segs[s.threads[p].h].deq == s.threads[p].d
    ensures Solo(s, p, 2)
  {
    assert ThreadOk(s.segs, s.head, s.threads[p]);
    var Claiming(h, d, e) := s.threads[p];
    var s1 := Goes(s.(segs := s.segs[h := s.segs[h].(deq := d + 1)], taken := s.taken + [Pos(h, d)]), p, Taking(h, d));
    assert Claim(s, s1, p);
    Keeps(s, s1, p);
    Takes(s1, p);
    First(s, s1, p, 1);
  }

  lemma Tells(s: State, p: nat)
    requires Inv(s) && p < |s.threads| && s.threads[p].StoreSeen?
    requires s.threads[p].h < |s.segs| && s.segs[s.threads[p].h].deq == s.threads[p].d
    ensures Solo(s, p, 3)
  {
    assert ThreadOk(s.segs, s.head, s.threads[p]);
    var StoreSeen(h, d, e) := s.threads[p];
    var s' := Goes(s.(segs := s.segs[h := s.segs[h].(seen := e)]), p, Claiming(h, d, e));
    assert Tell(s, s', p);
    Keeps(s, s', p);
    Claims(s', p);
    First(s, s', p, 2);
  }

  // Segment h is drained, and the next one is linked.
  predicate Passed(s: State, h: nat) {
    h + 1 < |s.segs| && s.segs[h].deq == K
  }

  lemma CountsHere(s: State, p: nat)
    requires Inv(s) && p < |s.threads| && s.threads[p].ReadEnq? && s.threads[p].h < |s.segs|
    requires s.segs[s.threads[p].h].deq == s.threads[p].d && !Passed(s, s.threads[p].h)
    ensures Solo(s, p, 4)
  {
    assert ThreadOk(s.segs, s.head, s.threads[p]);
    var ReadEnq(h, d) := s.threads[p];
    var e := s.segs[h].enq;
    var s' := Goes(s, p, if d < e then StoreSeen(h, d, e) else if e < K then Answered(Raw) else ReadNext(h));
    assert ReadCount(s, s', p);
    if d < e {
      Keeps(s, s', p);
      Tells(s', p);
    } else if e >= K {
      var s2 := Goes(s', p, Answered(Raw));
      assert ReadLink(s', s2, p);
      First(s', s2, p, 2);
    }
    First(s, s', p, 3);
  }

  lemma LooksHere(s: State, p: nat)
    requires Inv(s) && p < |s.threads| && s.threads[p].ReadSeen? && s.threads[p].h < |s.segs|
    requires s.segs[s.threads[p].h].deq == s.threads[p].d && !Passed(s, s.threads[p].h)
    ensures Solo(s, p, 5)
  {
    var ReadSeen(h, d) := s.threads[p];
    var s' := Goes(s, p, Compared(h, d, s.segs[h].seen));
    assert Reads(s, s', p);
    Keeps(s, s', p);
    if d < s.segs[h].seen {
      Claims(s', p);
      More(s', p, 2, 4);
    } else {
      CountsHere(s', p);
    }
    First(s, s', p, 4);
  }

  lemma HoldsHere(s: State, p: nat)
    requires Inv(s) && p < |s.threads| && s.threads[p].Holding? && !Passed(s, s.head)
    ensures Solo(s, p, 7)
  {
    var s1 := Goes(s, p, ReadDeq(s.head));
    assert Reads(s, s1, p);
    Keeps(s, s1, p);
    var s2 := Goes(s1, p, ReadSeen(s.head, s.segs[s.head].deq));
    assert Reads(s1, s2, p);
    Keeps(s1, s2, p);
    LooksHere(s2, p);
    First(s1, s2, p, 5);
    First(s, s1, p, 6);
  }

  // ------------------------------------------------------- on to the next segment

  // The segment after the head has no claims.
  lemma SwingsHead(s: State, p: nat)
    requires Inv(s) && p < |s.threads| && s.threads[p] == Swinging(s.head)
    ensures Solo(s, p, 8)
  {
    assert ThreadOk(s.segs, s.head, s.threads[p]);
    var s' := Goes(s.(head := s.head + 1), p, Holding);
    assert Swing(s, s', p);
    Keeps(s, s', p);
    HoldsHere(s', p);
    First(s, s', p, 7);
  }

  lemma Holds(s: State, p: nat)
    requires Inv(s) && p < |s.threads| && s.threads[p].Holding?
    ensures Solo(s, p, 13)
  {
    if !Passed(s, s.head) {
      HoldsHere(s, p);
      More(s, p, 7, 13);
    } else {
      var h := s.head;
      var s1 := Goes(s, p, ReadDeq(h));
      assert Reads(s, s1, p);
      var s2 := Goes(s1, p, ReadSeen(h, K));
      assert Reads(s1, s2, p);
      var s3 := Goes(s2, p, ReadEnq(h, K));
      assert Reads(s2, s3, p);
      var s4 := Goes(s3, p, ReadNext(h));
      assert ReadCount(s3, s4, p);
      var s5 := Goes(s4, p, Swinging(h));
      assert ReadLink(s4, s5, p);
      AllKeep(s, s1, s2, s3, s4, s5, p);
      SwingsHead(s5, p);
      First(s4, s5, p, 8);
      First(s3, s4, p, 9);
      First(s2, s3, p, 10);
      First(s1, s2, p, 11);
      First(s, s1, p, 12);
    }
  }

  lemma AllKeep(s: State, s1: State, s2: State, s3: State, s4: State, s5: State, p: nat)
    requires Inv(s) && Consumes(s, s1, p) && Consumes(s1, s2, p) && Consumes(s2, s3, p)
    requires Consumes(s3, s4, p) && Consumes(s4, s5, p)
    ensures Inv(s5)
  {
    Keeps(s, s1, p);
    Keeps(s1, s2, p);
    Keeps(s2, s3, p);
    Keeps(s3, s4, p);
    Keeps(s4, s5, p);
  }

  lemma Swings(s: State, p: nat)
    requires Inv(s) && p < |s.threads| && s.threads[p].Swinging?
    ensures Solo(s, p, 14)
  {
    var h := s.threads[p].h;
    var s' := Goes(s.(head := if s.head == h then h + 1 else s.head), p, Holding);
    assert Swing(s, s', p);
    Keeps(s, s', p);
    Holds(s', p);
    First(s, s', p, 13);
  }

  lemma Links(s: State, p: nat)
    requires Inv(s) && p < |s.threads| && s.threads[p].ReadNext?
    ensures Solo(s, p, 15)
  {
    var h := s.threads[p].h;
    var s' := Goes(s, p, if h + 1 < |s.segs| then Swinging(h) else Answered(Raw));
    assert ReadLink(s, s', p);
    Keeps(s, s', p);
    if h + 1 < |s.segs| { Swings(s', p); }
    First(s, s', p, 14);
  }

  // ------------------------------------------------------------ from anywhere

  lemma CountsFresh(s: State, p: nat)
    requires Inv(s) && p < |s.threads| && s.threads[p].ReadEnq? && s.threads[p].h < |s.segs|
    requires s.segs[s.threads[p].h].deq == s.threads[p].d
    ensures Solo(s, p, 16)
  {
    assert ThreadOk(s.segs, s.head, s.threads[p]);
    if !Passed(s, s.threads[p].h) {
      CountsHere(s, p);
      More(s, p, 4, 16);
    } else {
      var s' := Goes(s, p, ReadNext(s.threads[p].h));
      assert ReadCount(s, s', p);
      Keeps(s, s', p);
      Links(s', p);
      First(s, s', p, 15);
    }
  }

  lemma ClaimsAny(s: State, p: nat)
    requires Inv(s) && p < |s.threads| && s.threads[p].Claiming?
    ensures Solo(s, p, 17)
  {
    assert ThreadOk(s.segs, s.head, s.threads[p]);
    var Claiming(h, d, e) := s.threads[p];
    if s.segs[h].deq == d {
      Claims(s, p);
      More(s, p, 2, 17);
    } else {
      var s' := Goes(s, p, Compared(h, s.segs[h].deq, e));
      assert ClaimFails(s, s', p);
      Keeps(s, s', p);
      if s.segs[h].deq < e {
        Claims(s', p);
        More(s', p, 2, 16);
      } else {
        CountsFresh(s', p);
      }
      First(s, s', p, 16);
    }
  }

  lemma TellsAny(s: State, p: nat)
    requires Inv(s) && p < |s.threads| && s.threads[p].StoreSeen?
    ensures Solo(s, p, 18)
  {
    assert ThreadOk(s.segs, s.head, s.threads[p]);
    var StoreSeen(h, d, e) := s.threads[p];
    var s' := Goes(s.(segs := s.segs[h := s.segs[h].(seen := e)]), p, Claiming(h, d, e));
    assert Tell(s, s', p);
    Keeps(s, s', p);
    ClaimsAny(s', p);
    First(s, s', p, 17);
  }

  lemma CountsAny(s: State, p: nat)
    requires Inv(s) && p < |s.threads| && s.threads[p].ReadEnq?
    ensures Solo(s, p, 19)
  {
    assert ThreadOk(s.segs, s.head, s.threads[p]);
    var ReadEnq(h, d) := s.threads[p];
    var e := s.segs[h].enq;
    var s' := Goes(s, p, if d < e then StoreSeen(h, d, e) else if e < K then Answered(Raw) else ReadNext(h));
    assert ReadCount(s, s', p);
    Keeps(s, s', p);
    if d < e {
      TellsAny(s', p);
    } else if e >= K {
      Links(s', p);
      More(s', p, 15, 18);
    }
    First(s, s', p, 18);
  }

  lemma LooksAny(s: State, p: nat)
    requires Inv(s) && p < |s.threads| && s.threads[p].ReadSeen?
    ensures Solo(s, p, 20)
  {
    assert ThreadOk(s.segs, s.head, s.threads[p]);
    var ReadSeen(h, d) := s.threads[p];
    var s' := Goes(s, p, Compared(h, d, s.segs[h].seen));
    assert Reads(s, s', p);
    Keeps(s, s', p);
    if d < s.segs[h].seen {
      ClaimsAny(s', p);
      More(s', p, 17, 19);
    } else {
      CountsAny(s', p);
    }
    First(s, s', p, 19);
  }

  lemma ReadsAny(s: State, p: nat)
    requires Inv(s) && p < |s.threads| && s.threads[p].ReadDeq?
    ensures Solo(s, p, 21)
  {
    assert ThreadOk(s.segs, s.head, s.threads[p]);
    var h := s.threads[p].h;
    var s' := Goes(s, p, ReadSeen(h, s.segs[h].deq));
    assert Reads(s, s', p);
    Keeps(s, s', p);
    LooksAny(s', p);
    First(s, s', p, 20);
  }

  /** In every state of every run: at most twenty-one steps of its own, and no
      other's, give a pop its answer. */
  lemma AloneAnswers(run: seq<State>, n: nat, p: nat)
    requires IsRun(run) && n < |run| && p < |run[n].threads| && !run[n].threads[p].Outside?
    ensures Solo(run[n], p, 21)
  {
    RunHolds(run, n);
    var s := run[n];
    match s.threads[p]
    case Answered(_) =>
    case Holding => Holds(s, p); More(s, p, 13, 21);
    case ReadDeq(_) => ReadsAny(s, p);
    case ReadSeen(_, _) => LooksAny(s, p); More(s, p, 20, 21);
    case ReadEnq(_, _) => CountsAny(s, p); More(s, p, 19, 21);
    case StoreSeen(_, _, _) => TellsAny(s, p); More(s, p, 18, 21);
    case Claiming(_, _, _) => ClaimsAny(s, p); More(s, p, 17, 21);
    case Taking(_, _) => Takes(s, p); More(s, p, 1, 21);
    case ReadNext(_) => Links(s, p); More(s, p, 15, 21);
    case Swinging(_) => Swings(s, p); More(s, p, 14, 21);
  }

  // The count it has read is told to the other consumers before it claims.
  lemma SeenIsTold(run: seq<State>, k: nat, p: nat)
    requires IsRun(run) && k + 1 < |run| && Consumes(run[k], run[k + 1], p) && run[k].threads[p].StoreSeen?
    ensures var h := run[k].threads[p].h;
            h < |run[k + 1].segs| && run[k + 1].segs[h].seen == run[k].threads[p].e
  {}
}
