/** Hazard pointers (runtime/hazard.hpp) under any number of threads, with
    records that change owner, scans that read the slots one by one while
    records are added, and an allocator that hands out a freed address again.

    The queues are seen from the domain: shared pointers that hold addresses
    of live nodes, and a node is retired once no shared pointer holds it. One
    step is one access to shared memory. */
module Hazard {

  const SLOTS := 2
  const SCAN_AT := 8

  // A record: its slots, whether a thread has it, which thread took it last,
  // and the nodes retired through it. An address of 0 is null.
  datatype Record = Record(slot: seq<nat>, active: bool, owner: nat, retired: seq<nat>)

  datatype Act =
    | Out                                        // has no record
    | Walk(k: nat)                               // about to test record k - 1
    | Take(k: nat)                               // about to take record k
    | Link(m: nat)                               // about to link a new record after m
    | Ready
    | Publish(i: nat, x: nat, v: nat)            // read v from source x; about to put it in slot i
    | Validate(i: nat, x: nat, v: nat)           // about to read source x again
    | Scan(left: nat, j: nat, held: set<nat>, exit: bool)  // about to read slot j of record left - 1
    | Sift(held: set<nat>, k: nat, keep: seq<nat>, exit: bool)  // about to keep or free the k-th node
    | Drop(i: nat)                               // leaving: about to empty slot i
    | Leave                                      // about to give its record up

  // hold: what each slot protects, once validated.
  datatype Thread = Thread(act: Act, rec: nat, hold: seq<nat>)

  // srcs: the shared pointers. live, retired: the addresses in use.
  datatype State = State(records: seq<Record>, threads: seq<Thread>, srcs: seq<nat>, live: set<nat>, retired: set<nat>)

  ghost predicate Init(s: State) {
    && s.records == [] && s.live == {} && s.retired == {}
    && (forall x :: 0 <= x < |s.srcs| ==> s.srcs[x] == 0)
    && forall p :: 0 <= p < |s.threads| ==> s.threads[p] == Thread(Out, 0, [0, 0])
  }

  predicate Owns(t: Thread) {
    !t.act.Out? && !t.act.Walk? && !t.act.Take? && !t.act.Link?
  }

  // ----------------------------------------------------------------- steps

  // The queues: a node is made, and shared pointers are set to live nodes.
  ghost predicate Allocate(s: State, s': State, a: nat) {
    a != 0 && a !in s.live && a !in s.retired && s' == s.(live := s.live + {a})
  }

  ghost predicate Store(s: State, s': State, x: nat, a: nat) {
    x < |s.srcs| && (a == 0 || a in s.live) && s' == s.(srcs := s.srcs[x := a])
  }

  function Goes(s: State, p: nat, act: Act): State
    requires p < |s.threads|
  {
    s.(threads := s.threads[p := s.threads[p].(act := act)])
  }

  // acquire.
  ghost predicate Acquire(s: State, s': State, p: nat) {
    && p < |s.threads|
    && match s.threads[p].act
       case Out => s' == Goes(s, p, Walk(|s.records|))
       case Walk(k) =>
         if k == 0 then s' == Goes(s, p, Link(|s.records|))
         else k <= |s.records| && s' == Goes(s, p, if s.records[k - 1].active then Walk(k - 1) else Take(k - 1))
       case _ => false
  }

  ghost predicate TakeRecord(s: State, s': State, p: nat) {
    && p < |s.threads| && s.threads[p].act.Take? && s.threads[p].act.k < |s.records|
    && var k := s.threads[p].act.k;
       if s.records[k].active then s' == Goes(s, p, Walk(k))
       else s' == s.(records := s.records[k := s.records[k].(active := true, owner := p)],
                     threads := s.threads[p := Thread(Ready, k, s.threads[p].hold)])
  }

  // A compare-and-swap that fails reads the head again; it may fail unasked.
  ghost predicate LinkRecord(s: State, s': State, p: nat) {
    && p < |s.threads| && s.threads[p].act.Link?
    && (|| s' == Goes(s, p, Link(|s.records|))
        || (&& s.threads[p].act.m == |s.records|
            && s' == s.(records := s.records + [Record([0, 0], true, p, [])],
                        threads := s.threads[p := Thread(Ready, |s.records|, s.threads[p].hold)])))
  }

  ghost predicate Mine(s: State, p: nat) {
    && p < |s.threads| && Owns(s.threads[p]) && s.threads[p].rec < |s.records|
    && |s.records[s.threads[p].rec].slot| == SLOTS && |s.threads[p].hold| == SLOTS
  }

  // protect.
  ghost predicate BeginProtect(s: State, s': State, p: nat, i: nat, x: nat) {
    && Mine(s, p) && s.threads[p].act.Ready? && i < SLOTS && x < |s.srcs|
    && s' == Goes(s, p, Publish(i, x, s.srcs[x]))
  }

  // Slot i of p's record set to v: whatever it protected, it protects no more.
  function SetSlot(s: State, p: nat, i: nat, v: nat, act: Act): State
    requires p < |s.threads| && s.threads[p].rec < |s.records|
    requires i < |s.records[s.threads[p].rec].slot| && i < |s.threads[p].hold|
  {
    var t := s.threads[p];
    s.(records := s.records[t.rec := s.records[t.rec].(slot := s.records[t.rec].slot[i := v])],
       threads := s.threads[p := Thread(act, t.rec, t.hold[i := 0])])
  }

  ghost predicate PublishSlot(s: State, s': State, p: nat) {
    && Mine(s, p) && s.threads[p].act.Publish?
    && var Publish(i, x, v) := s.threads[p].act;
       i < SLOTS && s' == SetSlot(s, p, i, v, Validate(i, x, v))
  }

  ghost predicate ReadAgain(s: State, s': State, p: nat) {
    && Mine(s, p) && s.threads[p].act.Validate?
    && var Validate(i, x, v) := s.threads[p].act;
       && i < SLOTS && x < |s.srcs|
       && if s.srcs[x] == v
          then s' == s.(threads := s.threads[p := s.threads[p].(act := Ready, hold := s.threads[p].hold[i := v])])
          else s' == Goes(s, p, Publish(i, x, s.srcs[x]))
  }

  ghost predicate ClearSlot(s: State, s': State, p: nat, i: nat) {
    Mine(s, p) && s.threads[p].act.Ready? && i < SLOTS && s' == SetSlot(s, p, i, 0, Ready)
  }

  // retire, of a node no shared pointer holds; the eighth begins a scan.
  ghost predicate RetireNode(s: State, s': State, p: nat, a: nat) {
    && Mine(s, p) && s.threads[p].act.Ready? && a in s.live && a !in s.srcs
    && var t, list := s.threads[p], s.records[s.threads[p].rec].retired + [a];
       s' == Goes(s.(records := s.records[t.rec := s.records[t.rec].(retired := list)],
                     live := s.live - {a}, retired := s.retired + {a}),
                  p, if |list| >= SCAN_AT then Scan(|s.records|, 0, {}, false) else Ready)
  }

  function With(held: set<nat>, v: nat): set<nat> {
    if v == 0 then held else held + {v}
  }

  // scan: the slots one by one, newest record first; then the nodes.
  ghost predicate ReadSlot(s: State, s': State, p: nat) {
    && Mine(s, p) && s.threads[p].act.Scan?
    && var Scan(left, j, held, exit) := s.threads[p].act;
       if left == 0 then s' == Goes(s, p, Sift(held, 0, [], exit))
       else
         && left <= |s.records| && j < |s.records[left - 1].slot|
         && var seen := With(held, s.records[left - 1].slot[j]);
            s' == Goes(s, p, if j + 1 < SLOTS then Scan(left, j + 1, seen, exit) else Scan(left - 1, 0, seen, exit))
  }

  ghost predicate KeepNode(s: State, s': State, p: nat) {
    && Mine(s, p) && s.threads[p].act.Sift?
    && var Sift(held, k, keep, exit) := s.threads[p].act;
       var list := s.records[s.threads[p].rec].retired;
       k < |list| && list[k] in held && s' == Goes(s, p, Sift(held, k + 1, keep + [list[k]], exit))
  }

  ghost predicate FreeNode(s: State, s': State, p: nat) {
    && Mine(s, p) && s.threads[p].act.Sift?
    && var Sift(held, k, keep, exit) := s.threads[p].act;
       var list := s.records[s.threads[p].rec].retired;
       && k < |list| && list[k] !in held
       && s' == Goes(s.(live := s.live - {list[k]}, retired := s.retired - {list[k]}), p, Sift(held, k + 1, keep, exit))
  }

  ghost predicate EndScan(s: State, s': State, p: nat) {
    && Mine(s, p) && s.threads[p].act.Sift?
    && var Sift(held, k, keep, exit) := s.threads[p].act;
       && k == |s.records[s.threads[p].rec].retired|
       && s' == Goes(s.(records := s.records[s.threads[p].rec := s.records[s.threads[p].rec].(retired := keep)]),
                     p, if exit then Leave else Ready)
  }

  // The end of a thread: empty the slots, scan, give the record up.
  ghost predicate BeginExit(s: State, s': State, p: nat) {
    Mine(s, p) && s.threads[p].act.Ready? && s' == Goes(s, p, Drop(0))
  }

  ghost predicate DropSlot(s: State, s': State, p: nat) {
    && Mine(s, p) && s.threads[p].act.Drop?
    && var i := s.threads[p].act.i;
       if i < SLOTS then s' == SetSlot(s, p, i, 0, Drop(i + 1)) else s' == Goes(s, p, Scan(|s.records|, 0, {}, true))
  }

  ghost predicate GiveUp(s: State, s': State, p: nat) {
    && Mine(s, p) && s.threads[p].act.Leave?
    && s' == Goes(s.(records := s.records[s.threads[p].rec := s.records[s.threads[p].rec].(active := false)]), p, Out)
  }

  ghost predicate OwnerStep(s: State, s': State, p: nat) {
    || Acquire(s, s', p) || TakeRecord(s, s', p) || LinkRecord(s, s', p)
    || BeginExit(s, s', p) || DropSlot(s, s', p) || GiveUp(s, s', p)
  }

  ghost predicate SlotStep(s: State, s': State, p: nat) {
    || (exists i: nat, x: nat :: BeginProtect(s, s', p, i, x)) || PublishSlot(s, s', p) || ReadAgain(s, s', p)
    || (exists i: nat :: ClearSlot(s, s', p, i))
  }

  ghost predicate ScanStep(s: State, s': State, p: nat) {
    || (exists a: nat :: RetireNode(s, s', p, a))
    || ReadSlot(s, s', p) || KeepNode(s, s', p) || FreeNode(s, s', p) || EndScan(s, s', p)
  }

  ghost predicate Step(s: State, s': State, p: nat) {
    OwnerStep(s, s', p) || SlotStep(s, s', p) || ScanStep(s, s', p)
  }

  ghost predicate Next(s: State, s': State) {
    || (exists a: nat :: Allocate(s, s', a)) || (exists x: nat, a: nat :: Store(s, s', x, a))
    || exists p: nat :: Step(s, s', p)
  }

  ghost predicate IsRun(run: seq<State>) {
    && |run| > 0 && Init(run[0])
    && forall i :: 0 <= i < |run| - 1 ==> Next(run[i], run[i + 1])
  }

  // ------------------------------------------------------------- invariant

  // Thread u has validated node a in slot i.
  ghost predicate Holds(ts: seq<Thread>, u: nat, i: nat, a: nat) {
    u < |ts| && i < |ts[u].hold| && ts[u].hold[i] == a && a != 0
  }

  ghost predicate ThreadOk(rs: seq<Record>, p: nat, t: Thread) {
    && |t.hold| == SLOTS
    && (Owns(t) ==> t.rec < |rs| && rs[t.rec].active && rs[t.rec].owner == p)
    && (!Owns(t) || t.act.Leave? || ((t.act.Scan? || t.act.Sift?) && t.act.exit) ==> t.hold == [0, 0])
    && (t.act.Drop? ==> t.act.i <= SLOTS && forall i :: 0 <= i < t.act.i ==> t.hold[i] == 0)
    && (t.act.Validate? && t.act.i < SLOTS && Owns(t) && |rs[t.rec].slot| == SLOTS ==>
        rs[t.rec].slot[t.act.i] == t.act.v)
    && (t.act.Walk? ==> t.act.k <= |rs|) && (t.act.Take? ==> t.act.k < |rs|)
    && (t.act.Scan? ==> t.act.left <= |rs| && t.act.j < SLOTS)
  }

  ghost predicate Owned(rs: seq<Record>, ts: seq<Thread>) {
    && (forall r :: 0 <= r < |rs| ==> |rs[r].slot| == SLOTS)
    && forall p :: 0 <= p < |ts| ==> ThreadOk(rs, p, ts[p])
  }

  // A validated node is in its slot, and in use.
  ghost predicate Kept(rs: seq<Record>, ts: seq<Thread>, live: set<nat>, retired: set<nat>) {
    forall u: nat, i: nat, a :: Holds(ts, u, i, a) ==>
      && Owns(ts[u]) && ts[u].rec < |rs| && i < |rs[ts[u].rec].slot| && rs[ts[u].rec].slot[i] == a
      && (a in live || a in retired)
  }

  // The nodes waiting in record r: what a scan under way has not yet dealt
  // with, and what it keeps.
  function Waiting(rs: seq<Record>, ts: seq<Thread>, r: nat): seq<nat>
    requires r < |rs|
  {
    var u := rs[r].owner;
    if rs[r].active && u < |ts| && ts[u].act.Sift? && ts[u].rec == r && ts[u].act.k <= |rs[r].retired|
    then ts[u].act.keep + rs[r].retired[ts[u].act.k..]
    else rs[r].retired
  }

  ghost predicate InWaiting(rs: seq<Record>, ts: seq<Thread>, r: nat, k: nat, a: nat) {
    r < |rs| && k < |Waiting(rs, ts, r)| && Waiting(rs, ts, r)[k] == a
  }

  // The retired nodes are exactly those waiting, each in one place.
  ghost predicate Lists(rs: seq<Record>, ts: seq<Thread>, retired: set<nat>) {
    && (forall r: nat, k: nat, a :: InWaiting(rs, ts, r, k, a) ==> a in retired)
    && (forall r: nat, k: nat, q: nat, l: nat, a :: InWaiting(rs, ts, r, k, a) && InWaiting(rs, ts, q, l, a) ==>
        r == q && k == l)
    && (forall a :: a in retired ==> exists r: nat, k: nat :: InWaiting(rs, ts, r, k, a))
  }

  ghost predicate Sources(srcs: seq<nat>, live: set<nat>, retired: set<nat>) {
    && live !! retired && 0 !in live && 0 !in retired
    && forall x :: 0 <= x < |srcs| && srcs[x] != 0 ==> srcs[x] in live
  }

  // Slot i of record r is still to be read by a scan that has `left` records
  // to go and is at slot j.
  predicate Ahead(left: nat, j: nat, r: nat, i: nat) {
    r + 1 < left || (r + 1 == left && j <= i)
  }

  // A node to be freed by a scan, and validated somewhere: the scan has its
  // slot before it, or has seen it there.
  ghost predicate ScanOk(rs: seq<Record>, ts: seq<Thread>, t: Thread) {
    (t.act.Scan? || t.act.Sift?) && t.rec < |rs| ==>
      var list := rs[t.rec].retired;
      && (t.act.Sift? ==> t.act.k <= |list| && forall a :: a in t.act.keep ==> a in t.act.held)
      && forall u: nat, i: nat, a :: Holds(ts, u, i, a) && (a in if t.act.Sift? then list[t.act.k..] else list) ==>
           a in t.act.held || (t.act.Scan? && Ahead(t.act.left, t.act.j, ts[u].rec, i))
  }

  ghost predicate Inv(s: State) {
    && Owned(s.records, s.threads)
    && Kept(s.records, s.threads, s.live, s.retired)
    && Sources(s.srcs, s.live, s.retired)
    && Lists(s.records, s.threads, s.retired)
    && forall p :: 0 <= p < |s.threads| ==> ScanOk(s.records, s.threads, s.threads[p])
  }

  lemma InitHolds(s: State)
    requires Init(s)
    ensures Inv(s)
  {}

  lemma AllocateKeeps(s: State, s': State, a: nat)
    requires Inv(s) && Allocate(s, s', a)
    ensures Inv(s')
  {}

  lemma StoreKeeps(s: State, s': State, x: nat, a: nat)
    requires Inv(s) && Store(s, s', x, a)
    ensures Inv(s')
  {}

  // ------------------------------------------------- steps keep the invariant

  // Records keep their lists; new ones are empty; only p's own may change hands.
  ghost predicate SameLists(rs: seq<Record>, rs': seq<Record>, p: nat) {
    && |rs| <= |rs'|
    && (forall r :: 0 <= r < |rs| ==>
          && rs'[r].retired == rs[r].retired
          && (rs'[r].owner == rs[r].owner || (rs'[r].owner == p && !rs[r].active))
          && (rs'[r].active == rs[r].active || rs'[r].owner == p))
    && forall r :: |rs| <= r < |rs'| ==> rs'[r].retired == [] && rs'[r].owner == p
  }

  ghost predicate SameWaiting(rs: seq<Record>, ts: seq<Thread>, rs': seq<Record>, ts': seq<Thread>) {
    && |rs| <= |rs'|
    && (forall r :: 0 <= r < |rs| ==> Waiting(rs', ts', r) == Waiting(rs, ts, r))
    && (forall r :: |rs| <= r < |rs'| ==> Waiting(rs', ts', r) == [])
  }

  lemma SameWaitingLists(rs: seq<Record>, ts: seq<Thread>, rs': seq<Record>, ts': seq<Thread>, retired: set<nat>)
    requires Lists(rs, ts, retired) && SameWaiting(rs, ts, rs', ts')
    ensures Lists(rs', ts', retired)
  {
    forall a | a in retired ensures exists r: nat, k: nat :: InWaiting(rs', ts', r, k, a) {
      var r: nat, k: nat :| InWaiting(rs, ts, r, k, a);
      assert InWaiting(rs', ts', r, k, a);
    }
    assert forall r: nat, k: nat, a :: InWaiting(rs', ts', r, k, a) ==> InWaiting(rs, ts, r, k, a);
  }

  lemma NoSiftLists(rs: seq<Record>, ts: seq<Thread>, rs': seq<Record>, ts': seq<Thread>, p: nat, retired: set<nat>)
    requires Lists(rs, ts, retired) && SameLists(rs, rs', p)
    requires p < |ts| && |ts'| == |ts| && ts' == ts[p := ts'[p]] && !ts[p].act.Sift? && !ts'[p].act.Sift?
    ensures Lists(rs', ts', retired)
  {
    assert SameWaiting(rs, ts, rs', ts');
    SameWaitingLists(rs, ts, rs', ts', retired);
  }

  // A step of thread p: it changes its own record, one nobody has, or none.
  ghost predicate Steps(rs: seq<Record>, ts: seq<Thread>, rs': seq<Record>, ts': seq<Thread>, p: nat) {
    && p < |ts| == |ts'| && ts' == ts[p := ts'[p]] && |rs| <= |rs'|
    && (forall r :: 0 <= r < |rs| ==>
          || rs'[r] == rs[r]
          || (Owns(ts[p]) && r == ts[p].rec)
          || (!rs[r].active && rs'[r].slot == rs[r].slot && rs'[r].retired == rs[r].retired))
    && forall r :: 0 <= r < |rs'| ==> |rs'[r].slot| == SLOTS
  }

  // It validates nothing.
  ghost predicate HoldsNoMore(ts: seq<Thread>, ts': seq<Thread>, p: nat) {
    forall i: nat, a :: Holds(ts', p, i, a) ==> Holds(ts, p, i, a) && ts'[p].rec == ts[p].rec
  }

  lemma OwnedAfter(rs: seq<Record>, ts: seq<Thread>, rs': seq<Record>, ts': seq<Thread>, p: nat)
    requires Owned(rs, ts) && Steps(rs, ts, rs', ts', p) && ThreadOk(rs', p, ts'[p])
    ensures Owned(rs', ts')
  {
    forall q | 0 <= q < |ts| && q != p ensures ThreadOk(rs', q, ts'[q]) {
      assert ThreadOk(rs, q, ts[q]) && ThreadOk(rs, p, ts[p]);
    }
  }

  // What a thread other than p has validated stays in its slot.
  lemma OthersKept(rs: seq<Record>, ts: seq<Thread>, rs': seq<Record>, ts': seq<Thread>, p: nat, u: nat, i: nat, a: nat)
    requires Owned(rs, ts) && Steps(rs, ts, rs', ts', p) && u != p && Holds(ts', u, i, a)
    requires forall b :: Holds(ts, u, i, b) ==>
            Owns(ts[u]) && ts[u].rec < |rs| && i < |rs[ts[u].rec].slot| && rs[ts[u].rec].slot[i] == b
    ensures Holds(ts, u, i, a) && Owns(ts'[u]) && ts'[u].rec < |rs'| && i < |rs'[ts'[u].rec].slot|
    ensures rs'[ts'[u].rec].slot[i] == a
  {
    assert ThreadOk(rs, u, ts[u]) && ThreadOk(rs, p, ts[p]) && Holds(ts, u, i, a);
  }

  lemma KeptAfter(rs: seq<Record>, ts: seq<Thread>, rs': seq<Record>, ts': seq<Thread>, p: nat, live: set<nat>,
      retired: set<nat>)
    requires Owned(rs, ts) && Steps(rs, ts, rs', ts', p) && Kept(rs, ts, live, retired) && HoldsNoMore(ts, ts', p)
    requires forall i: nat, a :: Holds(ts', p, i, a) ==> Owns(ts'[p]) && i < SLOTS && rs'[ts'[p].rec].slot[i] == a
    ensures Kept(rs', ts', live, retired)
  {
    forall u: nat, i: nat, a | Holds(ts', u, i, a)
      ensures Owns(ts'[u]) && ts'[u].rec < |rs'| && i < |rs'[ts'[u].rec].slot| && rs'[ts'[u].rec].slot[i] == a
      ensures a in live || a in retired
    {
      if u != p { OthersKept(rs, ts, rs', ts', p, u, i, a); } else { assert Holds(ts, p, i, a); }
    }
  }

  // The scans of the other threads go on.
  lemma OtherScans(rs: seq<Record>, ts: seq<Thread>, rs': seq<Record>, ts': seq<Thread>, p: nat)
    requires Owned(rs, ts) && Steps(rs, ts, rs', ts', p) && HoldsNoMore(ts, ts', p)
    requires forall q :: 0 <= q < |ts| ==> ScanOk(rs, ts, ts[q])
    ensures forall q :: 0 <= q < |ts| && q != p ==> ScanOk(rs', ts', ts'[q])
  {
    forall q | 0 <= q < |ts| && q != p ensures ScanOk(rs', ts', ts'[q]) {
      assert ThreadOk(rs, q, ts[q]) && ThreadOk(rs, p, ts[p]) && ScanOk(rs, ts, ts[q]);
      if ts[q].act.Scan? || ts[q].act.Sift? {
        assert rs'[ts[q].rec].retired == rs[ts[q].rec].retired;
        assert forall u: nat, i: nat, a :: Holds(ts', u, i, a) ==> Holds(ts, u, i, a) && ts'[u].rec == ts[u].rec;
      }
    }
  }

  // A step that validates, retires and frees nothing.
  lemma QuietStep(s: State, s': State, p: nat)
    requires Inv(s) && Steps(s.records, s.threads, s'.records, s'.threads, p) && HoldsNoMore(s.threads, s'.threads, p)
    requires s'.srcs == s.srcs && s'.live == s.live && s'.retired == s.retired
    requires Lists(s'.records, s'.threads, s'.retired)
    requires ThreadOk(s'.records, p, s'.threads[p]) && ScanOk(s'.records, s'.threads, s'.threads[p])
    requires forall i: nat, a :: Holds(s'.threads, p, i, a) ==>
               Owns(s'.threads[p]) && i < SLOTS && s'.records[s'.threads[p].rec].slot[i] == a
    ensures Inv(s')
  {
    OwnedAfter(s.records, s.threads, s'.records, s'.threads, p);
    KeptAfter(s.records, s.threads, s'.records, s'.threads, p, s.live, s.retired);
    OtherScans(s.records, s.threads, s'.records, s'.threads, p);
  }

  lemma PlainStep(s: State, s': State, p: nat)
    requires Inv(s) && Steps(s.records, s.threads, s'.records, s'.threads, p) && HoldsNoMore(s.threads, s'.threads, p)
    requires s'.srcs == s.srcs && s'.live == s.live && s'.retired == s.retired
    requires SameLists(s.records, s'.records, p) && !s.threads[p].act.Sift? && !s'.threads[p].act.Sift?
    requires ThreadOk(s'.records, p, s'.threads[p]) && ScanOk(s'.records, s'.threads, s'.threads[p])
    requires forall i: nat, a :: Holds(s'.threads, p, i, a) ==>
               Owns(s'.threads[p]) && i < SLOTS && s'.records[s'.threads[p].rec].slot[i] == a
    ensures Inv(s')
  {
    NoSiftLists(s.records, s.threads, s'.records, s'.threads, p, s.retired);
    QuietStep(s, s', p);
  }

  lemma AcquireKeeps(s: State, s': State, p: nat)
    requires Inv(s) && Acquire(s, s', p)
    ensures Inv(s')
  {
    assert ThreadOk(s.records, p, s.threads[p]);
    assert forall i: nat, a :: Holds(s'.threads, p, i, a) ==> Holds(s.threads, p, i, a);
    PlainStep(s, s', p);
  }

  lemma TakeRecordKeeps(s: State, s': State, p: nat)
    requires Inv(s) && TakeRecord(s, s', p)
    ensures Inv(s')
  {
    assert ThreadOk(s.records, p, s.threads[p]);
    assert forall i: nat, a :: Holds(s'.threads, p, i, a) ==> Holds(s.threads, p, i, a);
    PlainStep(s, s', p);
  }

  lemma LinkRecordKeeps(s: State, s': State, p: nat)
    requires Inv(s) && LinkRecord(s, s', p)
    ensures Inv(s')
  {
    assert ThreadOk(s.records, p, s.threads[p]);
    assert forall i: nat, a :: Holds(s'.threads, p, i, a) ==> Holds(s.threads, p, i, a);
    PlainStep(s, s', p);
  }

  lemma BeginExitKeeps(s: State, s': State, p: nat)
    requires Inv(s) && BeginExit(s, s', p)
    ensures Inv(s')
  {
    assert ThreadOk(s.records, p, s.threads[p]);
    assert forall i: nat, a :: Holds(s'.threads, p, i, a) ==> Holds(s.threads, p, i, a);
    PlainStep(s, s', p);
  }

  lemma DropSlotKeeps(s: State, s': State, p: nat)
    requires Inv(s) && DropSlot(s, s', p)
    ensures Inv(s')
  {
    assert ThreadOk(s.records, p, s.threads[p]);
    assert forall i: nat, a :: Holds(s'.threads, p, i, a) ==> Holds(s.threads, p, i, a);
    PlainStep(s, s', p);
  }

  lemma GiveUpKeeps(s: State, s': State, p: nat)
    requires Inv(s) && GiveUp(s, s', p)
    ensures Inv(s')
  {
    assert ThreadOk(s.records, p, s.threads[p]);
    assert forall i: nat, a :: Holds(s'.threads, p, i, a) ==> Holds(s.threads, p, i, a);
    PlainStep(s, s', p);
  }

  lemma PublishSlotKeeps(s: State, s': State, p: nat)
    requires Inv(s) && PublishSlot(s, s', p)
    ensures Inv(s')
  {
    assert ThreadOk(s.records, p, s.threads[p]);
    assert forall i: nat, a :: Holds(s'.threads, p, i, a) ==> Holds(s.threads, p, i, a);
    PlainStep(s, s', p);
  }

  lemma BeginProtectKeeps(s: State, s': State, p: nat, i: nat, x: nat)
    requires Inv(s) && BeginProtect(s, s', p, i, x)
    ensures Inv(s')
  {
    assert ThreadOk(s.records, p, s.threads[p]);
    assert forall i: nat, a :: Holds(s'.threads, p, i, a) ==> Holds(s.threads, p, i, a);
    PlainStep(s, s', p);
  }

  lemma ClearSlotKeeps(s: State, s': State, p: nat, i: nat)
    requires Inv(s) && ClearSlot(s, s', p, i)
    ensures Inv(s')
  {
    assert ThreadOk(s.records, p, s.threads[p]);
    assert forall i: nat, a :: Holds(s'.threads, p, i, a) ==> Holds(s.threads, p, i, a);
    PlainStep(s, s', p);
  }

  // What a scan has still to deal with is retired.
  lemma ListedIsRetired(s: State, q: nat, a: nat)
    requires Inv(s) && q < |s.threads| && (s.threads[q].act.Scan? || s.threads[q].act.Sift?)
    requires s.threads[q].rec < |s.records|
    requires ScanOk(s.records, s.threads, s.threads[q])
    requires a in if s.threads[q].act.Sift? then s.records[s.threads[q].rec].retired[s.threads[q].act.k..]
            else s.records[s.threads[q].rec].retired
    ensures a in s.retired
  {
    assert ThreadOk(s.records, q, s.threads[q]);
    var r := s.threads[q].rec;
    var w := Waiting(s.records, s.threads, r);
    assert a in w;
    var k :| 0 <= k < |w| && w[k] == a;
    assert InWaiting(s.records, s.threads, r, k, a);
  }

  // A node just validated is live, so no scan is about to free it.
  lemma ValidateKeeps(s: State, s': State, p: nat, i: nat, v: nat)
    requires Inv(s) && Mine(s, p) && s.threads[p].act.Validate? && i < SLOTS && s.threads[p].act.i == i
    requires s.threads[p].act.v == v
    requires v == 0 || v in s.live
    requires s' == s.(threads := s.threads[p := s.threads[p].(act := Ready, hold := s.threads[p].hold[i := v])])
    ensures Inv(s')
  {
    var rs, ts, ts' := s.records, s.threads, s'.threads;
    assert ThreadOk(rs, p, ts[p]);
    OwnedAfter(rs, ts, rs, ts', p);
    NoSiftLists(rs, ts, rs, ts', p, s.retired);
    forall u: nat, j: nat, a | Holds(ts', u, j, a)
      ensures Owns(ts'[u]) && ts'[u].rec < |rs| && j < |rs[ts'[u].rec].slot| && rs[ts'[u].rec].slot[j] == a
      ensures a in s.live || a in s.retired
    {
      assert (u == p && j == i) || Holds(ts, u, j, a);
    }
    forall q | 0 <= q < |ts| && q != p ensures ScanOk(rs, ts', ts'[q]) {
      ValidateScans(s, s', p, i, v, q);
    }
  }

  lemma ValidateScans(s: State, s': State, p: nat, i: nat, v: nat, q: nat)
    requires Inv(s) && Mine(s, p) && i < SLOTS && (v == 0 || v in s.live) && q < |s.threads| && q != p
    requires s' == s.(threads := s.threads[p := s.threads[p].(act := Ready, hold := s.threads[p].hold[i := v])])
    ensures ScanOk(s.records, s'.threads, s.threads[q])
  {
    var rs, ts, t := s.records, s.threads, s.threads[q];
    assert ThreadOk(rs, q, t) && ScanOk(rs, ts, t);
    if (t.act.Scan? || t.act.Sift?) && t.rec < |rs| {
      forall u: nat, j: nat, a | Holds(s'.threads, u, j, a)
        && (a in if t.act.Sift? then rs[t.rec].retired[t.act.k..] else rs[t.rec].retired)
        ensures a in t.act.held || (t.act.Scan? && Ahead(t.act.left, t.act.j, s'.threads[u].rec, j))
      {
        ListedIsRetired(s, q, a);
        assert Holds(ts, u, j, a);
      }
    }
  }

  lemma ReadAgainKeeps(s: State, s': State, p: nat)
    requires Inv(s) && ReadAgain(s, s', p)
    ensures Inv(s')
  {
    assert ThreadOk(s.records, p, s.threads[p]);
    var Validate(i, x, v) := s.threads[p].act;
    if s.srcs[x] == v {
      ValidateKeeps(s, s', p, i, v);
    } else {
      assert forall i: nat, a :: Holds(s'.threads, p, i, a) ==> Holds(s.threads, p, i, a);
      PlainStep(s, s', p);
    }
  }

  lemma SeenAll(s: State, s': State, p: nat)
    requires Inv(s) && ReadSlot(s, s', p) && s.threads[p].act.left == 0
    ensures Inv(s')
  {
    assert ThreadOk(s.records, p, s.threads[p]) && ScanOk(s.records, s.threads, s.threads[p]);
    assert forall u: nat, i: nat, a :: Holds(s'.threads, u, i, a) ==> Holds(s.threads, u, i, a);
    var r := s.threads[p].rec;
    assert s.records[r].retired[0..] == s.records[r].retired;
    SameWaitingLists(s.records, s.threads, s'.records, s'.threads, s.retired);
    QuietStep(s, s', p);
  }

  lemma ReadSlotKeeps(s: State, s': State, p: nat)
    requires Inv(s) && ReadSlot(s, s', p)
    ensures Inv(s')
  {
    if s.threads[p].act.left == 0 {
      SeenAll(s, s', p);
    } else {
      assert ThreadOk(s.records, p, s.threads[p]) && ScanOk(s.records, s.threads, s.threads[p]);
      assert forall u: nat, i: nat, a :: Holds(s'.threads, u, i, a) ==> Holds(s.threads, u, i, a);
      PlainStep(s, s', p);
    }
  }

  lemma KeepNodeWaits(s: State, s': State, p: nat)
    requires Owned(s.records, s.threads) && KeepNode(s, s', p)
    ensures SameWaiting(s.records, s.threads, s'.records, s'.threads)
  {
    assert ThreadOk(s.records, p, s.threads[p]);
    var list, k := s.records[s.threads[p].rec].retired, s.threads[p].act.k;
    assert list[k..] == [list[k]] + list[k + 1..];
  }

  lemma KeepNodeKeeps(s: State, s': State, p: nat)
    requires Inv(s) && KeepNode(s, s', p)
    ensures Inv(s')
  {
    assert ThreadOk(s.records, p, s.threads[p]) && ScanOk(s.records, s.threads, s.threads[p]);
    assert forall u: nat, i: nat, a :: Holds(s'.threads, u, i, a) ==> Holds(s.threads, u, i, a);
    KeepNodeWaits(s, s', p);
    SameWaitingLists(s.records, s.threads, s'.records, s'.threads, s.retired);
    QuietStep(s, s', p);
  }

  lemma EndScanKeeps(s: State, s': State, p: nat)
    requires Inv(s) && EndScan(s, s', p)
    ensures Inv(s')
  {
    assert ThreadOk(s.records, p, s.threads[p]) && ScanOk(s.records, s.threads, s.threads[p]);
    assert forall u: nat, i: nat, a :: Holds(s'.threads, u, i, a) ==> Holds(s.threads, u, i, a);
    EndScanWaits(s, s', p);
    SameWaitingLists(s.records, s.threads, s'.records, s'.threads, s.retired);
    QuietStep(s, s', p);
  }

  lemma EndScanWaits(s: State, s': State, p: nat)
    requires Owned(s.records, s.threads) && EndScan(s, s', p)
    ensures SameWaiting(s.records, s.threads, s'.records, s'.threads)
  {
    assert ThreadOk(s.records, p, s.threads[p]);
  }

  // One node goes from record r, at place m: what is at place k was at Place.
  function Place(r: nat, m: nat, q: nat, k: nat): nat {
    if q == r && k >= m then k + 1 else k
  }

  ghost predicate Removed(rs: seq<Record>, ts: seq<Thread>, ts': seq<Thread>, r: nat, m: nat) {
    forall q: nat, k: nat, b :: InWaiting(rs, ts', q, k, b) ==> InWaiting(rs, ts, q, Place(r, m, q, k), b)
  }

  lemma RemovedAt(rs: seq<Record>, ts: seq<Thread>, ts': seq<Thread>, r: nat, m: nat)
    requires r < |rs| && m < |Waiting(rs, ts, r)|
    requires Waiting(rs, ts', r) == Waiting(rs, ts, r)[..m] + Waiting(rs, ts, r)[m + 1..]
    requires forall q :: 0 <= q < |rs| && q != r ==> Waiting(rs, ts', q) == Waiting(rs, ts, q)
    ensures Removed(rs, ts, ts', r, m)
  {
    forall q: nat, k: nat, b | InWaiting(rs, ts', q, k, b) ensures InWaiting(rs, ts, q, Place(r, m, q, k), b) {
      if q == r {
        var list := Waiting(rs, ts, r);
        assert (list[..m] + list[m + 1..])[k] == list[Place(r, m, q, k)];
      }
    }
  }

  lemma ListsFree(rs: seq<Record>, ts: seq<Thread>, ts': seq<Thread>, r: nat, m: nat, a: nat, retired: set<nat>)
    requires Lists(rs, ts, retired) && InWaiting(rs, ts, r, m, a)
    requires Waiting(rs, ts', r) == Waiting(rs, ts, r)[..m] + Waiting(rs, ts, r)[m + 1..]
    requires forall q :: 0 <= q < |rs| && q != r ==> Waiting(rs, ts', q) == Waiting(rs, ts, q)
    ensures Lists(rs, ts', retired - {a})
  {
    forall b | b in retired && b != a ensures exists q: nat, k: nat :: InWaiting(rs, ts', q, k, b) {
      var q: nat, k: nat :| InWaiting(rs, ts, q, k, b);
      StillWaits(rs, ts, ts', r, m, a, q, k, b);
    }
    RemovedAt(rs, ts, ts', r, m);
    ListsFreeUnique(rs, ts, ts', r, m, a, retired);
  }

  lemma StillWaits(rs: seq<Record>, ts: seq<Thread>, ts': seq<Thread>, r: nat, m: nat, a: nat, q: nat, k: nat, b: nat)
    requires InWaiting(rs, ts, r, m, a) && InWaiting(rs, ts, q, k, b) && b != a
    requires Waiting(rs, ts', r) == Waiting(rs, ts, r)[..m] + Waiting(rs, ts, r)[m + 1..]
    requires q != r ==> Waiting(rs, ts', q) == Waiting(rs, ts, q)
    ensures InWaiting(rs, ts', q, if q == r && k > m then k - 1 else k, b)
  {}

  lemma ListsFreeUnique(rs: seq<Record>, ts: seq<Thread>, ts': seq<Thread>, r: nat, m: nat, a: nat, retired: set<nat>)
    requires Lists(rs, ts, retired) && InWaiting(rs, ts, r, m, a) && Removed(rs, ts, ts', r, m)
    ensures forall q: nat, k: nat, b :: InWaiting(rs, ts', q, k, b) ==> b in retired && b != a
    ensures forall q: nat, k: nat, o: nat, l: nat, b ::
              InWaiting(rs, ts', q, k, b) && InWaiting(rs, ts', o, l, b) ==> q == o && k == l
  {
    forall q: nat, k: nat, b | InWaiting(rs, ts', q, k, b) ensures b in retired && b != a {
      assert InWaiting(rs, ts, q, Place(r, m, q, k), b);
    }
    forall q: nat, k: nat, o: nat, l: nat, b | InWaiting(rs, ts', q, k, b) && InWaiting(rs, ts', o, l, b)
      ensures q == o && k == l
    {
      assert InWaiting(rs, ts, q, Place(r, m, q, k), b) && InWaiting(rs, ts, o, Place(r, m, o, l), b);
    }
  }

  lemma FreeNodeLists(s: State, s': State, p: nat)
    requires Inv(s) && FreeNode(s, s', p)
    ensures var a := s.records[s.threads[p].rec].retired[s.threads[p].act.k];
            a in s.retired && Lists(s.records, s'.threads, s.retired - {a})
  {
    assert ThreadOk(s.records, p, s.threads[p]) && ScanOk(s.records, s.threads, s.threads[p]);
    var t := s.threads[p];
    var list := s.records[t.rec].retired;
    var w := Waiting(s.records, s.threads, t.rec);
    assert w == t.act.keep + list[t.act.k..];
    assert InWaiting(s.records, s.threads, t.rec, |t.act.keep|, list[t.act.k]);
    assert Waiting(s.records, s'.threads, t.rec) == t.act.keep + list[t.act.k + 1..]
        == w[..|t.act.keep|] + w[|t.act.keep| + 1..];
    ListsFree(s.records, s.threads, s'.threads, t.rec, |t.act.keep|, list[t.act.k], s.retired);
  }

  // The node freed is retired, and no thread has it validated.
  lemma FreeNodeKeeps(s: State, s': State, p: nat)
    requires Inv(s) && FreeNode(s, s', p)
    ensures Inv(s')
    ensures var a := s.records[s.threads[p].rec].retired[s.threads[p].act.k];
            a in s.retired && forall u: nat, i: nat :: !Holds(s.threads, u, i, a)
  {
    assert ThreadOk(s.records, p, s.threads[p]) && ScanOk(s.records, s.threads, s.threads[p]);
    assert forall u: nat, i: nat, a :: Holds(s'.threads, u, i, a) ==> Holds(s.threads, u, i, a);
    FreeNodeLists(s, s', p);
    var a := s.records[s.threads[p].rec].retired[s.threads[p].act.k];
    assert a in s.records[s.threads[p].rec].retired[s.threads[p].act.k..];
    OwnedAfter(s.records, s.threads, s'.records, s'.threads, p);
    KeptAfter(s.records, s.threads, s'.records, s'.threads, p, s.live, s.retired);
    OtherScans(s.records, s.threads, s'.records, s'.threads, p);
  }

  // The lists after node a joins record r.
  lemma ListsRetire(rs: seq<Record>, ts: seq<Thread>, rs': seq<Record>, ts': seq<Thread>, r: nat, a: nat,
      retired: set<nat>)
    requires Lists(rs, ts, retired) && r < |rs| == |rs'| && a !in retired
    requires Waiting(rs', ts', r) == Waiting(rs, ts, r) + [a]
    requires forall q :: 0 <= q < |rs| && q != r ==> Waiting(rs', ts', q) == Waiting(rs, ts, q)
    ensures Lists(rs', ts', retired + {a})
  {
    forall b | b in retired ensures exists q: nat, k: nat :: InWaiting(rs', ts', q, k, b) {
      var q: nat, k: nat :| InWaiting(rs, ts, q, k, b);
      assert InWaiting(rs', ts', q, k, b);
    }
    assert InWaiting(rs', ts', r, |Waiting(rs, ts, r)|, a);
    forall q: nat, k: nat, b | InWaiting(rs', ts', q, k, b)
      ensures InWaiting(rs, ts, q, k, b) || (q == r && k == |Waiting(rs, ts, r)| && b == a)
    {}
  }

  lemma RetireNodeKeeps(s: State, s': State, p: nat, a: nat)
    requires Inv(s) && RetireNode(s, s', p, a)
    ensures Inv(s')
  {
    assert ThreadOk(s.records, p, s.threads[p]);
    assert forall u: nat, i: nat, b :: Holds(s'.threads, u, i, b) ==> Holds(s.threads, u, i, b);
    ListsRetire(s.records, s.threads, s'.records, s'.threads, s.threads[p].rec, a, s.retired);
    OwnedAfter(s.records, s.threads, s'.records, s'.threads, p);
    KeptAfter(s.records, s.threads, s'.records, s'.threads, p, s.live, s.retired);
    OtherScans(s.records, s.threads, s'.records, s'.threads, p);
  }

  lemma StepKeeps(s: State, s': State, p: nat)
    requires Inv(s) && Step(s, s', p)
    ensures Inv(s')
  {
    if {
      case Acquire(s, s', p) => AcquireKeeps(s, s', p);
      case TakeRecord(s, s', p) => TakeRecordKeeps(s, s', p);
      case LinkRecord(s, s', p) => LinkRecordKeeps(s, s', p);
      case BeginExit(s, s', p) => BeginExitKeeps(s, s', p);
      case DropSlot(s, s', p) => DropSlotKeeps(s, s', p);
      case GiveUp(s, s', p) => GiveUpKeeps(s, s', p);
      case exists i: nat, x: nat :: BeginProtect(s, s', p, i, x) =>
        var i: nat, x: nat :| BeginProtect(s, s', p, i, x);
        BeginProtectKeeps(s, s', p, i, x);
      case PublishSlot(s, s', p) => PublishSlotKeeps(s, s', p);
      case ReadAgain(s, s', p) => ReadAgainKeeps(s, s', p);
      case exists i: nat :: ClearSlot(s, s', p, i) =>
        var i: nat :| ClearSlot(s, s', p, i);
        ClearSlotKeeps(s, s', p, i);
      case exists a: nat :: RetireNode(s, s', p, a) =>
        var a: nat :| RetireNode(s, s', p, a);
        RetireNodeKeeps(s, s', p, a);
      case ReadSlot(s, s', p) => ReadSlotKeeps(s, s', p);
      case KeepNode(s, s', p) => KeepNodeKeeps(s, s', p);
      case FreeNode(s, s', p) => FreeNodeKeeps(s, s', p);
      case EndScan(s, s', p) => EndScanKeeps(s, s', p);
    }
  }

  lemma NextKeeps(s: State, s': State)
    requires Inv(s) && Next(s, s')
    ensures Inv(s')
  {
    if {
      case exists a: nat :: Allocate(s, s', a) =>
        var a: nat :| Allocate(s, s', a);
        AllocateKeeps(s, s', a);
      case exists x: nat, a: nat :: Store(s, s', x, a) =>
        var x: nat, a: nat :| Store(s, s', x, a);
        StoreKeeps(s, s', x, a);
      case exists p: nat :: Step(s, s', p) =>
        var p: nat :| Step(s, s', p);
        StepKeeps(s, s', p);
    }
  }

  lemma {:induction false} RunHolds(run: seq<State>, i: nat)
    requires IsRun(run) && i < |run|
    ensures Inv(run[i])
  {
    if i == 0 {
      InitHolds(run[0]);
    } else {
      RunHolds(run, i - 1);
      assert Next(run[i - 1], run[i]);
      NextKeeps(run[i - 1], run[i]);
    }
  }

  // ------------------------------------------------------------- main results

  ghost predicate Waits(s: State, a: nat) {
    exists r: nat, k: nat :: InWaiting(s.records, s.threads, r, k, a)
  }

  ghost predicate InSlot(rs: seq<Record>, r: nat, j: nat, a: nat) {
    r < |rs| && j < |rs[r].slot| && rs[r].slot[j] == a
  }

  // Between a validated protect and the clear, the node is in use and in its
  // slot.
  lemma HeldIsNotFreed(run: seq<State>, i: nat, u: nat, j: nat, a: nat)
    requires IsRun(run) && i < |run| && Holds(run[i].threads, u, j, a)
    ensures a in run[i].live || a in run[i].retired
    ensures Owns(run[i].threads[u]) && InSlot(run[i].records, run[i].threads[u].rec, j, a)
  {
    RunHolds(run, i);
    assert ThreadOk(run[i].records, u, run[i].threads[u]);
  }

  // ------------------------------------------------- a slot that is still set

  // What is in a slot of t's record is what t has validated there, or what it
  // is about to validate.
  ghost predicate Mirror(rs: seq<Record>, t: Thread) {
    Owns(t) && t.rec < |rs| ==>
      forall i :: 0 <= i < |t.hold| && i < |rs[t.rec].slot| ==>
        rs[t.rec].slot[i] == t.hold[i] || ((t.act.Publish? || t.act.Validate?) && t.act.i == i)
  }

  ghost predicate Mirrors(rs: seq<Record>, ts: seq<Thread>) {
    && (forall p :: 0 <= p < |ts| ==> Mirror(rs, ts[p]))
    && forall r :: 0 <= r < |rs| && !rs[r].active ==> rs[r].slot == [0, 0]
  }

  lemma MirrorsAfter(rs: seq<Record>, ts: seq<Thread>, rs': seq<Record>, ts': seq<Thread>, p: nat)
    requires Owned(rs, ts) && Mirrors(rs, ts) && Steps(rs, ts, rs', ts', p) && Mirror(rs', ts'[p])
    requires forall r :: 0 <= r < |rs'| && !rs'[r].active ==> rs'[r].slot == [0, 0]
    ensures Mirrors(rs', ts')
  {
    forall q | 0 <= q < |ts| && q != p ensures Mirror(rs', ts'[q]) {
      assert ThreadOk(rs, q, ts[q]) && ThreadOk(rs, p, ts[p]);
      assert Mirror(rs, ts[q]);
    }
  }

  lemma OwnerMirrors(s: State, s': State, p: nat)
    requires Inv(s) && Mirrors(s.records, s.threads) && OwnerStep(s, s', p)
    ensures Mirrors(s'.records, s'.threads)
  {
    assert ThreadOk(s.records, p, s.threads[p]) && Mirror(s.records, s.threads[p]);
    MirrorsAfter(s.records, s.threads, s'.records, s'.threads, p);
  }

  lemma SlotMirrors(s: State, s': State, p: nat)
    requires Inv(s) && Mirrors(s.records, s.threads) && SlotStep(s, s', p)
    ensures Mirrors(s'.records, s'.threads)
  {
    assert ThreadOk(s.records, p, s.threads[p]) && Mirror(s.records, s.threads[p]);
    MirrorsAfter(s.records, s.threads, s'.records, s'.threads, p);
  }

  lemma ScanMirrors(s: State, s': State, p: nat)
    requires Inv(s) && Mirrors(s.records, s.threads) && ScanStep(s, s', p)
    ensures Mirrors(s'.records, s'.threads)
  {
    assert ThreadOk(s.records, p, s.threads[p]) && Mirror(s.records, s.threads[p]);
    MirrorsAfter(s.records, s.threads, s'.records, s'.threads, p);
  }

  lemma NextMirrors(s: State, s': State)
    requires Inv(s) && Mirrors(s.records, s.threads) && Next(s, s')
    ensures Mirrors(s'.records, s'.threads)
  {
    if p: nat :| Step(s, s', p) {
      if OwnerStep(s, s', p) { OwnerMirrors(s, s', p); }
      else if SlotStep(s, s', p) { SlotMirrors(s, s', p); }
      else { ScanMirrors(s, s', p); }
    }
  }

  ghost predicate MirrorsAt(run: seq<State>, k: nat)
    requires k + 1 < |run|
  {
    Mirrors(run[k].records, run[k].threads) ==> Mirrors(run[k + 1].records, run[k + 1].threads)
  }

  lemma MirrorStep(run: seq<State>, k: nat)
    requires IsRun(run) && k + 1 < |run|
    ensures MirrorsAt(run, k)
  {
    if Mirrors(run[k].records, run[k].threads) {
      RunHolds(run, k);
      NextMirrors(run[k], run[k + 1]);
    }
  }

  lemma {:induction false} MirrorsOn(run: seq<State>, i: nat)
    requires i < |run| && Init(run[0]) && forall k: nat :: k + 1 < |run| ==> MirrorsAt(run, k)
    ensures Mirrors(run[i].records, run[i].threads)
  {
    if i > 0 {
      MirrorsOn(run, i - 1);
      assert MirrorsAt(run, i - 1);
    }
  }

  lemma RunMirrors(run: seq<State>, i: nat)
    requires IsRun(run) && i < |run|
    ensures Mirrors(run[i].records, run[i].threads)
  {
    forall k: nat | k + 1 < |run| ensures MirrorsAt(run, k) { MirrorStep(run, k); }
    MirrorsOn(run, i);
  }

  // A slot kept from one pop to the next and found to hold the head needs no
  // new validation: the node is held as by a protect that had just validated
  // it, and is in use.
  lemma SlotStillHolds(run: seq<State>, i: nat, u: nat, j: nat, x: nat)
    requires IsRun(run) && i < |run| && u < |run[i].threads| && run[i].threads[u].act.Ready? && x < |run[i].srcs|
    requires run[i].srcs[x] != 0 && InSlot(run[i].records, run[i].threads[u].rec, j, run[i].srcs[x])
    ensures Holds(run[i].threads, u, j, run[i].srcs[x]) && run[i].srcs[x] in run[i].live
  {
    RunHolds(run, i);
    RunMirrors(run, i);
    assert ThreadOk(run[i].records, u, run[i].threads[u]) && Mirror(run[i].records, run[i].threads[u]);
  }

  // After a clear the slot holds nothing, and what it held is not held by it.
  lemma ClearEmpties(run: seq<State>, k: nat, p: nat, i: nat, a: nat)
    requires IsRun(run) && k + 1 < |run| && ClearSlot(run[k], run[k + 1], p, i)
    ensures InSlot(run[k + 1].records, run[k + 1].threads[p].rec, i, 0) && !Holds(run[k + 1].threads, p, i, a)
  {
    RunMirrors(run, k + 1);
  }

  // ---------------------------------------------------------- who has a record

  // An active record is its owner's.
  ghost predicate Had(rs: seq<Record>, ts: seq<Thread>) {
    forall r :: 0 <= r < |rs| && rs[r].active ==>
      rs[r].owner < |ts| && Owns(ts[rs[r].owner]) && ts[rs[r].owner].rec == r
  }

  // What a step of p leaves alone: records others own, and the rest of them.
  lemma HadAfter(rs: seq<Record>, ts: seq<Thread>, rs': seq<Record>, ts': seq<Thread>, p: nat)
    requires Had(rs, ts) && p < |ts| == |ts'| && ts' == ts[p := ts'[p]] && |rs| <= |rs'|
    requires forall r :: 0 <= r < |rs'| && rs'[r].active ==>
               || (rs'[r].owner == p && Owns(ts'[p]) && ts'[p].rec == r)
               || (r < |rs| && rs[r].active && rs[r].owner == rs'[r].owner != p)
    ensures Had(rs', ts')
  {}

  lemma OwnerHad(s: State, s': State, p: nat)
    requires Inv(s) && Had(s.records, s.threads) && OwnerStep(s, s', p)
    ensures Had(s'.records, s'.threads)
  {
    assert ThreadOk(s.records, p, s.threads[p]);
    HadAfter(s.records, s.threads, s'.records, s'.threads, p);
  }

  lemma SlotHad(s: State, s': State, p: nat)
    requires Inv(s) && Had(s.records, s.threads) && SlotStep(s, s', p)
    ensures Had(s'.records, s'.threads)
  {
    assert ThreadOk(s.records, p, s.threads[p]);
    HadAfter(s.records, s.threads, s'.records, s'.threads, p);
  }

  lemma ScanHad(s: State, s': State, p: nat)
    requires Inv(s) && Had(s.records, s.threads) && ScanStep(s, s', p)
    ensures Had(s'.records, s'.threads)
  {
    assert ThreadOk(s.records, p, s.threads[p]);
    HadAfter(s.records, s.threads, s'.records, s'.threads, p);
  }

  lemma NextHad(s: State, s': State)
    requires Inv(s) && Had(s.records, s.threads) && Next(s, s')
    ensures Had(s'.records, s'.threads)
  {
    if p: nat :| Step(s, s', p) {
      if OwnerStep(s, s', p) { OwnerHad(s, s', p); }
      else if SlotStep(s, s', p) { SlotHad(s, s', p); }
      else { ScanHad(s, s', p); }
    }
  }

  ghost predicate HadAt(run: seq<State>, k: nat)
    requires k + 1 < |run|
  {
    Had(run[k].records, run[k].threads) ==> Had(run[k + 1].records, run[k + 1].threads)
  }

  lemma HadStep(run: seq<State>, k: nat)
    requires IsRun(run) && k + 1 < |run|
    ensures HadAt(run, k)
  {
    if Had(run[k].records, run[k].threads) {
      RunHolds(run, k);
      NextHad(run[k], run[k + 1]);
    }
  }

  lemma {:induction false} HadOn(run: seq<State>, i: nat)
    requires i < |run| && Init(run[0]) && forall k: nat :: k + 1 < |run| ==> HadAt(run, k)
    ensures Had(run[i].records, run[i].threads)
  {
    if i > 0 {
      HadOn(run, i - 1);
      assert HadAt(run, i - 1);
    }
  }

  // A record is active exactly while a thread has it, and then one alone.
  lemma ActiveExactly(run: seq<State>, i: nat, r: nat)
    requires IsRun(run) && i < |run| && r < |run[i].records|
    ensures run[i].records[r].active <==>
              exists p :: 0 <= p < |run[i].threads| && Owns(run[i].threads[p]) && run[i].threads[p].rec == r
    ensures forall p, q :: 0 <= p < q < |run[i].threads| && Owns(run[i].threads[p]) && Owns(run[i].threads[q]) ==>
              run[i].threads[p].rec != run[i].threads[q].rec
  {
    forall k: nat | k + 1 < |run| ensures HadAt(run, k) { HadStep(run, k); }
    HadOn(run, i);
    RunHolds(run, i);
    forall p | 0 <= p < |run[i].threads| ensures ThreadOk(run[i].records, p, run[i].threads[p]) {}
  }

  // n steps of its own take thread p from s to t.
  ghost predicate Alone(s: State, t: State, p: nat, n: nat)
    decreases n
  {
    if n == 0 then s == t else exists r :: OwnerStep(s, r, p) && Alone(r, t, p, n - 1)
  }

  lemma First(s: State, r: State, t: State, p: nat, n: nat)
    requires OwnerStep(s, r, p) && Alone(r, t, p, n)
    ensures Alone(s, t, p, n + 1)
  {}

  // Of the first k records one is free.
  predicate FreeBelow(rs: seq<Record>, k: nat) {
    exists r :: 0 <= r < |rs| && r < k && !rs[r].active
  }

  lemma {:induction false} WalkAlone(s: State, p: nat, k: nat) returns (t: State, n: nat)
    requires p < |s.threads| && s.threads[p].act == Walk(k) && k <= |s.records|
    ensures Alone(s, t, p, n) && p < |t.threads| && t.threads[p].act.Ready?
    ensures |t.records| == |s.records| + if FreeBelow(s.records, k) then 0 else 1
    decreases k
  {
    if k == 0 {
      var s1 := Goes(s, p, Link(|s.records|));
      assert Acquire(s, s1, p);
      t := s1.(records := s.records + [Record([0, 0], true, p, [])],
               threads := s.threads[p := Thread(Ready, |s.records|, s.threads[p].hold)]);
      assert LinkRecord(s1, t, p);
      First(s1, t, t, p, 0);
      First(s, s1, t, p, 1);
      n := 2;
    } else if s.records[k - 1].active {
      var s1 := Goes(s, p, Walk(k - 1));
      assert Acquire(s, s1, p);
      t, n := WalkAlone(s1, p, k - 1);
      First(s, s1, t, p, n);
      n := n + 1;
    } else {
      var s1 := Goes(s, p, Take(k - 1));
      assert Acquire(s, s1, p);
      t := s1.(records := s.records[k - 1 := s.records[k - 1].(active := true, owner := p)],
               threads := s.threads[p := Thread(Ready, k - 1, s.threads[p].hold)]);
      assert TakeRecord(s1, t, p);
      First(s1, t, t, p, 0);
      First(s, s1, t, p, 1);
      n := 2;
    }
  }

  // A thread that takes a record and runs alone has one in the end: one that was
  // given up, if there is any, and a new one only if there is none.
  lemma TakesGivenUp(s: State, p: nat) returns (t: State, n: nat)
    requires p < |s.threads| && s.threads[p].act.Out?
    ensures Alone(s, t, p, n) && p < |t.threads| && t.threads[p].act.Ready?
    ensures |t.records| == |s.records| + if FreeBelow(s.records, |s.records|) then 0 else 1
  {
    var s1 := Goes(s, p, Walk(|s.records|));
    assert Acquire(s, s1, p);
    t, n := WalkAlone(s1, p, |s.records|);
    First(s, s1, t, p, n);
    n := n + 1;
  }

  function TakingRank(act: Act): nat {
    match act
    case Walk(k) => 2 * k + 2
    case Take(k) => 2 * k + 3
    case Link(_) => 1
    case _ => 0
  }

  // Each step of its own towards a record gives it one or lowers its rank, but
  // for the link lost to another, which is tried again.
  lemma TakingEnds(s: State, s': State, p: nat)
    requires (Acquire(s, s', p) || TakeRecord(s, s', p) || LinkRecord(s, s', p)) && !s.threads[p].act.Out?
    ensures p < |s.threads| == |s'.threads|
    ensures || s'.threads[p].act.Ready? || TakingRank(s'.threads[p].act) < TakingRank(s.threads[p].act)
            || (s.threads[p].act.Link? && s'.threads[p].act == Link(|s'.records|))
  {}

  // ------------------------------------------------------------ what is freed

  // Every free is of a retired node that no thread has validated and no
  // shared pointer holds, and the node then waits in no list: it is not freed
  // again before it is allocated and retired anew.
  lemma FreedOnce(run: seq<State>, i: nat, p: nat, a: nat)
    requires IsRun(run) && i + 1 < |run| && FreeNode(run[i], run[i + 1], p)
    requires a == run[i].records[run[i].threads[p].rec].retired[run[i].threads[p].act.k]
    ensures a in run[i].retired && a !in run[i].srcs && (forall u: nat, j: nat :: !Holds(run[i].threads, u, j, a))
    ensures a !in run[i + 1].live && a !in run[i + 1].retired && !Waits(run[i + 1], a)
  {
    RunHolds(run, i);
    RunHolds(run, i + 1);
    FreeNodeKeeps(run[i], run[i + 1], p);
  }

  // Nothing retired is lost, and nothing waits twice, whoever owns the records.
  lemma RetiredWaits(run: seq<State>, i: nat, a: nat)
    requires IsRun(run) && i < |run|
    ensures a in run[i].retired <==> Waits(run[i], a)
    ensures forall r: nat, k: nat, q: nat, l: nat ::
              && InWaiting(run[i].records, run[i].threads, r, k, a)
              && InWaiting(run[i].records, run[i].threads, q, l, a) ==>
                r == q && k == l
  {
    RunHolds(run, i);
  }

  // ------------------------------------------------------------ what scans keep

  ghost predicate Scans(t: Thread) {
    t.act.Scan? || t.act.Sift?
  }

  // State i is in the scan thread p is in at j, and node a is in a slot there.
  ghost predicate SeenDuring(run: seq<State>, i: nat, j: nat, p: nat, a: nat) {
    && i <= j < |run| && (exists r: nat, l: nat :: InSlot(run[i].records, r, l, a))
    && forall k :: i <= k <= j ==> p < |run[k].threads| && Scans(run[k].threads[p])
  }

  lemma OthersHeld(s: State, s': State, p: nat, q: nat)
    requires (OwnerStep(s, s', q) || SlotStep(s, s', q)) && p < |s'.threads| && Scans(s'.threads[p])
    ensures p < |s.threads| && (s'.threads[p].act.held == {} || s'.threads[p] == s.threads[p])
  {}

  lemma ScanHeld(s: State, s': State, p: nat, q: nat, a: nat)
    requires ScanStep(s, s', q) && p < |s'.threads| && Scans(s'.threads[p]) && a in s'.threads[p].act.held
    ensures p < |s.threads| && Scans(s.threads[p])
    ensures a in s.threads[p].act.held || exists r: nat, l: nat :: InSlot(s.records, r, l, a)
  {
    if q == p && ReadSlot(s, s', p) && s.threads[p].act.left > 0 {
      assert a in s.threads[p].act.held || InSlot(s.records, s.threads[p].act.left - 1, s.threads[p].act.j, a);
    }
  }

  lemma HeldStep(s: State, s': State, p: nat, a: nat)
    requires Next(s, s') && p < |s'.threads| && Scans(s'.threads[p]) && a in s'.threads[p].act.held
    ensures p < |s.threads| && Scans(s.threads[p])
    ensures a in s.threads[p].act.held || exists r: nat, l: nat :: InSlot(s.records, r, l, a)
  {
    if exists q: nat :: Step(s, s', q) {
      var q: nat :| Step(s, s', q);
      if ScanStep(s, s', q) { ScanHeld(s, s', p, q, a); } else { OthersHeld(s, s', p, q); }
    }
  }

  // A node a scan keeps was in a slot at some instant of that scan.
  lemma {:induction false} KeptWasInSlot(run: seq<State>, j: nat, p: nat, a: nat)
    requires IsRun(run) && j < |run| && p < |run[j].threads| && Scans(run[j].threads[p])
    requires a in run[j].threads[p].act.held
    ensures exists i: nat :: SeenDuring(run, i, j, p, a)
  {
    assert j > 0;
    assert Next(run[j - 1], run[j]);
    HeldStep(run[j - 1], run[j], p, a);
    if a in run[j - 1].threads[p].act.held {
      KeptWasInSlot(run, j - 1, p, a);
      var i: nat :| SeenDuring(run, i, j - 1, p, a);
      assert SeenDuring(run, i, j, p, a);
    } else {
      assert SeenDuring(run, j - 1, j, p, a);
    }
  }

  // ------------------------------------------------------ how many nodes wait

  // The most nodes that wait in a record with no scan under way: too few to
  // begin one, or as many as there are slots to hold them.
  function Most(records: nat): nat {
    if SLOTS * records < SCAN_AT then SCAN_AT - 1 else SLOTS * records
  }

  ghost predicate ScanCount(t: Thread, records: nat) {
    && (t.act.Scan? && t.act.left <= records ==> |t.act.held| <= SLOTS * (records - t.act.left) + t.act.j)
    && (t.act.Scan? && t.act.left == 0 ==> t.act.j == 0)
    && (t.act.Sift? ==> |t.act.held| <= SLOTS * records)
  }

  ghost predicate Scanned(rs: seq<Record>, ts: seq<Thread>, r: nat)
    requires r < |rs|
  {
    rs[r].active && rs[r].owner < |ts| && Scans(ts[rs[r].owner]) && ts[rs[r].owner].rec == r
  }

  ghost predicate Bounded(rs: seq<Record>, ts: seq<Thread>) {
    && (forall p :: 0 <= p < |ts| ==> ScanCount(ts[p], |rs|))
    && forall r :: 0 <= r < |rs| ==>
         |rs[r].retired| <= Most(|rs|) + if Scanned(rs, ts, r) then 1 else 0
  }

  lemma {:induction false} DistinctFits(keep: seq<nat>, held: set<nat>)
    requires forall k :: 0 <= k < |keep| ==> keep[k] in held
    requires forall k, l :: 0 <= k < l < |keep| ==> keep[k] != keep[l]
    ensures |keep| <= |held|
  {
    if keep != [] {
      var n := |keep| - 1;
      DistinctFits(keep[..n], held - {keep[n]});
    }
  }

  lemma KeepFits(s: State, p: nat)
    requires Inv(s) && Bounded(s.records, s.threads) && Mine(s, p) && s.threads[p].act.Sift?
    ensures |s.threads[p].act.keep| <= SLOTS * |s.records|
  {
    var t := s.threads[p];
    assert ThreadOk(s.records, p, t) && ScanOk(s.records, s.threads, t) && ScanCount(t, |s.records|);
    forall k, l | 0 <= k < l < |t.act.keep| ensures t.act.keep[k] != t.act.keep[l] {
      assert InWaiting(s.records, s.threads, t.rec, k, t.act.keep[k]);
      assert InWaiting(s.records, s.threads, t.rec, l, t.act.keep[l]);
    }
    DistinctFits(t.act.keep, t.act.held);
  }

  lemma BoundedAfter(rs: seq<Record>, ts: seq<Thread>, rs': seq<Record>, ts': seq<Thread>, p: nat)
    requires Owned(rs, ts) && Bounded(rs, ts) && Steps(rs, ts, rs', ts', p) && ScanCount(ts'[p], |rs'|)
    requires Scans(ts[p]) && !Scans(ts'[p]) ==> |rs'[ts[p].rec].retired| <= Most(|rs|)
    requires Owns(ts[p]) ==>
               |rs'[ts[p].rec].retired| <= Most(|rs|) + if Scans(ts'[p]) && ts'[p].rec == ts[p].rec then 1 else 0
    requires Scans(ts'[p]) ==>
               Owns(ts[p]) && ts'[p].rec == ts[p].rec && rs'[ts[p].rec].active && rs'[ts[p].rec].owner == p
    requires forall r :: |rs| <= r < |rs'| ==> rs'[r].retired == []
    ensures Bounded(rs', ts')
  {
    assert ThreadOk(rs, p, ts[p]);
    forall q | 0 <= q < |ts| ensures ScanCount(ts'[q], |rs'|) {
      assert ThreadOk(rs, q, ts[q]) && ScanCount(ts[q], |rs|);
    }
    forall r | 0 <= r < |rs| ensures |rs'[r].retired| <= Most(|rs'|) + if Scanned(rs', ts', r) then 1 else 0 {
      if !(Owns(ts[p]) && r == ts[p].rec) && Scanned(rs, ts, r) {
        assert Scanned(rs', ts', r);
      }
    }
  }

  lemma OwnerBounded(s: State, s': State, p: nat)
    requires Inv(s) && Bounded(s.records, s.threads) && OwnerStep(s, s', p)
    ensures Bounded(s'.records, s'.threads)
  {
    assert ThreadOk(s.records, p, s.threads[p]);
    BoundedAfter(s.records, s.threads, s'.records, s'.threads, p);
  }

  lemma SlotBounded(s: State, s': State, p: nat)
    requires Inv(s) && Bounded(s.records, s.threads) && SlotStep(s, s', p)
    ensures Bounded(s'.records, s'.threads)
  {
    assert ThreadOk(s.records, p, s.threads[p]);
    BoundedAfter(s.records, s.threads, s'.records, s'.threads, p);
  }

  lemma ScanBounded(s: State, s': State, p: nat)
    requires Inv(s) && Bounded(s.records, s.threads) && ScanStep(s, s', p)
    ensures Bounded(s'.records, s'.threads)
  {
    assert ThreadOk(s.records, p, s.threads[p]) && ScanCount(s.threads[p], |s.records|);
    var r := s.threads[p].rec;
    assert |s.records[r].retired| <= Most(|s.records|) + if Scanned(s.records, s.threads, r) then 1 else 0;
    if EndScan(s, s', p) { KeepFits(s, p); }
    if ReadSlot(s, s', p) && s.threads[p].act.left > 0 {
      assert |With(s.threads[p].act.held, s.records[s.threads[p].act.left - 1].slot[s.threads[p].act.j])| <=
        |s.threads[p].act.held| + 1;
    }
    assert ScanCount(s'.threads[p], |s'.records|);
    BoundedAfter(s.records, s.threads, s'.records, s'.threads, p);
  }

  lemma BoundedStep(s: State, s': State)
    requires Inv(s) && Bounded(s.records, s.threads) && Next(s, s')
    ensures Bounded(s'.records, s'.threads)
  {
    if exists p: nat :: Step(s, s', p) {
      var p: nat :| Step(s, s', p);
      if {
        case OwnerStep(s, s', p) => OwnerBounded(s, s', p);
        case SlotStep(s, s', p) => SlotBounded(s, s', p);
        case ScanStep(s, s', p) => ScanBounded(s, s', p);
      }
    }
  }

  ghost predicate BoundedAt(run: seq<State>, k: nat)
    requires k + 1 < |run|
  {
    Bounded(run[k].records, run[k].threads) ==> Bounded(run[k + 1].records, run[k + 1].threads)
  }

  lemma BoundedStepAt(run: seq<State>, k: nat)
    requires IsRun(run) && k + 1 < |run|
    ensures BoundedAt(run, k)
  {
    if Bounded(run[k].records, run[k].threads) {
      RunHolds(run, k);
      BoundedStep(run[k], run[k + 1]);
    }
  }

  lemma {:induction false} BoundedOn(run: seq<State>, i: nat)
    requires i < |run| && Init(run[0]) && forall k: nat :: k + 1 < |run| ==> BoundedAt(run, k)
    ensures Bounded(run[i].records, run[i].threads)
  {
    if i > 0 {
      BoundedOn(run, i - 1);
      assert BoundedAt(run, i - 1);
    }
  }

  lemma RunBounded(run: seq<State>, i: nat)
    requires IsRun(run) && i < |run|
    ensures Bounded(run[i].records, run[i].threads)
  {
    forall k: nat | k + 1 < |run| ensures BoundedAt(run, k) { BoundedStepAt(run, k); }
    BoundedOn(run, i);
  }

  // In every state at most Most nodes wait in a record, and one more during
  // its own scan.
  lemma WaitingBounded(run: seq<State>, i: nat, r: nat)
    requires IsRun(run) && i < |run| && r < |run[i].records|
    ensures |run[i].records[r].retired| <= Most(|run[i].records|) + 1
    ensures !Scanned(run[i].records, run[i].threads, r) ==> |run[i].records[r].retired| <= Most(|run[i].records|)
  {
    RunBounded(run, i);
  }
}
