/** The threads of one entry of the census table, noted by any number of threads
    at once (note_in of tools/census/threadcensus.c): each finds itself among
    the owners or claims the next slot with a compare-and-swap, and then counts
    it. One step is one access to shared memory. */
module CensusOwners {
  import opened Basics
  import opened Census

  datatype Stage =
    | Outside
    | ReadCount                  // about to read nowners
    | Scan(n: nat, i: nat)       // about to read slot i of the first n
    | ReadAgain                  // not among them; about to read nowners again
    | Claim(n: nat)              // about to claim slot n
    | Bump(n: nat)               // has slot n; about to count it
    | Over                       // no slot left; about to say so
    | Wait(n: nat)               // slot n was taken; waits until it is counted

  // owners: thread t writes t + 1, and 0 is a free slot. noted (history): the
  // threads that have begun to note an event.
  datatype State = State(locks: nat, owners: seq<nat>, nowners: nat, threads: seq<Stage>, noted: set<nat>)

  ghost predicate Init(s: State) {
    && s.locks == 0 && s.nowners == 0 && s.noted == {}
    && |s.owners| == MAX_OWNERS && (forall i :: 0 <= i < MAX_OWNERS ==> s.owners[i] == 0)
    && forall t :: 0 <= t < |s.threads| ==> s.threads[t] == Outside
  }

  function Goes(s: State, t: nat, at: Stage): State
    requires t < |s.threads|
  {
    s.(threads := s.threads[t := at])
  }

  // The event is counted.
  ghost predicate Begin(s: State, s': State, t: nat) {
    && t < |s.threads| && s.threads[t].Outside?
    && s' == Goes(s.(locks := s.locks + 1, noted := s.noted + {t + 1}), t, ReadCount)
  }

  ghost predicate Look(s: State, s': State, t: nat) {
    && t < |s.threads| && |s.owners| == MAX_OWNERS
    && match s.threads[t]
       case ReadCount => s' == Goes(s, t, Scan(s.nowners, 0))
       case Scan(n, i) =>
         if i >= n || i >= MAX_OWNERS then s' == Goes(s, t, ReadAgain)
         else s' == Goes(s, t, if s.owners[i] == t + 1 then Outside else Scan(n, i + 1))
       case ReadAgain =>
         s' == Goes(s, t, if s.nowners > MAX_OWNERS then Outside
                          else if s.nowners == MAX_OWNERS then Over else Claim(s.nowners))
       case Wait(n) => s' == Goes(s, t, if s.nowners == n then Wait(n) else ReadAgain)
       case _ => false
  }

  // The compare-and-swap.
  ghost predicate ClaimSlot(s: State, s': State, t: nat) {
    && t < |s.threads| && s.threads[t].Claim? && s.threads[t].n < |s.owners|
    && var n := s.threads[t].n;
       if s.owners[n] == 0 then s' == Goes(s.(owners := s.owners[n := t + 1]), t, Bump(n))
       else s' == Goes(s, t, if s.owners[n] == t + 1 then Outside else Wait(n))
  }

  ghost predicate Store(s: State, s': State, t: nat) {
    && t < |s.threads|
    && match s.threads[t]
       case Bump(n) => s' == Goes(s.(nowners := n + 1), t, Outside)
       case Over => s' == Goes(s.(nowners := MAX_OWNERS + 1), t, Outside)
       case _ => false
  }

  ghost predicate Step(s: State, s': State, t: nat) {
    Begin(s, s', t) || Look(s, s', t) || ClaimSlot(s, s', t) || Store(s, s', t)
  }

  ghost predicate Next(s: State, s': State) {
    exists t: nat :: Step(s, s', t)
  }

  ghost predicate IsRun(run: seq<State>) {
    && |run| > 0 && Init(run[0])
    && forall i :: 0 <= i < |run| - 1 ==> Next(run[i], run[i + 1])
  }

  // ------------------------------------------------------------- invariant

  // The slots counted are taken, by different threads; the next one is taken
  // exactly while the thread that took it is about to count it; the rest are
  // free.
  ghost predicate SlotsOk(owners: seq<nat>, nowners: nat, threads: seq<Stage>, noted: set<nat>) {
    && |owners| == MAX_OWNERS && nowners <= MAX_OWNERS + 1
    && (forall i :: 0 <= i < MAX_OWNERS ==>
          && (i < nowners ==> owners[i] != 0) && (i > nowners ==> owners[i] == 0)
          && (owners[i] != 0 ==> owners[i] in noted && owners[i] <= |threads|)
          && (i == nowners && owners[i] != 0 ==> threads[owners[i] - 1] == Bump(i)))
    && (forall i, j :: 0 <= i < j < MAX_OWNERS && owners[i] != 0 ==> owners[i] != owners[j])
    && (nowners > MAX_OWNERS ==> exists x :: x in noted && x !in owners)
  }

  ghost predicate StageOk(owners: seq<nat>, nowners: nat, noted: set<nat>, t: nat, at: Stage) {
    && (!at.Outside? ==> t + 1 in noted)
    && match at
       case Outside => t + 1 in noted ==> t + 1 in owners || nowners > MAX_OWNERS
       case ReadCount => true
       case Scan(n, i) => n <= nowners && forall j :: 0 <= j < |owners| && owners[j] == t + 1 ==> i <= j < n
       case ReadAgain => t + 1 !in owners
       case Claim(n) => t + 1 !in owners && n <= nowners && n < MAX_OWNERS
       case Bump(n) => n == nowners < MAX_OWNERS == |owners| && owners[n] == t + 1
       case Over => t + 1 !in owners && nowners >= MAX_OWNERS
       case Wait(n) => t + 1 !in owners && n <= nowners && n < MAX_OWNERS == |owners| && owners[n] != 0
  }

  ghost predicate Inv(s: State) {
    && SlotsOk(s.owners, s.nowners, s.threads, s.noted)
    && (forall x :: x in s.noted ==> 0 < x <= |s.threads|)
    && forall t :: 0 <= t < |s.threads| ==> StageOk(s.owners, s.nowners, s.noted, t, s.threads[t])
  }

  lemma BeginKeeps(s: State, s': State, t: nat)
    requires Inv(s) && Begin(s, s', t)
    ensures Inv(s')
  {
    if s.nowners > MAX_OWNERS {
      var x :| x in s.noted && x !in s.owners;
      assert x in s'.noted && x !in s'.owners;
    }
    forall u | 0 <= u < |s.threads| && u != t ensures StageOk(s'.owners, s'.nowners, s'.noted, u, s.threads[u]) {
      assert StageOk(s.owners, s.nowners, s.noted, u, s.threads[u]);
    }
  }

  // A step of t alone, which was not about to count its slot.
  lemma GoesKeeps(s: State, t: nat, at: Stage)
    requires Inv(s) && t < |s.threads| && !s.threads[t].Bump? && StageOk(s.owners, s.nowners, s.noted, t, at)
    ensures Inv(Goes(s, t, at))
  {}

  // A thread that is not about to count its slot has it counted.
  lemma OwnCounted(s: State, t: nat, j: nat)
    requires Inv(s) && t < |s.threads| && !s.threads[t].Bump? && j < MAX_OWNERS && s.owners[j] == t + 1
    ensures j < s.nowners
  {}

  lemma ScanKeeps(s: State, s': State, t: nat)
    requires Inv(s) && Look(s, s', t) && (s.threads[t].ReadCount? || s.threads[t].Scan?)
    ensures Inv(s')
  {
    assert StageOk(s.owners, s.nowners, s.noted, t, s.threads[t]);
    forall j | 0 <= j < MAX_OWNERS && s.owners[j] == t + 1 ensures j < s.nowners { OwnCounted(s, t, j); }
    GoesKeeps(s, t, s'.threads[t]);
  }

  lemma LookKeeps(s: State, s': State, t: nat)
    requires Inv(s) && Look(s, s', t)
    ensures Inv(s')
  {
    assert StageOk(s.owners, s.nowners, s.noted, t, s.threads[t]);
    if s.threads[t].ReadCount? || s.threads[t].Scan? { ScanKeeps(s, s', t); } else { GoesKeeps(s, t, s'.threads[t]); }
  }

  lemma ClaimedSlots(s: State, s': State, t: nat)
    requires Inv(s) && ClaimSlot(s, s', t) && s'.threads[t].Bump?
    ensures SlotsOk(s'.owners, s'.nowners, s'.threads, s'.noted) && s.threads[t].n == s.nowners
  {
    assert StageOk(s.owners, s.nowners, s.noted, t, s.threads[t]);
  }

  lemma ClaimedStages(s: State, s': State, t: nat, u: nat)
    requires Inv(s) && ClaimSlot(s, s', t) && s'.threads[t].Bump? && s.threads[t].n == s.nowners
    requires u < |s.threads| && u != t
    ensures StageOk(s'.owners, s'.nowners, s'.noted, u, s.threads[u])
  {
    assert StageOk(s.owners, s.nowners, s.noted, u, s.threads[u]);
    if u + 1 in s.owners {
      var j :| 0 <= j < |s.owners| && s.owners[j] == u + 1;
      assert s'.owners[j] == u + 1;
    }
  }

  lemma ClaimSlotKeeps(s: State, s': State, t: nat)
    requires Inv(s) && ClaimSlot(s, s', t)
    ensures Inv(s')
  {
    assert StageOk(s.owners, s.nowners, s.noted, t, s.threads[t]);
    if s'.threads[t].Bump? {
      ClaimedSlots(s, s', t);
      forall u: nat | u < |s.threads| && u != t ensures StageOk(s'.owners, s'.nowners, s'.noted, u, s.threads[u]) {
        ClaimedStages(s, s', t, u);
      }
    } else {
      GoesKeeps(s, t, s'.threads[t]);
    }
  }

  lemma StoreKeeps(s: State, s': State, t: nat)
    requires Inv(s) && Store(s, s', t)
    ensures Inv(s')
  {
    assert StageOk(s.owners, s.nowners, s.noted, t, s.threads[t]);
    if s.threads[t].Over? {
      assert t + 1 in s'.noted && t + 1 !in s'.owners;
    }
    forall u | 0 <= u < |s.threads| && u != t ensures StageOk(s'.owners, s'.nowners, s'.noted, u, s.threads[u]) {
      assert StageOk(s.owners, s.nowners, s.noted, u, s.threads[u]);
    }
  }

  lemma {:induction false} RunHolds(run: seq<State>, i: nat)
    requires IsRun(run) && i < |run|
    ensures Inv(run[i])
  {
    if i > 0 {
      RunHolds(run, i - 1);
      assert Next(run[i - 1], run[i]);
      var t: nat :| Step(run[i - 1], run[i], t);
      if {
        case Begin(run[i - 1], run[i], t) => BeginKeeps(run[i - 1], run[i], t);
        case Look(run[i - 1], run[i], t) => LookKeeps(run[i - 1], run[i], t);
        case ClaimSlot(run[i - 1], run[i], t) => ClaimSlotKeeps(run[i - 1], run[i], t);
        case Store(run[i - 1], run[i], t) => StoreKeeps(run[i - 1], run[i], t);
      }
    }
  }

  // ----------------------------------------------------------- who has noted

  // Thread t begins to note an event.
  ghost predicate Notes(s: State, s': State, t: nat) {
    t < |s.threads| == |s'.threads| && s.threads[t].Outside? && !s'.threads[t].Outside?
  }

  ghost predicate OneNotes(s: State, s': State) {
    exists t: nat :: Notes(s, s', t)
  }

  ghost function Noting(s: State, s': State): set<nat> {
    set t: nat | t < |s.threads| && Notes(s, s', t) :: t + 1
  }

  // How many events have been noted by state n of the run, and by whom.
  ghost function Events(run: seq<State>, n: nat): nat
    requires n < |run|
  {
    if n == 0 then 0 else Events(run, n - 1) + if OneNotes(run[n - 1], run[n]) then 1 else 0
  }

  ghost function Noters(run: seq<State>, n: nat): set<nat>
    requires n < |run|
  {
    if n == 0 then {} else Noters(run, n - 1) + Noting(run[n - 1], run[n])
  }

  ghost predicate Counted(s: State, s': State) {
    s'.locks == s.locks + (if OneNotes(s, s') then 1 else 0) && s'.noted == s.noted + Noting(s, s')
  }

  lemma StepCounted(s: State, s': State, t: nat)
    requires Step(s, s', t)
    ensures Counted(s, s')
  {
    assert forall u: nat :: Notes(s, s', u) ==> u == t;
    if Begin(s, s', t) { assert Notes(s, s', t); } else { assert !Notes(s, s', t); }
  }

  ghost predicate CountedAt(run: seq<State>, k: nat)
    requires k + 1 < |run|
  {
    Counted(run[k], run[k + 1])
  }

  lemma RunCounted(run: seq<State>, k: nat)
    requires IsRun(run) && k + 1 < |run|
    ensures CountedAt(run, k)
  {
    assert Next(run[k], run[k + 1]);
    var t: nat :| Step(run[k], run[k + 1], t);
    StepCounted(run[k], run[k + 1], t);
  }

  lemma {:induction false} CountedOn(run: seq<State>, n: nat)
    requires n < |run| && Init(run[0]) && forall k: nat :: k + 1 < |run| ==> CountedAt(run, k)
    ensures run[n].locks == Events(run, n) && run[n].noted == Noters(run, n)
  {
    if n > 0 {
      CountedOn(run, n - 1);
      assert CountedAt(run, n - 1);
    }
  }

  // The entry counts every event, and the history of who noted is right.
  lemma EveryEvent(run: seq<State>, n: nat)
    requires IsRun(run) && n < |run|
    ensures run[n].locks == Events(run, n) && run[n].noted == Noters(run, n)
  {
    forall k: nat | k + 1 < |run| ensures CountedAt(run, k) { RunCounted(run, k); }
    CountedOn(run, n);
  }

  // ------------------------------------------------------------- main results

  ghost function Elements(s: seq<nat>): set<nat> {
    set x | x in s
  }

  lemma {:induction false} AsMany(s: seq<nat>)
    requires forall i, j :: 0 <= i < j < |s| ==> s[i] != s[j]
    ensures |Elements(s)| == |s|
  {
    if s != [] {
      var n := |s| - 1;
      AsMany(s[..n]);
      assert Elements(s) == Elements(s[..n]) + {s[n]};
    } else {
      assert Elements(s) == {};
    }
  }

  // The entry as the table has it.
  ghost function EntryOf(s: State, key: nat): Entry
    requires |s.owners| == MAX_OWNERS
  {
    Entry(key, s.locks, s.owners[..Min(s.nowners, MAX_OWNERS)], s.nowners)
  }

  /** In every state of every run: no thread has two slots, no more threads are
      counted than have noted an event, and one that has returned has a slot
      unless there were too many. */
  lemma CountedOnce(run: seq<State>, n: nat)
    requires IsRun(run) && n < |run|
    ensures var s := run[n];
            && |s.owners| == MAX_OWNERS && s.nowners <= Min(|Noters(run, n)|, MAX_OWNERS + 1)
            && (forall i, j :: 0 <= i < j < MAX_OWNERS && s.owners[i] != 0 ==> s.owners[i] != s.owners[j])
            && forall t :: 0 <= t < |s.threads| && s.threads[t].Outside? && t + 1 in Noters(run, n) ==>
                 t + 1 in s.owners || s.nowners == MAX_OWNERS + 1
  {
    EveryEvent(run, n);
    RunHolds(run, n);
    var s := run[n];
    CountedAtMost(s);
    forall t | 0 <= t < |s.threads| && s.threads[t].Outside? && t + 1 in s.noted
      ensures t + 1 in s.owners || s.nowners == MAX_OWNERS + 1
    {
      assert StageOk(s.owners, s.nowners, s.noted, t, s.threads[t]);
    }
  }

  lemma SubsetSize(a: set<nat>, b: set<nat>)
    requires a <= b
    ensures |a| <= |b| && (a != b ==> |a| < |b|)
  {
    assert b == a + (b - a);
    if a != b { assert b - a != {}; }
  }

  lemma CountedAtMost(s: State)
    requires Inv(s)
    ensures s.nowners <= |s.noted|
  {
    var counted := s.owners[..Min(s.nowners, MAX_OWNERS)];
    AsMany(counted);
    SubsetSize(Elements(counted), s.noted);
    if s.nowners > MAX_OWNERS {
      var x :| x in s.noted && x !in s.owners;
      assert counted == s.owners && x !in Elements(counted);
    }
  }

  /** When no thread is noting an event, the entry is what noting the events one
      at a time leaves: the number of events, the threads as far as there is
      room, and their number up to one more. */
  lemma AtRest(run: seq<State>, n: nat, key: nat)
    requires IsRun(run) && n < |run| && forall t :: 0 <= t < |run[n].threads| ==> run[n].threads[t].Outside?
    ensures |run[n].owners| == MAX_OWNERS
    ensures Records(EntryOf(run[n], key), Object(Events(run, n), Noters(run, n)))
  {
    EveryEvent(run, n);
    RunHolds(run, n);
    var s := run[n];
    CountedAtMost(s);
    if s.nowners <= MAX_OWNERS { AllCounted(s); }
  }

  lemma AllCounted(s: State)
    requires Inv(s) && s.nowners <= MAX_OWNERS && forall t :: 0 <= t < |s.threads| ==> s.threads[t].Outside?
    ensures s.noted == Elements(s.owners[..s.nowners]) && |s.noted| == s.nowners
  {
    var counted := s.owners[..s.nowners];
    AsMany(counted);
    forall x | x in s.noted ensures x in counted {
      assert StageOk(s.owners, s.nowners, s.noted, x - 1, s.threads[x - 1]);
      var i :| 0 <= i < MAX_OWNERS && s.owners[i] == x;
      assert counted[i] == x;
    }
  }

  /** A thread waits for a slot to be counted only while the thread that took it
      is about to count it. */
  lemma WaitsForBump(run: seq<State>, n: nat, t: nat)
    requires IsRun(run) && n < |run| && t < |run[n].threads| && run[n].threads[t].Wait?
    requires run[n].nowners == run[n].threads[t].n
    ensures exists u: nat :: u < |run[n].threads| && run[n].threads[u] == Bump(run[n].nowners)
  {
    RunHolds(run, n);
    var s := run[n];
    assert StageOk(s.owners, s.nowners, s.noted, t, s.threads[t]);
    assert s.threads[s.owners[s.nowners] - 1] == Bump(s.nowners);
  }

  // ---------------------------------------------------------------- progress

  // How far a note is from its end, compared from the first on.
  datatype Rank = Rank(phase: nat, far: nat, near: nat)

  predicate Less(a: Rank, b: Rank) {
    || a.phase < b.phase
    || (a.phase == b.phase && a.far < b.far)
    || (a.phase == b.phase && a.far == b.far && a.near < b.near)
  }

  function Left(a: nat, b: nat): nat {
    if a < b then b - a else 0
  }

  function RankOf(s: State, at: Stage): Rank {
    match at
    case Outside => Rank(0, 0, 0)
    case ReadCount => Rank(3, 0, 0)
    case Scan(n, i) => Rank(2, 0, 1 + Left(i, n))
    case ReadAgain => Rank(1, Left(s.nowners, MAX_OWNERS + 2), 2)
    case Claim(n) => Rank(1, Left(n, MAX_OWNERS + 2), 1)
    case Wait(n) => Rank(1, Left(n, MAX_OWNERS + 2), 0)
    case Bump(_) => Rank(0, 0, 1)
    case Over => Rank(0, 0, 1)
  }

  ghost predicate Own(s: State, s': State, t: nat) {
    Look(s, s', t) || ClaimSlot(s, s', t) || Store(s, s', t)
  }

  lemma OwnLowers(s: State, s': State, t: nat)
    requires Inv(s) && Own(s, s', t)
    ensures || Less(RankOf(s', s'.threads[t]), RankOf(s, s.threads[t]))
            || (s.threads[t].Wait? && s.threads[t].n == s.nowners && s' == s)
  {
    assert StageOk(s.owners, s.nowners, s.noted, t, s.threads[t]);
  }

  lemma HasStep(s: State, t: nat) returns (s': State)
    requires Inv(s) && t < |s.threads| && !s.threads[t].Outside?
    ensures Own(s, s', t)
  {
    assert StageOk(s.owners, s.nowners, s.noted, t, s.threads[t]);
    match s.threads[t]
    case ReadCount => s' := Goes(s, t, Scan(s.nowners, 0));
    case Scan(n, i) =>
      s' := Goes(s, t, if i >= n || i >= MAX_OWNERS then ReadAgain
                       else if s.owners[i] == t + 1 then Outside else Scan(n, i + 1));
    case ReadAgain =>
      s' := Goes(s, t, if s.nowners > MAX_OWNERS then Outside
                       else if s.nowners == MAX_OWNERS then Over else Claim(s.nowners));
    case Wait(n) => s' := Goes(s, t, if s.nowners == n then Wait(n) else ReadAgain);
    case Claim(n) =>
      s' := if s.owners[n] == 0 then Goes(s.(owners := s.owners[n := t + 1]), t, Bump(n))
            else Goes(s, t, if s.owners[n] == t + 1 then Outside else Wait(n));
    case Bump(n) => s' := Goes(s.(nowners := n + 1), t, Outside);
    case Over => s' := Goes(s.(nowners := MAX_OWNERS + 1), t, Outside);
  }

  /** In every state of every run: a note under way has a step, and each of its
      steps ends it or lowers its rank, unless it waits for the thread that is
      about to count the slot. */
  lemma NoteEnds(run: seq<State>, n: nat, t: nat)
    requires IsRun(run) && n < |run| && t < |run[n].threads| && !run[n].threads[t].Outside?
    ensures exists s' :: Own(run[n], s', t)
    ensures forall s' :: Own(run[n], s', t) && s' != run[n] ==> RankLower(run[n], s', t)
    ensures Own(run[n], run[n], t) ==>
              exists u: nat :: u < |run[n].threads| && run[n].threads[u] == Bump(run[n].nowners)
  {
    RunHolds(run, n);
    var s' := HasStep(run[n], t);
    forall s' | Own(run[n], s', t) && s' != run[n] ensures RankLower(run[n], s', t) { OwnLowers(run[n], s', t); }
    if Own(run[n], run[n], t) {
      OwnLowers(run[n], run[n], t);
      WaitsForBump(run, n, t);
    }
  }

  ghost predicate RankLower(s: State, s': State, t: nat) {
    t < |s.threads| == |s'.threads| && Less(RankOf(s', s'.threads[t]), RankOf(s, s.threads[t]))
  }

  /** And no step of another raises it. */
  lemma OthersLeaveRank(s: State, s': State, u: nat, t: nat)
    requires Inv(s) && Step(s, s', u) && u != t && t < |s.threads|
    ensures |s'.threads| == |s.threads| && s'.threads[t] == s.threads[t] && s.nowners <= s'.nowners
    ensures !Less(RankOf(s, s.threads[t]), RankOf(s', s'.threads[t]))
  {
    assert StageOk(s.owners, s.nowners, s.noted, u, s.threads[u]);
  }
}
