/** The two fences of the eventcount (runtime/waiter.hpp), on a machine whose
    plain stores wait in a buffer before memory has them.

    Each thread stores to a location of its own and then reads the others': a
    producer publishes and reads who is announced, a consumer announces itself
    and looks at what is published. Eventcount takes accesses one at a time;
    here is why it may, for the one pair of accesses where the order matters.

    A read-modify-write goes to memory at once on x86, whose order this then is.
    C++ lets a relaxed one wait as a store does: there it is a plain one. */
module StoreBuffers {

  datatype Stage = Before | Stored | Reading

  // missed, saw: the threads whose store it read without, or with, its effect.
  datatype Thread = Thread(at: Stage, buffered: bool, missed: set<nat>, saw: set<nat>)

  // Whether a thread has a fence between its store and its reads, and whether
  // its store is a read-modify-write that leaves nothing in the buffer.
  datatype Code = Code(fenced: bool, drains: bool) {
    predicate Ordered() {
      fenced || drains
    }
  }

  datatype State = State(code: seq<Code>, memory: seq<bool>, threads: seq<Thread>)

  ghost predicate Init(s: State) {
    && |s.code| == |s.memory| == |s.threads|
    && forall t :: 0 <= t < |s.threads| ==> s.threads[t] == Thread(Before, false, {}, {}) && !s.memory[t]
  }

  // The store is issued: it goes into the buffer.
  ghost predicate Store(s: State, s': State, t: nat) {
    && t < |s.threads| && t < |s.code| && s.threads[t].at.Before? && !s.code[t].drains
    && s' == s.(threads := s.threads[t := s.threads[t].(at := Stored, buffered := true)])
  }

  // A read-modify-write: it goes to memory.
  ghost predicate Modify(s: State, s': State, t: nat) {
    && t < |s.threads| && t < |s.code| && t < |s.memory| && s.threads[t].at.Before? && s.code[t].drains
    && s' == s.(memory := s.memory[t := true], threads := s.threads[t := s.threads[t].(at := Stored)])
  }

  // The buffer gives it to memory, at any time after.
  ghost predicate Drain(s: State, s': State, t: nat) {
    && t < |s.threads| && t < |s.memory| && s.threads[t].buffered
    && s' == s.(memory := s.memory[t := true], threads := s.threads[t := s.threads[t].(buffered := false)])
  }

  // On to the reads: a fence waits until the buffer is empty.
  ghost predicate Pass(s: State, s': State, t: nat) {
    && t < |s.threads| && t < |s.code| && s.threads[t].at.Stored? && (s.code[t].fenced ==> !s.threads[t].buffered)
    && s' == s.(threads := s.threads[t := s.threads[t].(at := Reading)])
  }

  ghost predicate Read(s: State, s': State, t: nat, u: nat) {
    && t < |s.threads| && u < |s.memory| && u != t && s.threads[t].at.Reading?
    && var x := s.threads[t];
       s' == s.(threads := s.threads[t := if s.memory[u] then x.(saw := x.saw + {u}) else x.(missed := x.missed + {u})])
  }

  ghost predicate Step(s: State, s': State, t: nat) {
    Store(s, s', t) || Modify(s, s', t) || Drain(s, s', t) || Pass(s, s', t) || exists u: nat :: Read(s, s', t, u)
  }

  ghost predicate Next(s: State, s': State) {
    exists t: nat :: Step(s, s', t)
  }

  ghost predicate IsRun(run: seq<State>) {
    && |run| > 0 && Init(run[0])
    && forall i :: 0 <= i < |run| - 1 ==> Next(run[i], run[i + 1])
  }

  // ------------------------------------------------------------ with the fences

  // Threads t and u each read the other's location without the other's store.
  ghost predicate BothMissed(s: State, t: nat, u: nat) {
    t < |s.threads| && u < |s.threads| && u in s.threads[t].missed && t in s.threads[u].missed
  }

  // The store of a thread with either is in memory before its first read, so
  // two such threads do not both miss.
  ghost predicate Inv(s: State) {
    && |s.code| == |s.memory| == |s.threads|
    && (forall t :: 0 <= t < |s.threads| ==>
          && (!s.threads[t].at.Reading? ==> s.threads[t].missed == {})
          && (s.code[t].Ordered() && s.threads[t].at.Reading? ==> s.memory[t])
          && (s.threads[t].at.Before? || s.code[t].drains ==> !s.threads[t].buffered)
          && (s.threads[t].at.Stored? && !s.threads[t].buffered ==> s.memory[t]))
    && forall t: nat, u: nat :: t < |s.threads| && u < |s.threads| && s.code[t].Ordered() && s.code[u].Ordered() ==>
         !BothMissed(s, t, u)
  }

  lemma ReadKeeps(s: State, s': State, t: nat, u: nat)
    requires Inv(s) && Read(s, s', t, u)
    ensures Inv(s')
  {
    forall a: nat, b: nat | a < |s.threads| && b < |s.threads| && s.code[a].Ordered() && s.code[b].Ordered()
      ensures !BothMissed(s', a, b)
    {
      assert !BothMissed(s, a, b);
    }
  }

  lemma NextKeeps(s: State, s': State)
    requires Inv(s) && Next(s, s')
    ensures Inv(s') && s'.code == s.code
  {
    var t: nat :| Step(s, s', t);
    if exists u: nat :: Read(s, s', t, u) {
      var u: nat :| Read(s, s', t, u);
      ReadKeeps(s, s', t, u);
    } else {
      forall a: nat, b: nat | a < |s.threads| && b < |s.threads| && s.code[a].Ordered() && s.code[b].Ordered()
        ensures !BothMissed(s', a, b)
      {
        assert !BothMissed(s, a, b);
      }
    }
  }

  // In every run: of two threads with either, at most one misses the other's
  // store.
  lemma {:induction false} OneSeesTheOther(run: seq<State>, i: nat, t: nat, u: nat)
    requires IsRun(run) && i < |run| && t < |run[0].threads| && u < |run[0].threads|
    requires run[0].code[t].Ordered() && run[0].code[u].Ordered()
    ensures !BothMissed(run[i], t, u)
  {
    Holds(run, i);
  }

  lemma {:induction false} Holds(run: seq<State>, i: nat)
    requires IsRun(run) && i < |run|
    ensures Inv(run[i]) && run[i].code == run[0].code
  {
    if i > 0 {
      Holds(run, i - 1);
      assert Next(run[i - 1], run[i]);
      NextKeeps(run[i - 1], run[i]);
    }
  }

  // --------------------------------------------------------- without one of them

  function Started(code: seq<Code>): State {
    State(code, seq(|code|, (i: nat) => false), seq(|code|, (i: nat) => Thread(Before, false, {}, {})))
  }

  lemma Extend(run: seq<State>, s: State, t: nat)
    requires IsRun(run) && Step(run[|run| - 1], s, t)
    ensures IsRun(run + [s])
  {
    assert Next(run[|run| - 1], s);
  }

  // Thread t reads u's location while its own store is in the buffer.
  lemma ReadsEarly(code: seq<Code>, t: nat, u: nat) returns (run: seq<State>)
    requires t < |code| && u < |code| && t != u && !code[t].Ordered()
    ensures IsRun(run) && run[0].code == code
    ensures var s := Started(code);
            run[|run| - 1] == s.(threads := s.threads[t := Thread(Reading, true, {u}, {})])
  {
    var s0 := Started(code);
    var s1 := s0.(threads := s0.threads[t := Thread(Stored, true, {}, {})]);
    var s2 := s0.(threads := s0.threads[t := Thread(Reading, true, {}, {})]);
    var s3 := s0.(threads := s0.threads[t := Thread(Reading, true, {u}, {})]);
    assert Store(s0, s1, t) && Pass(s1, s2, t);
    assert Read(s2, s3, t, u) by { assert {} + {u} == {u}; }
    Extend([s0], s1, t);
    Extend([s0] + [s1], s2, t);
    Extend([s0] + [s1] + [s2], s3, t);
    run := [s0] + [s1] + [s2] + [s3];
  }

  // Thread u's store reaches memory.
  lemma StoreReaches(run: seq<State>, u: nat) returns (run': seq<State>)
    requires IsRun(run) && var s := run[|run| - 1];
             u < |s.threads| == |s.memory| == |s.code| && s.threads[u] == Thread(Before, false, {}, {})
    ensures IsRun(run') && run'[0] == run[0]
    ensures var s := run[|run| - 1];
            run'[|run'| - 1] == s.(memory := s.memory[u := true],
              threads := s.threads[u := Thread(Stored, false, {}, {})])
  {
    var s := run[|run| - 1];
    var s2 := s.(memory := s.memory[u := true], threads := s.threads[u := Thread(Stored, false, {}, {})]);
    if s.code[u].drains {
      assert Modify(s, s2, u);
      Extend(run, s2, u);
      run' := run + [s2];
    } else {
      var s1 := s.(threads := s.threads[u := Thread(Stored, true, {}, {})]);
      assert Store(s, s1, u) && Drain(s1, s2, u);
      Extend(run, s1, u);
      Extend(run + [s1], s2, u);
      run' := run + [s1] + [s2];
    }
  }

  // If one has neither, there is a run in which both miss: t reads early, and
  // then u, whatever it has, goes through.
  lemma UnfencedMisses(code: seq<Code>, t: nat, u: nat)
    requires t < |code| && u < |code| && t != u && !code[t].Ordered()
    ensures exists run: seq<State> :: IsRun(run) && run[0].code == code && BothMissed(run[|run| - 1], t, u)
  {
    var early := ReadsEarly(code, t, u);
    var run := StoreReaches(early, u);
    var s := run[|run| - 1];
    var s1 := s.(threads := s.threads[u := Thread(Reading, false, {}, {})]);
    var s2 := s.(threads := s.threads[u := Thread(Reading, false, {t}, {})]);
    assert Pass(s, s1, u);
    assert Read(s1, s2, u, t) by { assert {} + {t} == {t}; }
    Extend(run, s1, u);
    Extend(run + [s1], s2, u);
    assert BothMissed(s2, t, u);
  }

  // So each of the two needs a fence or a store that drains, and that is enough:
  // the eventcount's producer, which publishes by a plain store, its fence; its
  // consumer, which announces itself by a fetch-and-add, its fence only where
  // that may wait.
  lemma FencesExactly(code: seq<Code>, t: nat, u: nat)
    requires t < |code| && u < |code| && t != u
    ensures (code[t].Ordered() && code[u].Ordered()) <==>
              forall run: seq<State>, i: nat :: IsRun(run) && run[0].code == code && i < |run| ==>
                !BothMissed(run[i], t, u)
  {
    if code[t].Ordered() && code[u].Ordered() {
      forall run: seq<State>, i: nat | IsRun(run) && run[0].code == code && i < |run|
        ensures !BothMissed(run[i], t, u)
      {
        OneSeesTheOther(run, i, t, u);
      }
    } else if code[t].Ordered() {
      UnfencedMisses(code, u, t);
      var run: seq<State> :| IsRun(run) && run[0].code == code && BothMissed(run[|run| - 1], u, t);
      assert BothMissed(run[|run| - 1], t, u);
    } else {
      UnfencedMisses(code, t, u);
    }
  }
}
