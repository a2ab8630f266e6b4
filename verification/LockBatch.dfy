/** Lock batching (shim/mutex.hpp): a loop of critical sections that takes the
    mutex once for up to K of them, against the loop that takes it for each.
    Any number of threads; a section makes any accesses to shared state, a
    thread does any work of its own between and inside them, and the loops end
    when they like. */
module LockBatch {
  import opened Basics

  // WTC_LOCK_BATCH_K.
  const K: Positive

  // What a loop does: an access to shared state inside a section, the end of a
  // section, and a thread's own work; a says which.
  datatype Event = Access(t: nat, a: nat) | Section(t: nat) | Work(t: nat, a: nat)

  datatype Holder = Free | By(t: nat)

  // -------------------------------------------------------------- plain loops

  // inside: whether each thread is in a section.
  datatype Plain = Plain(mutex: Holder, inside: seq<bool>, trace: seq<Event>)

  ghost predicate PlainInit(s: Plain) {
    s.mutex == Free && s.trace == [] && forall t :: 0 <= t < |s.inside| ==> !s.inside[t]
  }

  ghost predicate Lock(s: Plain, s': Plain, t: nat) {
    && t < |s.inside| && !s.inside[t] && s.mutex == Free
    && s' == s.(mutex := By(t), inside := s.inside[t := true])
  }

  ghost predicate Unlock(s: Plain, s': Plain, t: nat) {
    && t < |s.inside| && s.inside[t]
    && s' == s.(mutex := Free, inside := s.inside[t := false], trace := s.trace + [Section(t)])
  }

  ghost predicate PlainAccess(s: Plain, s': Plain, t: nat, a: nat) {
    t < |s.inside| && s.inside[t] && s' == s.(trace := s.trace + [Access(t, a)])
  }

  ghost predicate PlainWork(s: Plain, s': Plain, t: nat, a: nat) {
    t < |s.inside| && s' == s.(trace := s.trace + [Work(t, a)])
  }

  ghost predicate PlainStep(s: Plain, s': Plain, t: nat) {
    Lock(s, s', t) || Unlock(s, s', t) || exists a: nat :: PlainAccess(s, s', t, a) || PlainWork(s, s', t, a)
  }

  ghost predicate PlainNext(s: Plain, s': Plain) {
    exists t: nat :: PlainStep(s, s', t)
  }

  ghost predicate IsPlainRun(run: seq<Plain>) {
    && |run| > 0 && PlainInit(run[0])
    && forall i :: 0 <= i < |run| - 1 ==> PlainNext(run[i], run[i + 1])
  }

  // ------------------------------------------------------------ batched loops

  // A thread before its loop; holding the mutex, with the sections of this
  // batch counted, in a section or not; between letting the mutex go and
  // taking it again; after its loop.
  datatype Stage = Start | Holding(sections: nat, inside: bool) | Between | Finished

  // History: since, each thread's sections since it last took the mutex.
  datatype Batched = Batched(mutex: Holder, at: seq<Stage>, trace: seq<Event>, since: seq<nat>)

  ghost predicate BatchedInit(s: Batched) {
    && s.mutex == Free && s.trace == [] && |s.since| == |s.at|
    && forall t :: 0 <= t < |s.at| ==> s.at[t] == Start && s.since[t] == 0
  }

  ghost predicate In(s: Batched, t: nat) {
    t < |s.at| == |s.since|
  }

  // batch_begin, and the second half of a batch_step that lets the mutex go.
  ghost predicate Take(s: Batched, s': Batched, t: nat) {
    && In(s, t) && (s.at[t].Start? || s.at[t].Between?) && s.mutex == Free
    && s' == s.(mutex := By(t), at := s.at[t := Holding(0, false)], since := s.since[t := 0])
  }

  // The first access of a section is where the plain loop has locked.
  ghost predicate Touch(s: Batched, s': Batched, t: nat, a: nat) {
    && In(s, t) && s.at[t].Holding?
    && s' == s.(at := s.at[t := s.at[t].(inside := true)], trace := s.trace + [Access(t, a)])
  }

  // Its own work; none inside batch_step.
  ghost predicate Compute(s: Batched, s': Batched, t: nat, a: nat) {
    In(s, t) && !s.at[t].Between? && s' == s.(trace := s.trace + [Work(t, a)])
  }

  // batch_step.
  ghost predicate StepOn(s: Batched, s': Batched, t: nat) {
    && In(s, t) && s.at[t].Holding?
    && var c := s.at[t].sections + 1;
       var done := s.(trace := s.trace + [Section(t)], since := s.since[t := s.since[t] + 1]);
       s' == if c < K then done.(at := s.at[t := Holding(c, false)]) else done.(mutex := Free, at := s.at[t := Between])
  }

  // batch_end, outside any section.
  ghost predicate End(s: Batched, s': Batched, t: nat) {
    && In(s, t) && s.at[t].Holding? && !s.at[t].inside
    && s' == s.(mutex := Free, at := s.at[t := Finished])
  }

  ghost predicate Step(s: Batched, s': Batched, t: nat) {
    || Take(s, s', t) || StepOn(s, s', t) || End(s, s', t)
    || exists a: nat :: Touch(s, s', t, a) || Compute(s, s', t, a)
  }

  ghost predicate Next(s: Batched, s': Batched) {
    exists t: nat :: Step(s, s', t)
  }

  ghost predicate IsRun(run: seq<Batched>) {
    && |run| > 0 && BatchedInit(run[0])
    && forall i :: 0 <= i < |run| - 1 ==> Next(run[i], run[i + 1])
  }

  // ------------------------------------------------------------- invariant

  // The holder of the mutex is the one thread in a batch, and its count is of
  // the sections since it took the mutex.
  ghost predicate Inv(s: Batched) {
    && |s.since| == |s.at|
    && forall t :: 0 <= t < |s.at| ==>
         && (s.at[t].Holding? <==> s.mutex == By(t))
         && (s.at[t].Holding? ==> s.at[t].sections == s.since[t] < K)
         && s.since[t] <= K
  }

  lemma NextKeeps(s: Batched, s': Batched)
    requires Inv(s) && Next(s, s')
    ensures Inv(s')
  {
    var t: nat :| Step(s, s', t);
  }

  lemma {:induction false} RunHolds(run: seq<Batched>, i: nat)
    requires IsRun(run) && i < |run|
    ensures Inv(run[i])
  {
    if i > 0 {
      RunHolds(run, i - 1);
      assert Next(run[i - 1], run[i]);
      NextKeeps(run[i - 1], run[i]);
    }
  }

  // Each access is made under the mutex, with no other thread in a batch.
  lemma UnderTheMutex(run: seq<Batched>, i: nat, t: nat, a: nat)
    requires IsRun(run) && i + 1 < |run| && Touch(run[i], run[i + 1], t, a)
    ensures run[i].mutex == By(t) && forall u :: 0 <= u < |run[i].at| && u != t ==> !run[i].at[u].Holding?
  {
    RunHolds(run, i);
  }

  // The mutex is let go at least every K sections, and every K-th lets it go.
  lemma LetGoEveryK(run: seq<Batched>, i: nat, t: nat)
    requires IsRun(run) && i + 1 < |run| && t < |run[i].at| && StepOn(run[i], run[i + 1], t)
    ensures |run[i + 1].since| == |run[i].at| && run[i + 1].since[t] <= K
    ensures run[i + 1].mutex == Free <==> run[i + 1].since[t] == K
  {
    RunHolds(run, i);
  }

  // ----------------------------------------------------------- trace inclusion

  predicate Inside(at: Stage) {
    at.Holding? && at.inside
  }

  // The plain loops in the same places: the mutex is held inside sections only.
  ghost predicate Matches(s: Batched, p: Plain) {
    && |p.inside| == |s.at| && p.trace == s.trace
    && (forall t :: 0 <= t < |s.at| ==> p.inside[t] == Inside(s.at[t]))
    && (p.mutex == Free || (p.mutex == s.mutex && p.mutex.t < |s.at| && Inside(s.at[p.mutex.t])))
  }

  ghost predicate Reached(run: seq<Plain>, p: Plain) {
    IsPlainRun(run) && run[|run| - 1] == p
  }

  ghost predicate Reachable(p: Plain) {
    exists run :: Reached(run, p)
  }

  lemma Onward(p: Plain, q: Plain, t: nat)
    requires Reachable(p) && PlainStep(p, q, t)
    ensures Reachable(q)
  {
    var run :| Reached(run, p);
    assert PlainNext(p, q);
    assert Reached(run + [q], q);
  }

  // A thread at a batch but not in a section: the plain loop can lock.
  lemma MatchLock(s: Batched, p: Plain, t: nat) returns (q: Plain)
    requires Inv(s) && Matches(s, p) && Reachable(p) && t < |s.at| && s.at[t].Holding? && !s.at[t].inside
    ensures Reachable(q) && q == p.(mutex := By(t), inside := p.inside[t := true])
  {
    q := p.(mutex := By(t), inside := p.inside[t := true]);
    assert Lock(p, q, t);
    Onward(p, q, t);
  }

  lemma MatchTouch(s: Batched, s': Batched, p: Plain, t: nat, a: nat) returns (q: Plain)
    requires Inv(s) && Touch(s, s', t, a) && Matches(s, p) && Reachable(p)
    ensures Reachable(q) && Matches(s', q)
  {
    var r := p;
    if !s.at[t].inside { r := MatchLock(s, p, t); }
    q := r.(trace := r.trace + [Access(t, a)]);
    assert PlainAccess(r, q, t, a);
    Onward(r, q, t);
  }

  lemma MatchStepOn(s: Batched, s': Batched, p: Plain, t: nat) returns (q: Plain)
    requires Inv(s) && StepOn(s, s', t) && Matches(s, p) && Reachable(p)
    ensures Reachable(q) && Matches(s', q)
  {
    var r := p;
    if !s.at[t].inside { r := MatchLock(s, p, t); }
    q := r.(mutex := Free, inside := r.inside[t := false], trace := r.trace + [Section(t)]);
    assert Unlock(r, q, t);
    Onward(r, q, t);
  }

  lemma MatchStep(s: Batched, s': Batched, p: Plain, t: nat) returns (q: Plain)
    requires Inv(s) && Step(s, s', t) && Matches(s, p) && Reachable(p)
    ensures Reachable(q) && Matches(s', q)
  {
    if StepOn(s, s', t) {
      q := MatchStepOn(s, s', p, t);
    } else if exists a: nat :: Touch(s, s', t, a) {
      var a: nat :| Touch(s, s', t, a);
      q := MatchTouch(s, s', p, t, a);
    } else if exists a: nat :: Compute(s, s', t, a) {
      var a: nat :| Compute(s, s', t, a);
      q := p.(trace := p.trace + [Work(t, a)]);
      assert PlainWork(p, q, t, a);
      Onward(p, q, t);
    } else {
      q := p;
    }
  }

  // Every trace of the batched loops is a trace of the plain ones.
  lemma {:induction false} TraceIsPlain(run: seq<Batched>, i: nat) returns (p: Plain)
    requires IsRun(run) && i < |run|
    ensures Reachable(p) && Matches(run[i], p)
  {
    if i == 0 {
      p := Plain(Free, seq(|run[0].at|, (t: nat) => false), []);
      assert Reached([p], p);
    } else {
      p := TraceIsPlain(run, i - 1);
      RunHolds(run, i - 1);
      assert Next(run[i - 1], run[i]);
      var t: nat :| Step(run[i - 1], run[i], t);
      p := MatchStep(run[i - 1], run[i], p, t);
    }
  }

  lemma EveryTraceIsPlain(run: seq<Batched>)
    requires IsRun(run)
    ensures exists plain: seq<Plain> :: IsPlainRun(plain) && plain[|plain| - 1].trace == run[|run| - 1].trace
  {
    var p := TraceIsPlain(run, |run| - 1);
    var plain :| Reached(plain, p);
  }
}
