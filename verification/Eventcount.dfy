/** The eventcount (runtime/waiter.hpp) and the queues that wait on it: one
    ring with a waiter on each side (shim/bounded.hpp, shim/c_queue.cpp), or
    an unbounded queue whose consumers wait (runtime/waiter.hpp alone).

    What is waited for is a number of things available on a side: elements for
    a pop, room for a push. An operation takes some from its side at one step
    of the queue, which puts as many on the other side, and then notifies the
    other side's waiter. One step of the machine is one access to shared
    memory; a system call that wakes n sleepers wakes them one by one. The
    policy is one that parks: a spinning waiter never sleeps, and its polling
    is the first look below, repeated. */
module Eventcount {
  import opened Basics

  datatype Side = Elements | Room

  function Other(d: Side): Side {
    if d.Elements? then Room else Elements
  }

  // A waiter, and what is available on its side.
  datatype Waiter = Waiter(avail: nat, waiters: nat, epoch: nat, closed: bool)

  // Move: a push (from Room) or a pop (from Elements) of up to n at once, with
  // or without a time limit; a try is one whose time is up at the first look.
  // Peek: a batch of none, which waits until something is available and moves
  // nothing. Add: a push to a queue without a bound. Overrun: a push that
  // replaces the oldest element when there is no room. Close: close, or the
  // last terminate.
  datatype Op = Move(d: Side, n: nat, timed: bool) | Peek(d: Side) | Add(k: nat) | Overrun | Close(d: Side)

  datatype Stage =
    | Closed1                          // about to read closed
    | Look1(c: bool)                   // about to look at the queue
    | Prepare                          // about to announce itself
    | ReadKey                          // announced: about to read the epoch
    | Closed2(key: nat)                // about to read closed
    | Look2(key: nat, c: bool)         // the last look before sleeping
    | Check(key: nat)                  // about to compare the epoch with the key
    | Futex(key: nat)                  // about to enter the kernel, which compares them again
    | Asleep                           // in the futex
    | Cancel(next: After)              // about to count itself out
    | Notify(d: Side, w: nat)          // about to read waiters
    | Bump(d: Side, w: nat)            // about to bump the epoch
    | Wake(d: Side, w: nat)            // about to wake up to w sleepers
    | CloseStore | CloseBump | CloseWake
    | Done(ok: bool)

  // What follows counting itself out: look again, notify, or answer closed.
  datatype After = Again | Then(d: Side, w: nat) | Finished

  datatype Thread = Idle | Call(op: Op, at: Stage)

  // cap: elements and room together; negative when the queue has no bound.
  datatype State = State(cap: int, elements: Waiter, room: Waiter, threads: seq<Thread>)

  function Get(s: State, d: Side): Waiter {
    if d.Elements? then s.elements else s.room
  }

  function Put(s: State, d: Side, w: Waiter): State {
    if d.Elements? then s.(elements := w) else s.(room := w)
  }

  ghost predicate Init(s: State) {
    && s.elements == Waiter(0, 0, 0, false)
    && s.room == Waiter(if s.cap < 0 then 0 else s.cap, 0, 0, false)
    && forall p :: 0 <= p < |s.threads| ==> s.threads[p] == Idle
  }

  // ----------------------------------------------------------------- steps

  ghost predicate At(s: State, p: nat) {
    p < |s.threads| && s.threads[p].Call?
  }

  ghost predicate Waits(s: State, p: nat) {
    At(s, p) && (s.threads[p].op.Move? || s.threads[p].op.Peek?)
  }

  function Goes(s: State, p: nat, at: Stage): State
    requires p < |s.threads| && s.threads[p].Call?
  {
    s.(threads := s.threads[p := s.threads[p].(at := at)])
  }

  function Start(op: Op): Stage {
    match op
    case Move(_, n, _) => if n == 0 then Done(true) else Closed1
    case Peek(_) => Closed1
    case Add(k) => Notify(Elements, k)
    case Overrun => Notify(Elements, 1)
    case Close(_) => CloseStore
  }

  // What an operation that does not wait does to the queue as it begins.
  ghost function Published(s: State, op: Op): State {
    match op
    case Add(k) => Put(s, Elements, s.elements.(avail := s.elements.avail + k))
    case Overrun =>
      if s.room.avail == 0 then s
      else s.(room := s.room.(avail := s.room.avail - 1), elements := s.elements.(avail := s.elements.avail + 1))
    case _ => s
  }

  ghost predicate Begin(s: State, s': State, p: nat, op: Op) {
    && p < |s.threads| && s.threads[p].Idle?
    && (op.Add? ==> s.cap < 0) && (op.Overrun? ==> s.cap >= 0)
    && s' == Published(s, op).(threads := s.threads[p := Call(op, Start(op))])
  }

  ghost predicate Return(s: State, s': State, p: nat) {
    At(s, p) && s.threads[p].at.Done? && s' == s.(threads := s.threads[p := Idle])
  }

  ghost predicate ReadClosed(s: State, s': State, p: nat) {
    && Waits(s, p)
    && var c := Get(s, s.threads[p].op.d).closed;
       match s.threads[p].at
       case Closed1 => s' == Goes(s, p, Look1(c))
       case Closed2(key) => s' == Goes(s, p, Look2(key, c))
       case _ => false
  }

  // What a look that finds something takes; it finds something unless
  // nothing is available.
  function Taken(op: Op, avail: nat): nat {
    if op.Move? then Min(op.n, avail) else 0
  }

  // The queue after the look, and the notify that is then due: to the other
  // side for what was moved, to its own for a batch of none, which passes the
  // wake-up on.
  ghost function Moved(s: State, op: Op): State
    requires op.Move? || op.Peek?
  {
    if op.Peek? then s
    else
      var k := Taken(op, Get(s, op.d).avail);
      var t := Put(s, op.d, Get(s, op.d).(avail := Get(s, op.d).avail - k));
      var o := Other(op.d);
      if s.cap < 0 then t else Put(t, o, Get(t, o).(avail := Get(t, o).avail + k))
  }

  ghost function Due(s: State, op: Op): After
    requires op.Move? || op.Peek?
  {
    if op.Peek? then Then(op.d, 1) else Then(Other(op.d), Taken(op, Get(s, op.d).avail))
  }

  ghost predicate LookFinds(s: State, s': State, p: nat) {
    && Waits(s, p) && (s.threads[p].at.Look1? || s.threads[p].at.Look2?)
    && var op := s.threads[p].op;
       && Get(s, op.d).avail > 0
       && var a := Due(s, op);
          s' == Goes(Moved(s, op), p, if s.threads[p].at.Look1? then Notify(a.d, a.w) else Cancel(a))
  }

  // A look that finds nothing: finished if the close was seen before it, and
  // otherwise on; the first look may also find the time up.
  ghost predicate LookFails(s: State, s': State, p: nat) {
    && Waits(s, p) && Get(s, s.threads[p].op.d).avail == 0
    && match s.threads[p].at
       case Look1(c) =>
         || s' == Goes(s, p, if c then Done(false) else Prepare)
         || (s.threads[p].op.Move? && s.threads[p].op.timed && s' == Goes(s, p, Done(false)))
       case Look2(key, c) => s' == Goes(s, p, if c then Cancel(Finished) else Check(key))
       case _ => false
  }

  // spin_then_park polls for a while before it parks.
  ghost predicate SpinAgain(s: State, s': State, p: nat) {
    Waits(s, p) && s.threads[p].at.Prepare? && s' == Goes(s, p, Closed1)
  }

  ghost predicate Announce(s: State, s': State, p: nat) {
    && Waits(s, p) && s.threads[p].at.Prepare?
    && var d := s.threads[p].op.d;
       s' == Goes(Put(s, d, Get(s, d).(waiters := Get(s, d).waiters + 1)), p, ReadKey)
  }

  ghost predicate TakeKey(s: State, s': State, p: nat) {
    Waits(s, p) && s.threads[p].at.ReadKey? && s' == Goes(s, p, Closed2(Get(s, s.threads[p].op.d).epoch))
  }

  ghost predicate CompareKey(s: State, s': State, p: nat) {
    && Waits(s, p)
    && var epoch := Get(s, s.threads[p].op.d).epoch;
       match s.threads[p].at
       case Check(key) => s' == Goes(s, p, if epoch == key then Futex(key) else Cancel(Again))
       case Futex(key) => s' == Goes(s, p, if epoch == key then Asleep else Cancel(Again))
       case _ => false
  }

  // A signal, a spurious return, or the end of a time limit.
  ghost predicate WakeUnasked(s: State, s': State, p: nat) {
    Waits(s, p) && s.threads[p].at.Asleep? && s' == Goes(s, p, Cancel(Again))
  }

  ghost predicate CountOut(s: State, s': State, p: nat) {
    && Waits(s, p) && s.threads[p].at.Cancel?
    && var d := s.threads[p].op.d;
       && Get(s, d).waiters > 0
       && s' == Goes(Put(s, d, Get(s, d).(waiters := Get(s, d).waiters - 1)), p,
                     match s.threads[p].at.next
                     case Again => Closed1
                     case Then(e, w) => Notify(e, w)
                     case Finished => Done(false))
  }

  // notify: nothing to do for none published or with nobody announced.
  ghost predicate ReadWaiters(s: State, s': State, p: nat) {
    && At(s, p) && s.threads[p].at.Notify?
    && var Notify(d, w) := s.threads[p].at;
       s' == Goes(s, p, if w == 0 || Get(s, d).waiters == 0 then Done(true) else Bump(d, w))
  }

  ghost predicate BumpEpoch(s: State, s': State, p: nat) {
    && At(s, p) && s.threads[p].at.Bump?
    && var Bump(d, w) := s.threads[p].at;
       s' == Goes(Put(s, d, Get(s, d).(epoch := Get(s, d).epoch + 1)), p, Wake(d, w))
  }

  ghost predicate IsAsleep(s: State, d: Side, q: nat) {
    Waits(s, q) && s.threads[q].op.d == d && s.threads[q].at.Asleep?
  }

  ghost predicate WakeOne(s: State, s': State, p: nat, q: nat) {
    && At(s, p) && s.threads[p].at.Wake? && s.threads[p].at.w > 0
    && var Wake(d, w) := s.threads[p].at;
       IsAsleep(s, d, q) && q != p && s' == Goes(Goes(s, q, Cancel(Again)), p, Wake(d, w - 1))
  }

  ghost predicate WakeEnd(s: State, s': State, p: nat) {
    && At(s, p) && s.threads[p].at.Wake?
    && var Wake(d, w) := s.threads[p].at;
       && (w == 0 || forall q: nat :: !IsAsleep(s, d, q))
       && s' == Goes(s, p, Done(true))
  }

  // close.
  ghost predicate StoreClosed(s: State, s': State, p: nat) {
    && At(s, p) && s.threads[p].at.CloseStore? && s.threads[p].op.Close?
    && var d := s.threads[p].op.d;
       s' == Goes(Put(s, d, Get(s, d).(closed := true)), p, CloseBump)
  }

  ghost predicate BumpClosed(s: State, s': State, p: nat) {
    && At(s, p) && s.threads[p].at.CloseBump? && s.threads[p].op.Close?
    && var d := s.threads[p].op.d;
       s' == Goes(Put(s, d, Get(s, d).(epoch := Get(s, d).epoch + 1)), p, CloseWake)
  }

  ghost predicate WakeClosed(s: State, s': State, p: nat, q: nat) {
    && At(s, p) && s.threads[p].at.CloseWake? && s.threads[p].op.Close?
    && IsAsleep(s, s.threads[p].op.d, q) && q != p
    && s' == Goes(s, q, Cancel(Again))
  }

  ghost predicate CloseEnd(s: State, s': State, p: nat) {
    && At(s, p) && s.threads[p].at.CloseWake? && s.threads[p].op.Close?
    && (forall q: nat :: !IsAsleep(s, s.threads[p].op.d, q))
    && s' == Goes(s, p, Done(true))
  }

  ghost predicate WaitStep(s: State, s': State, p: nat) {
    || ReadClosed(s, s', p) || LookFinds(s, s', p) || LookFails(s, s', p) || SpinAgain(s, s', p)
    || Announce(s, s', p) || TakeKey(s, s', p) || CompareKey(s, s', p) || WakeUnasked(s, s', p)
    || CountOut(s, s', p)
  }

  ghost predicate NotifyStep(s: State, s': State, p: nat) {
    || ReadWaiters(s, s', p) || BumpEpoch(s, s', p) || WakeEnd(s, s', p)
    || StoreClosed(s, s', p) || BumpClosed(s, s', p) || CloseEnd(s, s', p) || Return(s, s', p)
  }

  ghost predicate Step(s: State, s': State, p: nat) {
    || (exists op :: Begin(s, s', p, op))
    || WaitStep(s, s', p) || NotifyStep(s, s', p)
    || (exists q: nat :: WakeOne(s, s', p, q) || WakeClosed(s, s', p, q))
  }

  ghost predicate Next(s: State, s': State) {
    exists p: nat :: Step(s, s', p)
  }

  ghost predicate IsRun(run: seq<State>) {
    && |run| > 0 && Init(run[0])
    && forall i :: 0 <= i < |run| - 1 ==> Next(run[i], run[i + 1])
  }

  // -------------------------------------------------------------- measures

  // What a thread contributes on a side: whether it is announced; the weight
  // of the notify it has not yet done, and of one not yet past its bump;
  // whether it is bound to look again before it sleeps; whether it is
  // closing, and has not yet bumped the epoch.
  datatype Kind = Announced | Pending | Early | Bound | Closing | EarlyClose

  function If(b: bool): nat {
    if b then 1 else 0
  }

  function WaitingMeasure(k: Kind, d: Side, op: Op, at: Stage): nat
    requires op.Move? || op.Peek?
  {
    match k
    case Announced =>
      If(op.d == d && (at.ReadKey? || at.Closed2? || at.Look2? || at.Check? || at.Futex? || at.Asleep? || at.Cancel?))
    case Bound =>
      If(op.d == d && (at.Closed1? || at.Look1? || at.Prepare? || at.ReadKey? || at.Closed2? || at.Look2?
                       || at == Cancel(Again)))
    case _ => 0
  }

  function NotifyMeasure(k: Kind, d: Side, at: Stage): nat {
    match at
    case Cancel(Then(e, w)) => if e == d && (k.Pending? || k.Early?) then w else 0
    case Notify(e, w) => if e == d && (k.Pending? || k.Early?) then w else 0
    case Bump(e, w) => if e == d && (k.Pending? || k.Early?) then w else 0
    case Wake(e, w) => if e == d && k.Pending? then w else 0
    case _ => 0
  }

  function CloseMeasure(k: Kind, d: Side, op: Op, at: Stage): nat
    requires op.Close?
  {
    match at
    case CloseBump => If(op.d == d && (k.Closing? || k.EarlyClose?))
    case CloseWake => If(op.d == d && k.Closing?)
    case _ => 0
  }

  function Measure(k: Kind, d: Side, t: Thread): nat {
    if t.Idle? then 0
    else NotifyMeasure(k, d, t.at)
         + (if t.op.Move? || t.op.Peek? then WaitingMeasure(k, d, t.op, t.at) else 0)
         + (if t.op.Close? then CloseMeasure(k, d, t.op, t.at) else 0)
  }

  function Total(ts: seq<Thread>, k: Kind, d: Side): nat {
    if ts == [] then 0 else Total(ts[..|ts| - 1], k, d) + Measure(k, d, ts[|ts| - 1])
  }

  lemma {:induction false} TotalUpdate(ts: seq<Thread>, p: nat, t: Thread, k: Kind, d: Side)
    requires p < |ts|
    ensures Total(ts[p := t], k, d) == Total(ts, k, d) - Measure(k, d, ts[p]) + Measure(k, d, t)
    ensures Measure(k, d, ts[p]) <= Total(ts, k, d)
  {
    var n := |ts| - 1;
    if p == n {
      assert ts[p := t][..n] == ts[..n];
    } else {
      assert ts[p := t][..n] == ts[..n][p := t];
      TotalUpdate(ts[..n], p, t, k, d);
    }
  }

  // ------------------------------------------------------------- invariant

  // Thread t sleeps on side d, or is about to on the current epoch: it has
  // looked for the last time.
  ghost predicate Sleeps(t: Thread, d: Side) {
    t.Call? && (t.op.Move? || t.op.Peek?) && t.op.d == d && t.at.Asleep?
  }

  ghost predicate AboutTo(t: Thread, d: Side, epoch: nat) {
    t.Call? && (t.op.Move? || t.op.Peek?) && t.op.d == d && (t.at.Check? || t.at.Futex?) && t.at.key == epoch
  }

  // It has read the epoch and found the queue not closed.
  ghost predicate SawOpen(t: Thread, d: Side, epoch: nat) {
    t.Call? && (t.op.Move? || t.op.Peek?) && t.op.d == d && t.at.Look2? && !t.at.c && t.at.key == epoch
  }

  ghost predicate HasKey(t: Thread, d: Side) {
    && t.Call? && (t.op.Move? || t.op.Peek?) && t.op.d == d
    && (t.at.Closed2? || t.at.Look2? || t.at.Check? || t.at.Futex?)
  }

  ghost predicate StageOk(t: Thread) {
    t.Call? ==>
      match t.at
      case Notify(_, _) => true
      case Bump(_, _) => true
      case Wake(_, _) => true
      case Done(_) => true
      case CloseStore => t.op.Close?
      case CloseBump => t.op.Close?
      case CloseWake => t.op.Close?
      case _ => (t.op.Move? && t.op.n > 0) || t.op.Peek?
  }

  ghost predicate ThreadOk(w: Waiter, d: Side, ts: seq<Thread>, t: Thread) {
    && StageOk(t) && (HasKey(t, d) ==> t.at.key <= w.epoch)
    && (Sleeps(t, d) ==> w.avail <= Total(ts, Pending, d) + Total(ts, Bound, d))
    && (AboutTo(t, d, w.epoch) ==> w.avail <= Total(ts, Early, d) + Total(ts, Bound, d))
    && (w.closed && Sleeps(t, d) ==> Total(ts, Closing, d) > 0)
    && (w.closed && (AboutTo(t, d, w.epoch) || SawOpen(t, d, w.epoch)) ==> Total(ts, EarlyClose, d) > 0)
  }

  ghost predicate SideOk(w: Waiter, d: Side, ts: seq<Thread>) {
    && w.waiters == Total(ts, Announced, d)
    && forall p :: 0 <= p < |ts| ==> ThreadOk(w, d, ts, ts[p])
  }

  ghost predicate Inv(s: State) {
    && SideOk(s.elements, Elements, s.threads)
    && SideOk(s.room, Room, s.threads)
    && (s.cap >= 0 ==> s.elements.avail + s.room.avail == s.cap)
  }
}
