/** The bounded ring (runtime/bounded_ring.hpp): a FIFO queue of exact
    capacity for any number of threads.

    Two counters of tickets, head (pops taken) and tail (pushes taken), and a
    ring of cells, each with a sequence number. An operation takes its tickets
    at one step on the counters, and then waits for each of its cells in turn.
    One step of the machine is one access to shared memory. Tickets are
    unbounded here; module Tickets32 shows that 32-bit ones agree. */
module BoundedRing {
  import opened Basics

  type Elem(!new)

  // Fixed when the queue is built. mp, mc: whether the side needs a
  // compare-and-swap. packed: head and tail are halves of one word.
  datatype Config = Config(cap: nat, ring: nat, packed: bool, overrun: bool, mp: bool, mc: bool)

  ghost predicate Built(c: Config) {
    c.ring >= 2 && c.cap <= c.ring && (c.overrun ==> c.packed && c.mp && c.mc)
  }

  // try_push pushes one item, consume pops one; try_push_n and consume_n any
  // number.
  datatype Op = Push(items: seq<Elem>) | Pop(n: nat) | Overrun(v: Elem) | Size

  // What an operation still owes the cells once it has its tickets: to empty
  // the cell of a ticket, to count an overrun, to fill the cell of a ticket.
  datatype Event = Take(i: nat) | Count(i: nat) | Fill(i: nat, v: Elem)

  datatype Stage =
    | PushTail                        // about to read tail
    | PushHead(t: nat)                // then head
    | PushAgain(t: nat, h: nat)       // full by those reads: tail once more
    | PushCas(t: nat, h: nat)         // not full: take ticket t
    | PopHead                         // about to read head
    | PopSeen(h: nat)                 // then the copy of tail
    | PopTail(h: nat)                 // empty by the copy: tail itself
    | PopStore(h: nat, t: nat)        // refresh the copy
    | PopCas(h: nat)                  // an element: take ticket h
    | SizeHead                        // about to read head
    | SizeTail(h: nat)                // then tail
    | SizeAgain(h: nat, t: nat)       // then head once more
    | Load                            // packed: about to read both
    | Cas(h: nat, t: nat)             // packed: take the tickets
    | Work(todo: seq<Event>, inside: bool)

  // got: the elements a pop has handed out. due (history): those the
  // sequential queue gave it at the step that took its tickets.
  datatype Thread = Idle | Call(op: Op, at: Stage, got: seq<Elem>, due: seq<Elem>)

  // ticket (history): the ticket the cell is free or filled for.
  datatype Cell = Cell(number: nat, val: Option<Elem>, ticket: nat)

  // History: pushed lists the elements by ticket; fills and takes say which
  // thread owes which ticket; delivered holds the elements pops handed out,
  // lost the tickets overruns removed, by which thread, of which counted are
  // counted.
  datatype State = State(cfg: Config, head: nat, tail: nat, seen: nat, cells: seq<Cell>, threads: seq<Thread>,
                         overruns: nat, pushed: seq<Elem>, fills: map<nat, nat>, takes: map<nat, nat>,
                         delivered: map<nat, Elem>, lost: map<nat, nat>, counted: set<nat>, dropped: seq<Elem>)

  ghost predicate Init(s: State) {
    && Built(s.cfg)
    && s.head == 0 && s.tail == 0 && s.seen == 0
    && |s.cells| == s.cfg.ring && (forall i :: 0 <= i < |s.cells| ==> s.cells[i] == Cell(i, None, i))
    && (forall p :: 0 <= p < |s.threads| ==> s.threads[p] == Idle)
    && s.overruns == 0 && s.pushed == [] && s.fills == map[] && s.takes == map[]
    && s.delivered == map[] && s.lost == map[] && s.counted == {} && s.dropped == []
  }

  // ------------------------------------------------- the sequential queue

  // How many of n the queue of capacity cap takes when it holds used.
  function Room(cap: nat, used: nat, n: nat): nat {
    if used >= cap then 0 else Min(n, cap - used)
  }

  function SeqPush(cap: nat, q: seq<Elem>, items: seq<Elem>): seq<Elem> {
    q + items[..Room(cap, |q|, |items|)]
  }

  function SeqPop(q: seq<Elem>, n: nat): (r: (seq<Elem>, seq<Elem>)) {
    (q[Min(n, |q|)..], q[..Min(n, |q|)])
  }

  function SeqOverrun(cap: nat, q: seq<Elem>, v: Elem): seq<Elem> {
    if cap == 0 then q else if |q| >= cap then q[1..] + [v] else q + [v]
  }

  // The queue a state stands for.
  ghost function Queue(s: State): seq<Elem>
    requires s.head <= s.tail == |s.pushed|
  {
    s.pushed[s.head..]
  }

  // ----------------------------------------------------------------- steps

  ghost predicate At(s: State, p: nat) {
    p < |s.threads| && s.threads[p].Call?
  }

  ghost predicate Goes(s: State, s': State, p: nat, at: Stage) {
    At(s, p) && s' == s.(threads := s.threads[p := s.threads[p].(at := at)])
  }

  // The call returns; what it answers is read off the step that ends it.
  ghost predicate Returns(s: State, s': State, p: nat) {
    At(s, p) && s' == s.(threads := s.threads[p := Idle])
  }

  ghost predicate Simple(op: Op) {
    op.Size? || (op.Push? && |op.items| == 1) || (op.Pop? && op.n == 1)
  }

  // The contract: one thread at a time on a side built for one.
  ghost predicate Alone(s: State, p: nat, op: Op) {
    forall q :: 0 <= q < |s.threads| && q != p && s.threads[q].Call? ==>
      && (op.Push? && s.threads[q].op.Push? ==> s.cfg.mp)
      && (op.Pop? && s.threads[q].op.Pop? ==> s.cfg.mc)
  }

  function Start(c: Config, op: Op): Stage {
    if c.packed then Load
    else match op
      case Push(_) => PushTail
      case Pop(_) => PopHead
      case Overrun(_) => Load
      case Size => SizeHead
  }

  ghost predicate Begin(s: State, s': State, p: nat, op: Op) {
    && p < |s.threads| && s.threads[p].Idle?
    && (if s.cfg.packed then op.Overrun? ==> s.cfg.overrun else Simple(op))
    && Alone(s, p, op)
    && s' == s.(threads := s.threads[p := Call(op, Start(s.cfg, op), [], [])])
  }

  // try_push, split.
  ghost predicate PushReadTail(s: State, s': State, p: nat) {
    At(s, p) && s.threads[p].at.PushTail? && Goes(s, s', p, PushHead(s.tail))
  }

  // With 32-bit tickets t - h wraps when h is past t, and reads as full.
  predicate LooksFull(cap: nat, t: nat, h: nat) {
    t < h || t - h >= cap
  }

  ghost predicate PushReadHead(s: State, s': State, p: nat) {
    && At(s, p) && s.threads[p].at.PushHead?
    && var t := s.threads[p].at.t;
       Goes(s, s', p, if LooksFull(s.cfg.cap, t, s.head) then PushAgain(t, s.head) else PushCas(t, s.head))
  }

  ghost predicate PushRefuse(s: State, s': State, p: nat) {
    && At(s, p) && s.threads[p].at.PushAgain? && s.tail == s.threads[p].at.t
    && Returns(s, s', p)
  }

  ghost predicate PushRetry(s: State, s': State, p: nat) {
    && At(s, p)
    && ((s.threads[p].at.PushAgain? && s.tail != s.threads[p].at.t) || (s.threads[p].at.PushCas? && s.cfg.mp))
    && Goes(s, s', p, PushTail)
  }

  ghost predicate PushTicket(s: State, s': State, p: nat) {
    && At(s, p) && s.threads[p].at.PushCas? && s.threads[p].op.Push? && |s.threads[p].op.items| == 1
    && var t := s.threads[p].at.t;
       && (s.cfg.mp ==> s.tail == t)
       && TakeTickets(s, s', p, s.head, t + 1, [Fill(t, s.threads[p].op.items[0])], s.threads[p].op.items)
  }

  // consume, split.
  ghost predicate PopReadHead(s: State, s': State, p: nat) {
    At(s, p) && s.threads[p].at.PopHead? && Goes(s, s', p, PopSeen(s.head))
  }

  ghost predicate PopReadSeen(s: State, s': State, p: nat) {
    && At(s, p) && s.threads[p].at.PopSeen?
    && var h := s.threads[p].at.h;
       Goes(s, s', p, if s.seen <= h then PopTail(h) else PopCas(h))
  }

  ghost predicate PopReadTail(s: State, s': State, p: nat) {
    At(s, p) && s.threads[p].at.PopTail? && Goes(s, s', p, PopStore(s.threads[p].at.h, s.tail))
  }

  ghost predicate PopRefuse(s: State, s': State, p: nat) {
    && At(s, p) && s.threads[p].at.PopStore? && s.threads[p].at.h == s.threads[p].at.t
    && s' == s.(seen := s.threads[p].at.t, threads := s.threads[p := Idle])
  }

  ghost predicate PopRefresh(s: State, s': State, p: nat) {
    && At(s, p) && s.threads[p].at.PopStore? && s.threads[p].at.h != s.threads[p].at.t
    && s' == s.(seen := s.threads[p].at.t,
                threads := s.threads[p := s.threads[p].(at := PopCas(s.threads[p].at.h))])
  }

  ghost predicate PopRetry(s: State, s': State, p: nat) {
    At(s, p) && s.threads[p].at.PopCas? && s.cfg.mc && Goes(s, s', p, PopHead)
  }

  ghost predicate PopTicket(s: State, s': State, p: nat) {
    && At(s, p) && s.threads[p].at.PopCas? && s.threads[p].op == Pop(1)
    && var h := s.threads[p].at.h;
       && (s.cfg.mc ==> s.head == h)
       && TakeTickets(s, s', p, h + 1, s.tail, [Take(h)], [])
  }

  // size, split.
  ghost predicate SizeReadHead(s: State, s': State, p: nat) {
    At(s, p) && s.threads[p].at.SizeHead? && Goes(s, s', p, SizeTail(s.head))
  }

  ghost predicate SizeReadTail(s: State, s': State, p: nat) {
    At(s, p) && s.threads[p].at.SizeTail? && Goes(s, s', p, SizeAgain(s.threads[p].at.h, s.tail))
  }

  ghost predicate SizeRetry(s: State, s': State, p: nat) {
    && At(s, p) && s.threads[p].at.SizeAgain? && s.head != s.threads[p].at.h
    && Goes(s, s', p, SizeHead)
  }

  // Answers t - h.
  ghost predicate SizeAnswer(s: State, s': State, p: nat) {
    At(s, p) && s.threads[p].at.SizeAgain? && s.head == s.threads[p].at.h && Returns(s, s', p)
  }

  // Packed: what an operation decides from one value of the word.
  datatype Decision = Refuse | Claim(h: nat, t: nat, todo: seq<Event>, added: seq<Elem>)

  ghost function Decide(cap: nat, op: Op, h: nat, t: nat): Decision
    requires h <= t
  {
    match op
    case Push(items) =>
      var k := Room(cap, t - h, |items|);
      if k == 0 then Refuse else Claim(h, t + k, Fills(t, items[..k]), items[..k])
    case Pop(n) =>
      var k := Min(n, t - h);
      if k == 0 then Refuse else Claim(h + k, t, Takes(h, k), [])
    case Overrun(v) =>
      if cap == 0 then Refuse
      else if t - h >= cap then Claim(h + 1, t + 1, [Take(h), Count(h), Fill(t, v)], [v])
      else Claim(h, t + 1, [Fill(t, v)], [v])
    case Size => Refuse
  }

  ghost function Fills(t: nat, items: seq<Elem>): seq<Event> {
    seq(|items|, (j: nat) requires j < |items| => Fill(t + j, items[j]))
  }

  ghost function Takes(h: nat, k: nat): seq<Event> {
    seq(k, (j: nat) => Take(h + j))
  }

  // The load, or a failed compare-and-swap, which loads too. A batch of none
  // and an overrun at capacity zero look at nothing; they end here as well.
  ghost predicate PackedLoad(s: State, s': State, p: nat) {
    && At(s, p) && (s.threads[p].at.Load? || s.threads[p].at.Cas?)
    && s.head <= s.tail && Decide(s.cfg.cap, s.threads[p].op, s.head, s.tail).Claim?
    && Goes(s, s', p, Cas(s.head, s.tail))
  }

  // A push refused, a pop refused, or the size answered (tail - head).
  ghost predicate PackedAnswer(s: State, s': State, p: nat) {
    && At(s, p) && (s.threads[p].at.Load? || s.threads[p].at.Cas?)
    && s.head <= s.tail && Decide(s.cfg.cap, s.threads[p].op, s.head, s.tail).Refuse?
    && !s.threads[p].op.Overrun?
    && Returns(s, s', p)
  }

  ghost predicate PackedDrop(s: State, s': State, p: nat) {
    && At(s, p) && s.threads[p].at.Load? && s.threads[p].op.Overrun? && s.cfg.cap == 0
    && s' == s.(overruns := s.overruns + 1, dropped := s.dropped + [s.threads[p].op.v],
                threads := s.threads[p := Idle])
  }

  ghost predicate PackedTicket(s: State, s': State, p: nat) {
    && At(s, p) && s.threads[p].at.Cas?
    && s.threads[p].at.h == s.head && s.threads[p].at.t == s.tail && s.head <= s.tail
    && var d := Decide(s.cfg.cap, s.threads[p].op, s.head, s.tail);
       d.Claim? && TakeTickets(s, s', p, d.h, d.t, d.todo, d.added)
  }

  ghost function TicketsFilled(todo: seq<Event>): set<nat> {
    set e | e in todo && e.Fill? :: e.i
  }

  ghost function TicketsTaken(todo: seq<Event>): set<nat> {
    set e | e in todo && e.Take? :: e.i
  }

  // The step that takes tickets: the counters move, and the operation owes
  // the cells its events.
  ghost predicate TakeTickets(s: State, s': State, p: nat, h: nat, t: nat, todo: seq<Event>, added: seq<Elem>) {
    && At(s, p)
    && var fills := TicketsFilled(todo);
       var takes := TicketsTaken(todo);
       s' == s.(head := h, tail := t, pushed := s.pushed + added,
                fills := s.fills + (map i | i in fills :: p),
                takes := s.takes + (map i | i in takes :: p),
                lost := if s.threads[p].op.Overrun? then s.lost + (map i | i in takes :: p) else s.lost,
                threads := s.threads[p := s.threads[p].(
                  at := Work(todo, false),
                  due := if s.threads[p].op.Pop? && s.head <= h <= |s.pushed| then s.pushed[s.head..h] else [])])
  }

  // fill and take: the wait ends when the cell's sequence number is the one
  // the ticket waits for.
  ghost predicate Ready(s: State, e: Event) {
    && s.cfg.ring > 0 && |s.cells| == s.cfg.ring
    && match e
       case Take(i) => s.cells[i % s.cfg.ring].number == i + 1
       case Fill(i, _) => s.cells[i % s.cfg.ring].number == i
       case Count(_) => true
  }

  ghost predicate Working(s: State, p: nat) {
    At(s, p) && s.threads[p].at.Work? && s.threads[p].at.todo != []
  }

  ghost predicate WorkEnter(s: State, s': State, p: nat) {
    && Working(s, p) && !s.threads[p].at.inside && !s.threads[p].at.todo[0].Count?
    && Ready(s, s.threads[p].at.todo[0])
    && Goes(s, s', p, s.threads[p].at.(inside := true))
  }

  ghost predicate WorkFill(s: State, s': State, p: nat) {
    && Working(s, p) && s.threads[p].at.inside && s.threads[p].at.todo[0].Fill?
    && s.cfg.ring > 0 && |s.cells| == s.cfg.ring
    && var Fill(i, v) := s.threads[p].at.todo[0];
       var c := i % s.cfg.ring;
       s' == s.(cells := s.cells[c := s.cells[c].(number := i + 1, val := Some(v))],
                fills := s.fills - {i},
                threads := s.threads[p := s.threads[p].(at := Work(s.threads[p].at.todo[1..], false))])
  }

  ghost predicate WorkTake(s: State, s': State, p: nat) {
    && Working(s, p) && s.threads[p].at.inside && s.threads[p].at.todo[0].Take?
    && s.cfg.ring > 0 && |s.cells| == s.cfg.ring
    && var i := s.threads[p].at.todo[0].i;
       var c := i % s.cfg.ring;
       && s.cells[c].val.Some?
       && var e := s.cells[c].val.value;
          var pop := s.threads[p].op.Pop?;
          s' == s.(cells := s.cells[c := Cell(i + s.cfg.ring, None, i + s.cfg.ring)],
                   takes := s.takes - {i},
                   delivered := if pop then s.delivered[i := e] else s.delivered,
                   threads := s.threads[p := s.threads[p].(at := Work(s.threads[p].at.todo[1..], false),
                                                           got := if pop then s.threads[p].got + [e] else [])])
  }

  ghost predicate WorkCount(s: State, s': State, p: nat) {
    && Working(s, p) && s.threads[p].at.todo[0].Count?
    && s' == s.(overruns := s.overruns + 1, counted := s.counted + {s.threads[p].at.todo[0].i},
                threads := s.threads[p := s.threads[p].(at := Work(s.threads[p].at.todo[1..], false))])
  }

  // A push accepted, an overrun done, or a pop with its elements in got.
  ghost predicate WorkReturn(s: State, s': State, p: nat) {
    At(s, p) && s.threads[p].at.Work? && s.threads[p].at.todo == [] && Returns(s, s', p)
  }

  ghost predicate SplitStep(s: State, s': State, p: nat) {
    || PushReadTail(s, s', p) || PushReadHead(s, s', p) || PushRefuse(s, s', p) || PushRetry(s, s', p)
    || PushTicket(s, s', p) || PopReadHead(s, s', p) || PopReadSeen(s, s', p) || PopReadTail(s, s', p)
    || PopRefuse(s, s', p) || PopRefresh(s, s', p) || PopRetry(s, s', p) || PopTicket(s, s', p)
    || SizeReadHead(s, s', p) || SizeReadTail(s, s', p) || SizeRetry(s, s', p) || SizeAnswer(s, s', p)
  }

  ghost predicate PackedStep(s: State, s': State, p: nat) {
    PackedLoad(s, s', p) || PackedAnswer(s, s', p) || PackedDrop(s, s', p) || PackedTicket(s, s', p)
  }

  ghost predicate CellStep(s: State, s': State, p: nat) {
    || WorkEnter(s, s', p) || WorkFill(s, s', p) || WorkTake(s, s', p) || WorkCount(s, s', p)
    || WorkReturn(s, s', p)
  }

  ghost predicate Step(s: State, s': State, p: nat) {
    || (exists op :: Begin(s, s', p, op))
    || SplitStep(s, s', p) || PackedStep(s, s', p) || CellStep(s, s', p)
  }

  ghost predicate Next(s: State, s': State) {
    exists p: nat :: Step(s, s', p)
  }

  ghost predicate IsRun(run: seq<State>) {
    && |run| > 0 && Init(run[0])
    && forall i :: 0 <= i < |run| - 1 ==> Next(run[i], run[i + 1])
  }

  // ------------------------------------------------------------- invariant

  ghost predicate CountersOk(c: Config, head: nat, tail: nat, seen: nat, pushed: seq<Elem>) {
    Built(c) && head <= tail <= head + c.cap && seen <= tail && |pushed| == tail
  }

  function CellOf(cells: seq<Cell>, i: nat): Cell
    requires |cells| > 0
  {
    cells[i % |cells|]
  }

  // A cell is free for its ticket, or holds the element of its ticket; the
  // previous lap's ticket has been taken.
  ghost predicate CellOk(ring: nat, head: nat, pushed: seq<Elem>, at: nat, c: Cell)
    requires ring > 0
  {
    && c.ticket % ring == at && c.ticket < head + ring
    && if c.val.None? then c.number == c.ticket
       else c.number == c.ticket + 1 && c.ticket < |pushed| && c.val.value == pushed[c.ticket]
  }

  ghost predicate CellsOk(c: Config, head: nat, pushed: seq<Elem>, cells: seq<Cell>) {
    && c.ring > 0 && |cells| == c.ring
    && forall i :: 0 <= i < |cells| ==> CellOk(c.ring, head, pushed, i, cells[i])
  }

  // Ticket i has been filled; ticket i has been emptied.
  ghost predicate Filled(cells: seq<Cell>, i: nat)
    requires |cells| > 0
  {
    CellOf(cells, i).ticket > i || (CellOf(cells, i).ticket == i && CellOf(cells, i).val.Some?)
  }

  ghost predicate Emptied(cells: seq<Cell>, i: nat)
    requires |cells| > 0
  {
    CellOf(cells, i).ticket > i
  }

  // A ticket taken is owed by a thread exactly until its cell has been
  // filled, or emptied.
  ghost predicate OwedOk(head: nat, tail: nat, cells: seq<Cell>, fills: map<nat, nat>, takes: map<nat, nat>)
    requires |cells| > 0
  {
    && (forall i: nat :: i in fills <==> i < tail && !Filled(cells, i))
    && (forall i: nat :: i in takes <==> i < head && !Emptied(cells, i))
  }

  function Rank(e: Event): nat {
    match e case Fill(i, _) => 3 * i case Take(i) => 3 * i + 1 case Count(i) => 3 * i + 2
  }

  ghost predicate Ranked(todo: seq<Event>) {
    forall j, k :: 0 <= j < k < |todo| ==> Rank(todo[j]) < Rank(todo[k])
  }

  // Event e is thread p's to do.
  ghost predicate Owned(s: State, p: nat, e: Event) {
    match e
    case Fill(i, v) => i in s.fills && s.fills[i] == p && i < |s.pushed| && v == s.pushed[i]
    case Take(i) => i in s.takes && s.takes[i] == p
    case Count(i) => i in s.lost && s.lost[i] == p && i !in s.counted
  }

  ghost predicate Owes(s: State, p: nat, e: Event) {
    At(s, p) && s.threads[p].at.Work? && e in s.threads[p].at.todo
  }

  ghost predicate OwnersOk(s: State) {
    && (forall i :: i in s.fills ==> i < |s.pushed| && Owes(s, s.fills[i], Fill(i, s.pushed[i])))
    && (forall i :: i in s.takes ==> Owes(s, s.takes[i], Take(i)))
    && (forall i :: i in s.lost && i !in s.counted ==> Owes(s, s.lost[i], Count(i)))
  }

  ghost predicate StageOk(c: Config, head: nat, tail: nat, op: Op, at: Stage) {
    match at
    case PushTail => !c.packed && op.Push? && |op.items| == 1
    case PushHead(t) => !c.packed && op.Push? && |op.items| == 1 && t <= tail && (!c.mp ==> t == tail)
    case PushAgain(t, h) =>
      !c.packed && op.Push? && |op.items| == 1 && t <= tail && h <= head && (!c.mp ==> t == tail)
    case PushCas(t, h) =>
      && !c.packed && op.Push? && |op.items| == 1 && t <= tail && (!c.mp ==> t == tail)
      && h <= head && !LooksFull(c.cap, t, h)
    case PopHead => !c.packed && op == Pop(1)
    case PopSeen(h) => !c.packed && op == Pop(1) && h <= head && (!c.mc ==> h == head)
    case PopTail(h) => !c.packed && op == Pop(1) && h <= head && (!c.mc ==> h == head)
    case PopStore(h, t) => !c.packed && op == Pop(1) && h <= head && (!c.mc ==> h == head) && h <= t <= tail
    case PopCas(h) => !c.packed && op == Pop(1) && h <= head && (!c.mc ==> h == head) && h < tail
    case SizeHead => !c.packed && op.Size?
    case SizeTail(h) => !c.packed && op.Size? && h <= head
    case SizeAgain(h, t) => !c.packed && op.Size? && h <= head && h <= t <= tail
    case Load => c.packed
    case Cas(_, _) => c.packed && (op.Overrun? ==> c.cap > 0)
    case Work(_, _) => !op.Size?
  }

  // A pop hands out what the sequential queue gave it, in order.
  ghost predicate PopOk(pushed: seq<Elem>, t: Thread)
    requires t.Call? && t.at.Work?
  {
    && |t.got| + |t.at.todo| == |t.due| && t.got == t.due[..|t.got|]
    && forall j :: 0 <= j < |t.at.todo| ==>
         t.at.todo[j].Take? && t.at.todo[j].i < |pushed| && pushed[t.at.todo[j].i] == t.due[|t.got| + j]
  }

  ghost predicate InsideOk(cells: seq<Cell>, e: Event)
    requires |cells| > 0
  {
    match e
    case Take(i) => CellOf(cells, i).ticket == i && CellOf(cells, i).val.Some?
    case Fill(i, _) => CellOf(cells, i).ticket == i && CellOf(cells, i).val.None?
    case Count(_) => false
  }

  ghost predicate WorkOk(s: State, p: nat, t: Thread)
    requires t.Call? && t.at.Work? && |s.cells| > 0
  {
    && Ranked(t.at.todo)
    && (forall e :: e in t.at.todo ==> Owned(s, p, e))
    && (t.at.inside ==> t.at.todo != [] && InsideOk(s.cells, t.at.todo[0]))
    && (t.op.Pop? ==> PopOk(s.pushed, t))
    && (forall e :: e in t.at.todo && e.Take? ==> (t.op.Pop? && e.i !in s.lost) || (t.op.Overrun? && e.i in s.lost))
  }

  ghost predicate ThreadOk(s: State, p: nat, t: Thread)
    requires |s.cells| > 0
  {
    t.Call? ==>
      && StageOk(s.cfg, s.head, s.tail, t.op, t.at)
      && (t.at.Work? ==> WorkOk(s, p, t))
      && (!t.at.Work? ==> t.got == [])
  }

  ghost predicate SidesOk(c: Config, threads: seq<Thread>) {
    forall p, q :: 0 <= p < q < |threads| && threads[p].Call? && threads[q].Call? ==>
      && (threads[p].op.Push? && threads[q].op.Push? ==> c.mp)
      && (threads[p].op.Pop? && threads[q].op.Pop? ==> c.mc)
  }

  // Every ticket a pop or an overrun has taken is in one place.
  ghost predicate FateOk(s: State) {
    && (forall i :: i in s.delivered ==>
          i < s.head && i < |s.pushed| && s.delivered[i] == s.pushed[i] && i !in s.lost && i !in s.takes)
    && (forall i :: i in s.lost ==> i < s.head)
    && (forall i: nat :: i < s.head ==> i in s.delivered || i in s.lost || i in s.takes)
    && s.counted <= s.lost.Keys && s.overruns == |s.counted| + |s.dropped|
  }

  ghost predicate QueueOk(s: State) {
    && CountersOk(s.cfg, s.head, s.tail, s.seen, s.pushed)
    && CellsOk(s.cfg, s.head, s.pushed, s.cells)
    && OwedOk(s.head, s.tail, s.cells, s.fills, s.takes)
    && FateOk(s)
  }

  ghost predicate ThreadsOk(s: State)
    requires |s.cells| > 0
  {
    && OwnersOk(s)
    && (forall p :: 0 <= p < |s.threads| ==> ThreadOk(s, p, s.threads[p]))
    && SidesOk(s.cfg, s.threads)
  }

  ghost predicate Inv(s: State) {
    QueueOk(s) && ThreadsOk(s)
  }

  lemma SmallRemainder(i: nat, r: nat)
    requires i < r
    ensures i % r == i
  {}

  lemma InitCells(s: State)
    requires Init(s)
    ensures CellsOk(s.cfg, s.head, s.pushed, s.cells)
  {
    forall i: nat | i < |s.cells| ensures CellOk(s.cfg.ring, 0, [], i, s.cells[i]) {
      SmallRemainder(i, s.cfg.ring);
    }
  }

  lemma InitHolds(s: State)
    requires Init(s)
    ensures Inv(s)
  {
    InitCells(s);
    assert OwedOk(s.head, s.tail, s.cells, s.fills, s.takes) && FateOk(s);
  }

  // ------------------------------------------------- steps keep the invariant

  lemma Multiples(r: nat, a: nat, b: nat)
    ensures a < b ==> r * a + r <= r * b
  {
    if a < b {
      assert r * b == r * (a + 1) + r * (b - a - 1);
    }
  }

  // Two tickets of one cell are at least a lap apart.
  lemma Laps(a: nat, b: nat, r: nat)
    requires r > 0 && a < b && a % r == b % r
    ensures a + r <= b
  {
    assert a == r * (a / r) + a % r && b == r * (b / r) + b % r;
    Multiples(r, a / r, b / r);
    Multiples(r, b / r, a / r);
  }

  lemma NextLap(i: nat, r: nat)
    requires r > 0
    ensures (i + r) % r == i % r
  {
    var n := i + r;
    assert n == r * (n / r) + n % r && i == r * (i / r) + i % r;
    assert r * (i / r + 1) == r * (i / r) + r;
    Multiples(r, n / r, i / r + 1);
    Multiples(r, i / r + 1, n / r);
  }

  // A ticket no pop has taken has not been emptied.
  lemma NotEmptied(s: State, i: nat)
    requires CellsOk(s.cfg, s.head, s.pushed, s.cells) && s.head <= i
    ensures CellOf(s.cells, i).ticket <= i
  {
    var at := i % s.cfg.ring;
    assert CellOk(s.cfg.ring, s.head, s.pushed, at, s.cells[at]);
    if s.cells[at].ticket > i {
      Laps(i, s.cells[at].ticket, s.cfg.ring);
    }
  }

  // What other threads owe is not touched by a step of thread p.
  ghost predicate OthersLeft(s: State, s': State, p: nat) {
    && s'.cfg == s.cfg && s.pushed <= s'.pushed && |s'.cells| == |s.cells|
    && (forall i :: i in s.fills && s.fills[i] != p ==> i in s'.fills && s'.fills[i] == s.fills[i])
    && (forall i :: i in s.takes && s.takes[i] != p ==> i in s'.takes && s'.takes[i] == s.takes[i])
    && (forall i :: i in s.lost ==> i in s'.lost && s'.lost[i] == s.lost[i])
    && (forall i :: i in s.lost && s.lost[i] != p && i !in s.counted ==> i !in s'.counted)
    && (forall i :: i in s'.lost && i !in s.lost ==> i >= s.head)
  }

  ghost predicate StageHolds(c: Config, head: nat, tail: nat, head': nat, tail': nat, t: Thread) {
    t.Call? && StageOk(c, head, tail, t.op, t.at) ==> StageOk(c, head', tail', t.op, t.at)
  }

  lemma OtherThread(s: State, s': State, p: nat, q: nat)
    requires |s.cells| > 0 && OthersLeft(s, s', p) && q != p && q < |s.threads|
    requires ThreadOk(s, q, s.threads[q]) && StageHolds(s.cfg, s.head, s.tail, s'.head, s'.tail, s.threads[q])
    requires forall i :: i in s.takes ==> i < s.head
    requires s.threads[q].Call? && s.threads[q].at.Work? && s.threads[q].at.inside ==>
               s.threads[q].at.todo != [] && (InsideOk(s.cells, s.threads[q].at.todo[0]) ==>
                 InsideOk(s'.cells, s.threads[q].at.todo[0]))
    ensures ThreadOk(s', q, s.threads[q])
  {
    var t := s.threads[q];
    if t.Call? && t.at.Work? {
      forall e | e in t.at.todo ensures Owned(s', q, e) { assert Owned(s, q, e); }
      assert forall e :: e in t.at.todo && e.Take? ==> Owned(s, q, e);
    }
  }

  // A step that moves no counter and touches no cell.
  lemma QuietKeeps(s: State, s': State, p: nat, t: Thread)
    requires Inv(s) && p < |s.threads|
    requires s' == s.(seen := s'.seen, overruns := s'.overruns, dropped := s'.dropped, threads := s.threads[p := t])
    requires s'.seen <= s'.tail && s'.overruns - |s'.dropped| == s.overruns - |s.dropped|
    requires ThreadOk(s', p, t)
    requires s.threads[p].Call? && s.threads[p].at.Work? && s.threads[p].at.todo != [] ==>
               t.Call? && t.at.Work? && t.at.todo == s.threads[p].at.todo
    requires SidesOk(s'.cfg, s'.threads)
    ensures Inv(s')
  {
    assert forall q, e :: Owes(s, q, e) ==> Owes(s', q, e);
    forall q | 0 <= q < |s.threads| && q != p ensures ThreadOk(s', q, s.threads[q]) {
      OtherThread(s, s', p, q);
    }
  }

  ghost predicate PushLook(s: State, s': State, p: nat) {
    PushReadTail(s, s', p) || PushReadHead(s, s', p) || PushRefuse(s, s', p) || PushRetry(s, s', p)
  }

  ghost predicate PopLook(s: State, s': State, p: nat) {
    || PopReadHead(s, s', p) || PopReadSeen(s, s', p) || PopReadTail(s, s', p) || PopRefuse(s, s', p)
    || PopRefresh(s, s', p) || PopRetry(s, s', p)
  }

  ghost predicate SizeLook(s: State, s': State, p: nat) {
    SizeReadHead(s, s', p) || SizeReadTail(s, s', p) || SizeRetry(s, s', p) || SizeAnswer(s, s', p)
  }

  ghost predicate PackedLook(s: State, s': State, p: nat) {
    PackedLoad(s, s', p) || PackedAnswer(s, s', p) || PackedDrop(s, s', p) || WorkReturn(s, s', p)
  }

  lemma SidesKept(c: Config, threads: seq<Thread>, p: nat, t: Thread)
    requires SidesOk(c, threads) && p < |threads|
    requires t.Idle? || (threads[p].Call? && t.op == threads[p].op)
    ensures SidesOk(c, threads[p := t])
  {}

  // What a look leaves: the counters and the cells, and nothing owed.
  ghost predicate LookOk(s: State, s': State, p: nat) {
    && At(s, p) && |s.cells| > 0
    && |s'.threads| == |s.threads|
    && s' == s.(seen := s'.seen, overruns := s'.overruns, dropped := s'.dropped,
                threads := s.threads[p := s'.threads[p]])
    && s'.seen <= s'.tail && s'.overruns - |s'.dropped| == s.overruns - |s.dropped|
    && ThreadOk(s', p, s'.threads[p])
    && (s'.threads[p].Idle? || s'.threads[p].op == s.threads[p].op)
    && (s.threads[p].at.Work? ==> s.threads[p].at.todo == [])
  }

  ghost predicate CanLook(s: State, p: nat) {
    && CountersOk(s.cfg, s.head, s.tail, s.seen, s.pushed) && |s.cells| > 0
    && At(s, p) && ThreadOk(s, p, s.threads[p])
  }

  lemma PushLookOk(s: State, s': State, p: nat)
    requires CanLook(s, p) && PushLook(s, s', p)
    ensures LookOk(s, s', p)
  {}

  lemma PopLookOk(s: State, s': State, p: nat)
    requires CanLook(s, p) && PopLook(s, s', p)
    ensures LookOk(s, s', p)
  {}

  lemma SizeLookOk(s: State, s': State, p: nat)
    requires CanLook(s, p) && SizeLook(s, s', p)
    ensures LookOk(s, s', p)
  {}

  lemma PackedLookOk(s: State, s': State, p: nat)
    requires CanLook(s, p) && PackedLook(s, s', p)
    ensures LookOk(s, s', p)
  {}

  lemma LookKeeps(s: State, s': State, p: nat)
    requires Inv(s) && LookOk(s, s', p)
    ensures Inv(s')
  {
    SidesKept(s.cfg, s.threads, p, s'.threads[p]);
    QuietKeeps(s, s', p, s'.threads[p]);
  }

  lemma BeginKeeps(s: State, s': State, p: nat, op: Op)
    requires Inv(s) && Begin(s, s', p, op)
    ensures Inv(s')
  {
    QuietKeeps(s, s', p, s'.threads[p]);
  }

  lemma WorkEnterKeeps(s: State, s': State, p: nat)
    requires Inv(s) && WorkEnter(s, s', p)
    ensures Inv(s')
  {
    assert ThreadOk(s, p, s.threads[p]);
    ReadyMeans(s, s.threads[p].at.todo[0]);
    EnteredOk(s, s', p);
    SidesKept(s.cfg, s.threads, p, s'.threads[p]);
    QuietKeeps(s, s', p, s'.threads[p]);
  }

  lemma EnteredOk(s: State, s': State, p: nat)
    requires |s.cells| > 0 && WorkEnter(s, s', p) && ThreadOk(s, p, s.threads[p])
    requires InsideOk(s.cells, s.threads[p].at.todo[0])
    ensures ThreadOk(s', p, s'.threads[p])
  {
    assert forall e :: e in s.threads[p].at.todo ==> Owned(s, p, e);
  }

  // The number a ticket waits for says what it should: this is where the
  // ring needs two cells or more.
  lemma ReadyMeans(s: State, e: Event)
    requires Built(s.cfg) && CellsOk(s.cfg, s.head, s.pushed, s.cells) && !e.Count?
    ensures Ready(s, e) <==> InsideOk(s.cells, e)
  {
    var c := CellOf(s.cells, e.i);
    assert CellOk(s.cfg.ring, s.head, s.pushed, e.i % s.cfg.ring, c);
    if c.ticket == e.i + 1 { Laps(e.i, e.i + 1, s.cfg.ring); }
    if c.ticket + 1 == e.i { Laps(c.ticket, e.i, s.cfg.ring); }
  }

  // The claim of tickets that an operation makes from the counters as they
  // are: [head, h) to take, [tail, t) to fill.
  ghost predicate ClaimOk(s: State, p: nat, h: nat, t: nat, todo: seq<Event>, added: seq<Elem>) {
    && At(s, p) && !s.threads[p].at.Work? && s.threads[p].got == []
    && s.head <= h <= s.tail && t == s.tail + |added| && h <= t <= h + s.cfg.cap
    && Ranked(todo)
    && (forall i: nat :: i in TicketsFilled(todo) <==> s.tail <= i < t)
    && (forall i: nat :: i in TicketsTaken(todo) <==> s.head <= i < h)
    && (forall e :: e in todo ==> Claims(s, p, h, t, added, e))
    && match s.threads[p].op
       case Push(_) => h == s.head
       case Pop(_) => todo == Takes(s.head, h - s.head) && t == s.tail
       case Overrun(_) => s.cfg.packed && h <= s.head + 1 && (s.head < h ==> Count(s.head) in todo)
       case Size => false
  }

  ghost predicate Claims(s: State, p: nat, h: nat, t: nat, added: seq<Elem>, e: Event)
    requires At(s, p) && t == s.tail + |added|
  {
    match e
    case Fill(i, v) => s.tail <= i < t && v == added[i - s.tail]
    case Take(i) => s.head <= i < h
    case Count(i) => s.head <= i < h && s.threads[p].op.Overrun?
  }

  // What the step that takes tickets leaves.
  ghost predicate Claimed(s: State, s': State, p: nat, h: nat, t: nat, todo: seq<Event>, added: seq<Elem>) {
    && At(s, p) && s'.cfg == s.cfg && s'.cells == s.cells && s'.head == h && s'.tail == t && s'.seen == s.seen
    && s'.pushed == s.pushed + added && s'.counted == s.counted && s'.delivered == s.delivered
    && s'.overruns == s.overruns && s'.dropped == s.dropped
    && |s'.threads| == |s.threads| && s'.threads == s.threads[p := s'.threads[p]]
    && s'.threads[p].Call? && s'.threads[p].op == s.threads[p].op && s'.threads[p].got == s.threads[p].got
    && s'.threads[p].at == Work(todo, false)
    && (s.threads[p].op.Pop? && s.head <= h <= |s.pushed| ==> s'.threads[p].due == s.pushed[s.head..h])
    && (forall i: nat :: i in s'.fills <==> i in s.fills || s.tail <= i < t)
    && (forall i: nat :: i in s'.takes <==> i in s.takes || s.head <= i < h)
    && (forall i: nat :: i in s'.lost <==> i in s.lost || (s.threads[p].op.Overrun? && s.head <= i < h))
    && (forall i :: i in s'.fills ==> s'.fills[i] == if i in s.fills then s.fills[i] else p)
    && (forall i :: i in s'.takes ==> s'.takes[i] == if i in s.takes then s.takes[i] else p)
    && (forall i :: i in s'.lost ==> s'.lost[i] == if i in s.lost then s.lost[i] else p)
  }

  lemma TicketMaps(s: State, s': State, p: nat, h: nat, t: nat, todo: seq<Event>, added: seq<Elem>)
    requires ClaimOk(s, p, h, t, todo, added) && TakeTickets(s, s', p, h, t, todo, added)
    requires (forall i :: i in s.fills ==> i < s.tail) && (forall i :: i in s.takes ==> i < s.head)
    requires forall i :: i in s.lost ==> i < s.head
    ensures Claimed(s, s', p, h, t, todo, added)
  {}

  lemma NotFilled(s: State, i: nat)
    requires CellsOk(s.cfg, s.head, s.pushed, s.cells) && s.head <= |s.pushed| <= i
    ensures !Filled(s.cells, i)
  {
    NotEmptied(s, i);
    assert CellOk(s.cfg.ring, s.head, s.pushed, i % s.cfg.ring, CellOf(s.cells, i));
  }

  lemma TicketsOwed(s: State, s': State, p: nat, h: nat, t: nat, todo: seq<Event>, added: seq<Elem>)
    requires CellsOk(s.cfg, s.head, s.pushed, s.cells) && s.head <= s.tail == |s.pushed|
    requires OwedOk(s.head, s.tail, s.cells, s.fills, s.takes)
    requires Claimed(s, s', p, h, t, todo, added) && s.head <= h && s.tail <= t
    ensures OwedOk(s'.head, s'.tail, s'.cells, s'.fills, s'.takes)
  {
    forall i: nat ensures i in s'.fills <==> i < t && !Filled(s.cells, i) {
      if s.tail <= i { NotFilled(s, i); }
    }
    forall i: nat ensures i in s'.takes <==> i < h && !Emptied(s.cells, i) {
      if s.head <= i { NotEmptied(s, i); }
    }
  }

  lemma TicketsFillOwners(s: State, s': State, p: nat, h: nat, t: nat, todo: seq<Event>, added: seq<Elem>)
    requires OwnersOk(s) && |s.pushed| == s.tail
    requires ClaimOk(s, p, h, t, todo, added) && Claimed(s, s', p, h, t, todo, added)
    requires forall q, e :: Owes(s, q, e) ==> Owes(s', q, e)
    ensures forall i :: i in s'.fills ==> i < |s'.pushed| && Owes(s', s'.fills[i], Fill(i, s'.pushed[i]))
  {
    forall i | i in s'.fills ensures i < |s'.pushed| && Owes(s', s'.fills[i], Fill(i, s'.pushed[i])) {
      if i in s.fills {
        assert Owes(s, s.fills[i], Fill(i, s.pushed[i]));
      } else {
        assert i in TicketsFilled(todo) && s'.pushed[i] == added[i - s.tail];
      }
    }
  }

  lemma TicketsTakeOwners(s: State, s': State, p: nat, h: nat, t: nat, todo: seq<Event>, added: seq<Elem>)
    requires OwnersOk(s) && ClaimOk(s, p, h, t, todo, added) && Claimed(s, s', p, h, t, todo, added)
    requires forall q, e :: Owes(s, q, e) ==> Owes(s', q, e)
    ensures forall i :: i in s'.takes ==> Owes(s', s'.takes[i], Take(i))
  {
    forall i | s.head <= i < h ensures Owes(s', p, Take(i)) {
      assert i in TicketsTaken(todo);
    }
  }

  lemma TicketsLostOwners(s: State, s': State, p: nat, h: nat, t: nat, todo: seq<Event>, added: seq<Elem>)
    requires OwnersOk(s) && ClaimOk(s, p, h, t, todo, added) && Claimed(s, s', p, h, t, todo, added)
    requires forall q, e :: Owes(s, q, e) ==> Owes(s', q, e)
    ensures forall i :: i in s'.lost && i !in s'.counted ==> Owes(s', s'.lost[i], Count(i))
  {}

  lemma TicketsOwners(s: State, s': State, p: nat, h: nat, t: nat, todo: seq<Event>, added: seq<Elem>)
    requires OwnersOk(s) && |s.pushed| == s.tail
    requires ClaimOk(s, p, h, t, todo, added) && Claimed(s, s', p, h, t, todo, added)
    ensures OwnersOk(s')
  {
    OwesStays(s, s', p);
    TicketsFillOwners(s, s', p, h, t, todo, added);
    TicketsTakeOwners(s, s', p, h, t, todo, added);
    TicketsLostOwners(s, s', p, h, t, todo, added);
  }

  lemma OwesStays(s: State, s': State, p: nat)
    requires At(s, p) && !s.threads[p].at.Work? && |s'.threads| == |s.threads|
    requires forall q :: 0 <= q < |s.threads| && q != p ==> s'.threads[q] == s.threads[q]
    ensures forall q, e :: Owes(s, q, e) ==> Owes(s', q, e)
  {}

  lemma TicketsFate(s: State, s': State, p: nat, h: nat, t: nat, todo: seq<Event>, added: seq<Elem>)
    requires FateOk(s) && |s.pushed| == s.tail && (forall i :: i in s.takes ==> i < s.head)
    requires ClaimOk(s, p, h, t, todo, added) && Claimed(s, s', p, h, t, todo, added)
    ensures FateOk(s') && OthersLeft(s, s', p)
  {}

  lemma TicketsOwn(s: State, s': State, p: nat, h: nat, t: nat, todo: seq<Event>, added: seq<Elem>)
    requires |s.cells| > 0 && |s.pushed| == s.tail && (forall i :: i in s.fills ==> i < s.tail)
    requires (forall i :: i in s.takes ==> i < s.head) && (forall i :: i in s.lost ==> i < s.head)
            && s.counted <= s.lost.Keys
    requires ClaimOk(s, p, h, t, todo, added) && Claimed(s, s', p, h, t, todo, added)
    ensures ThreadOk(s', p, s'.threads[p])
  {
    forall e | e in todo ensures Owned(s', p, e) {
      if e.Take? { assert e.i in TicketsTaken(todo); }
    }
  }

  lemma TicketsStage(s: State, p: nat, h: nat, t: nat, q: nat, todo: seq<Event>, added: seq<Elem>)
    requires ClaimOk(s, p, h, t, todo, added) && SidesOk(s.cfg, s.threads) && q != p && q < |s.threads|
    requires s.cfg.packed || s.threads[p].op.Push? || s.threads[p].op.Pop?
    ensures StageHolds(s.cfg, s.head, s.tail, h, t, s.threads[q])
  {
    if q < p {} else {}
  }

  lemma TicketsOthers(s: State, s': State, p: nat, h: nat, t: nat, todo: seq<Event>, added: seq<Elem>)
    requires |s.cells| > 0 && SidesOk(s.cfg, s.threads) && ClaimOk(s, p, h, t, todo, added)
    requires forall q :: 0 <= q < |s.threads| ==> ThreadOk(s, q, s.threads[q])
    requires OthersLeft(s, s', p) && s'.cells == s.cells && s'.head == h && s'.tail == t
    requires forall i :: i in s.takes ==> i < s.head
    ensures forall q :: 0 <= q < |s.threads| && q != p ==> ThreadOk(s', q, s.threads[q])
  {
    forall q | 0 <= q < |s.threads| && q != p ensures ThreadOk(s', q, s.threads[q]) {
      TicketsStage(s, p, h, t, q, todo, added);
      OtherThread(s, s', p, q);
    }
  }

  lemma CellsStay(c: Config, head: nat, pushed: seq<Elem>, cells: seq<Cell>, head': nat, pushed': seq<Elem>)
    requires CellsOk(c, head, pushed, cells) && head <= head' && pushed <= pushed'
    ensures CellsOk(c, head', pushed', cells)
  {
    forall i | 0 <= i < |cells| ensures CellOk(c.ring, head', pushed', i, cells[i]) {
      assert CellOk(c.ring, head, pushed, i, cells[i]);
    }
  }

  lemma TicketsQueue(s: State, s': State, p: nat, h: nat, t: nat, todo: seq<Event>, added: seq<Elem>)
    requires QueueOk(s) && ClaimOk(s, p, h, t, todo, added) && TakeTickets(s, s', p, h, t, todo, added)
    ensures QueueOk(s') && Claimed(s, s', p, h, t, todo, added) && OthersLeft(s, s', p)
  {
    TicketMaps(s, s', p, h, t, todo, added);
    TicketsOwed(s, s', p, h, t, todo, added);
    TicketsFate(s, s', p, h, t, todo, added);
    CellsStay(s.cfg, s.head, s.pushed, s.cells, h, s'.pushed);
  }

  lemma TicketsThreads(s: State, s': State, p: nat, h: nat, t: nat, todo: seq<Event>, added: seq<Elem>)
    requires |s.cells| > 0 && ThreadsOk(s) && |s.pushed| == s.tail && (forall i :: i in s.fills ==> i < s.tail)
    requires (forall i :: i in s.takes ==> i < s.head) && (forall i :: i in s.lost ==> i < s.head)
            && s.counted <= s.lost.Keys
    requires ClaimOk(s, p, h, t, todo, added) && Claimed(s, s', p, h, t, todo, added) && OthersLeft(s, s', p)
    ensures ThreadsOk(s')
  {
    TicketsOwners(s, s', p, h, t, todo, added);
    TicketsOwn(s, s', p, h, t, todo, added);
    TicketsOthers(s, s', p, h, t, todo, added);
    SidesKept(s.cfg, s.threads, p, s'.threads[p]);
  }

  lemma TicketsKeep(s: State, s': State, p: nat, h: nat, t: nat, todo: seq<Event>, added: seq<Elem>)
    requires Inv(s) && ClaimOk(s, p, h, t, todo, added) && TakeTickets(s, s', p, h, t, todo, added)
    ensures Inv(s')
  {
    TicketsQueue(s, s', p, h, t, todo, added);
    TicketsThreads(s, s', p, h, t, todo, added);
  }

  lemma PushTicketKeeps(s: State, s': State, p: nat)
    requires Inv(s) && PushTicket(s, s', p)
    ensures Inv(s') && s.tail == s.threads[p].at.t
    ensures ClaimOk(s, p, s.head, s.tail + 1, [Fill(s.tail, s.threads[p].op.items[0])], s.threads[p].op.items)
  {
    assert ThreadOk(s, p, s.threads[p]);
    var items := s.threads[p].op.items;
    assert [Fill(s.tail, items[0])] == Fills(s.tail, items);
    PushClaim(s, p, items);
    TicketsKeep(s, s', p, s.head, s.tail + 1, [Fill(s.tail, items[0])], items);
  }

  lemma PopTicketKeeps(s: State, s': State, p: nat)
    requires Inv(s) && PopTicket(s, s', p)
    ensures Inv(s') && s.head == s.threads[p].at.h
    ensures ClaimOk(s, p, s.head + 1, s.tail, [Take(s.head)], [])
  {
    assert ThreadOk(s, p, s.threads[p]);
    var h := s.threads[p].at.h;
    assert [Take(h)] == Takes(h, 1);
    TakesAre(h, 1);
    PopClaim(s, p, 1);
    TicketsKeep(s, s', p, h + 1, s.tail, [Take(h)], []);
  }

  lemma PopClaim(s: State, p: nat, k: nat)
    requires CountersOk(s.cfg, s.head, s.tail, s.seen, s.pushed) && At(s, p) && s.threads[p].op.Pop?
    requires !s.threads[p].at.Work? && s.threads[p].got == [] && s.head + k <= s.tail
    ensures ClaimOk(s, p, s.head + k, s.tail, Takes(s.head, k), [])
  {
    TakesAre(s.head, k);
  }

  lemma PushClaim(s: State, p: nat, added: seq<Elem>)
    requires CountersOk(s.cfg, s.head, s.tail, s.seen, s.pushed) && At(s, p) && s.threads[p].op.Push?
    requires !s.threads[p].at.Work? && s.threads[p].got == [] && s.tail + |added| <= s.head + s.cfg.cap
    ensures ClaimOk(s, p, s.head, s.tail + |added|, Fills(s.tail, added), added)
  {
    FillsAre(s.tail, added);
  }

  lemma DecisionOk(s: State, p: nat)
    requires CountersOk(s.cfg, s.head, s.tail, s.seen, s.pushed) && At(s, p) && s.cfg.packed
    requires !s.threads[p].at.Work? && s.threads[p].got == []
    ensures var d := Decide(s.cfg.cap, s.threads[p].op, s.head, s.tail);
            d.Claim? ==> ClaimOk(s, p, d.h, d.t, d.todo, d.added)
  {
    var op := s.threads[p].op;
    var d := Decide(s.cfg.cap, op, s.head, s.tail);
    if d.Claim? {
      match op
      case Push(items) => PushClaim(s, p, d.added);
      case Pop(n) => PopClaim(s, p, d.h - s.head);
      case Overrun(v) => OverrunClaim(s, p, d.todo);
    }
  }

  lemma FillsAre(t: nat, items: seq<Elem>)
    ensures Ranked(Fills(t, items)) && TicketsTaken(Fills(t, items)) == {}
    ensures forall i: nat :: i in TicketsFilled(Fills(t, items)) <==> t <= i < t + |items|
    ensures forall e :: e in Fills(t, items) ==> e.Fill? && t <= e.i < t + |items| && e.v == items[e.i - t]
  {
    forall i: nat | t <= i < t + |items| ensures i in TicketsFilled(Fills(t, items)) {
      assert Fills(t, items)[i - t] in Fills(t, items);
    }
  }

  lemma TakesAre(h: nat, k: nat)
    ensures Ranked(Takes(h, k)) && TicketsFilled(Takes(h, k)) == {}
    ensures forall i: nat :: i in TicketsTaken(Takes(h, k)) <==> h <= i < h + k
    ensures forall e :: e in Takes(h, k) ==> e.Take?
  {
    forall i: nat | h <= i < h + k ensures i in TicketsTaken(Takes(h, k)) {
      assert Takes(h, k)[i - h] in Takes(h, k);
    }
  }

  lemma OverrunClaim(s: State, p: nat, todo: seq<Event>)
    requires CountersOk(s.cfg, s.head, s.tail, s.seen, s.pushed) && At(s, p) && s.threads[p].op.Overrun?
    requires !s.threads[p].at.Work? && s.threads[p].got == [] && s.cfg.packed && s.cfg.cap > 0
    requires var full := s.tail - s.head >= s.cfg.cap;
             var fill := Fill(s.tail, s.threads[p].op.v);
             todo == if full then [Take(s.head), Count(s.head), fill] else [fill]
    ensures var h := if s.tail - s.head >= s.cfg.cap then s.head + 1 else s.head;
            ClaimOk(s, p, h, s.tail + 1, todo, [s.threads[p].op.v])
  {
    assert todo[|todo| - 1] in todo && todo[0] in todo;
    assert TicketsFilled(todo) == {s.tail};
    assert TicketsTaken(todo) == if s.tail - s.head >= s.cfg.cap then {s.head} else {};
    if s.tail - s.head >= s.cfg.cap { assert todo[1] in todo; }
  }

  lemma PackedTicketKeeps(s: State, s': State, p: nat)
    requires Inv(s) && PackedTicket(s, s', p)
    ensures Inv(s')
  {
    assert ThreadOk(s, p, s.threads[p]);
    DecisionOk(s, p);
    var d := Decide(s.cfg.cap, s.threads[p].op, s.head, s.tail);
    TicketsKeep(s, s', p, d.h, d.t, d.todo, d.added);
  }

  // The first event done, the rest still owed.
  lemma RestOwed(s: State, p: nat)
    requires Working(s, p) && |s.cells| > 0 && ThreadOk(s, p, s.threads[p])
    ensures var todo := s.threads[p].at.todo;
            && Owned(s, p, todo[0])
            && forall e :: e in todo[1..] ==> e in todo && e != todo[0] && Rank(todo[0]) < Rank(e) && Owned(s, p, e)
    ensures forall e :: e in s.threads[p].at.todo ==> e == s.threads[p].at.todo[0] || e in s.threads[p].at.todo[1..]
  {
    var todo := s.threads[p].at.todo;
    forall e | e in todo[1..] ensures e in todo && Rank(todo[0]) < Rank(e) {
      var k :| 0 <= k < |todo[1..]| && todo[1..][k] == e;
      assert todo[k + 1] == e;
    }
  }

  // Thread p has done its first event: it is no longer owed, and nothing else
  // has changed hands.
  ghost predicate DidFirst(s: State, s': State, p: nat) {
    && Working(s, p) && |s'.threads| == |s.threads| && s'.threads == s.threads[p := s'.threads[p]]
    && s'.threads[p].Call? && s'.threads[p].op == s.threads[p].op && s'.threads[p].due == s.threads[p].due
    && s'.threads[p].at == Work(s.threads[p].at.todo[1..], false)
    && s'.cfg == s.cfg && s'.head == s.head && s'.tail == s.tail && s'.pushed == s.pushed && s'.lost == s.lost
    && |s'.cells| == |s.cells|
    && var e := s.threads[p].at.todo[0];
       && s'.fills == (if e.Fill? then s.fills - {e.i} else s.fills)
       && s'.takes == (if e.Take? then s.takes - {e.i} else s.takes)
       && s'.counted == (if e.Count? then s.counted + {e.i} else s.counted)
  }

  lemma RestOwners(s: State, s': State, p: nat)
    requires |s.cells| > 0 && OwnersOk(s) && DidFirst(s, s', p) && ThreadOk(s, p, s.threads[p])
    ensures OwnersOk(s')
  {
    RestOwed(s, p);
    var first := s.threads[p].at.todo[0];
    forall q, e | Owes(s, q, e) && !(q == p && e == first) ensures Owes(s', q, e) {}
    forall i | i in s'.fills ensures Owes(s', s'.fills[i], Fill(i, s'.pushed[i])) {
      assert Owes(s, s.fills[i], Fill(i, s.pushed[i]));
    }
    forall i | i in s'.takes ensures Owes(s', s'.takes[i], Take(i)) {
      assert Owes(s, s.takes[i], Take(i));
    }
    forall i | i in s'.lost && i !in s'.counted ensures Owes(s', s'.lost[i], Count(i)) {
      assert Owes(s, s.lost[i], Count(i));
    }
  }

  // The thread's own part; got moves on if it took an element for a pop.
  lemma RestOwn(s: State, s': State, p: nat)
    requires |s.cells| > 0 && DidFirst(s, s', p) && ThreadOk(s, p, s.threads[p])
    requires s.threads[p].op.Pop? && s.threads[p].at.todo[0].Take? && s.threads[p].at.todo[0].i < |s.pushed| ==>
               s'.threads[p].got == s.threads[p].got + [s.pushed[s.threads[p].at.todo[0].i]]
    ensures ThreadOk(s', p, s'.threads[p])
  {
    RestOwed(s, p);
    var t, t' := s.threads[p], s'.threads[p];
    forall e | e in t'.at.todo ensures Owned(s', p, e) { assert Owned(s, p, e); }
    assert forall j :: 0 <= j < |t'.at.todo| ==> t'.at.todo[j] == t.at.todo[j + 1];
    if t.op.Pop? {
      assert t'.got == t.due[..|t'.got|];
    }
  }

  // Two threads are never inside one cell.
  lemma InsideApart(s: State, p: nat, q: nat)
    requires |s.cells| > 0 && p != q && Working(s, p) && Working(s, q)
    requires ThreadOk(s, p, s.threads[p]) && ThreadOk(s, q, s.threads[q])
    requires s.threads[p].at.inside && s.threads[q].at.inside
    ensures s.threads[p].at.todo[0].i % |s.cells| != s.threads[q].at.todo[0].i % |s.cells|
  {
    var e, f := s.threads[p].at.todo[0], s.threads[q].at.todo[0];
    assert Owned(s, p, e) && Owned(s, q, f);
  }

  lemma WorkThreads(s: State, s': State, p: nat)
    requires |s.cells| > 0 && ThreadsOk(s) && DidFirst(s, s', p) && (forall i :: i in s.takes ==> i < s.head)
    requires ThreadOk(s', p, s'.threads[p])
    requires s.threads[p].at.todo[0].Count? ==> s'.cells == s.cells
    requires !s.threads[p].at.todo[0].Count? ==>
               && s.threads[p].at.inside
               && forall c :: 0 <= c < |s.cells| && c != s.threads[p].at.todo[0].i % |s.cells| ==>
                   s'.cells[c] == s.cells[c]
    ensures ThreadsOk(s')
  {
    assert ThreadOk(s, p, s.threads[p]);
    RestOwners(s, s', p);
    SidesKept(s.cfg, s.threads, p, s'.threads[p]);
    forall q | 0 <= q < |s.threads| && q != p ensures ThreadOk(s', q, s.threads[q]) {
      OtherWorker(s, s', p, q);
    }
  }

  lemma OtherWorker(s: State, s': State, p: nat, q: nat)
    requires |s.cells| > 0 && DidFirst(s, s', p) && (forall i :: i in s.takes ==> i < s.head)
    requires q < |s.threads| && q != p && ThreadOk(s, p, s.threads[p]) && ThreadOk(s, q, s.threads[q])
    requires s.threads[p].at.todo[0].Count? ==> s'.cells == s.cells
    requires !s.threads[p].at.todo[0].Count? ==>
               && s.threads[p].at.inside
               && forall c :: 0 <= c < |s.cells| && c != s.threads[p].at.todo[0].i % |s.cells| ==>
                   s'.cells[c] == s.cells[c]
    ensures ThreadOk(s', q, s.threads[q])
  {
    RestOwed(s, p);
    if Working(s, q) && s.threads[q].at.inside && !s.threads[p].at.todo[0].Count? {
      InsideApart(s, p, q);
    }
    OtherThread(s, s', p, q);
  }

  lemma FilledQueue(s: State, s': State, p: nat)
    requires QueueOk(s) && WorkFill(s, s', p) && Owned(s, p, s.threads[p].at.todo[0])
    requires InsideOk(s.cells, s.threads[p].at.todo[0])
    ensures QueueOk(s')
  {
    var i := s.threads[p].at.todo[0].i;
    assert CellOk(s.cfg.ring, s.head, s.pushed, i % s.cfg.ring, CellOf(s.cells, i));
    forall c | 0 <= c < |s.cells| ensures CellOk(s.cfg.ring, s.head, s.pushed, c, s'.cells[c]) {
      assert CellOk(s.cfg.ring, s.head, s.pushed, c, s.cells[c]);
    }
    forall j: nat ensures Filled(s'.cells, j) <==> Filled(s.cells, j) || j == i {}
    forall j: nat ensures Emptied(s'.cells, j) <==> Emptied(s.cells, j) {}
  }

  lemma EmptiedCells(s: State, s': State, p: nat)
    requires QueueOk(s) && WorkTake(s, s', p) && Owned(s, p, s.threads[p].at.todo[0])
    requires InsideOk(s.cells, s.threads[p].at.todo[0])
    ensures CellsOk(s'.cfg, s'.head, s'.pushed, s'.cells)
    ensures s.threads[p].at.todo[0].i < |s.pushed|
    ensures CellOf(s.cells, s.threads[p].at.todo[0].i).val == Some(s.pushed[s.threads[p].at.todo[0].i])
  {
    var i := s.threads[p].at.todo[0].i;
    var r := s.cfg.ring;
    assert CellOk(r, s.head, s.pushed, i % r, CellOf(s.cells, i));
    NextLap(i, r);
    forall c | 0 <= c < |s.cells| ensures CellOk(r, s.head, s.pushed, c, s'.cells[c]) {
      assert CellOk(r, s.head, s.pushed, c, s.cells[c]);
    }
  }

  lemma EmptiedQueue(s: State, s': State, p: nat)
    requires QueueOk(s) && WorkTake(s, s', p) && Owned(s, p, s.threads[p].at.todo[0])
    requires InsideOk(s.cells, s.threads[p].at.todo[0])
    requires s.threads[p].op.Pop? <==> s.threads[p].at.todo[0].i !in s.lost
    ensures QueueOk(s')
    ensures s.threads[p].at.todo[0].i < |s.pushed|
    ensures CellOf(s.cells, s.threads[p].at.todo[0].i).val == Some(s.pushed[s.threads[p].at.todo[0].i])
  {
    EmptiedCells(s, s', p);
    EmptiedTickets(s.cells, s'.cells, s.threads[p].at.todo[0].i);
  }

  lemma EmptiedTickets(cells: seq<Cell>, cells': seq<Cell>, i: nat)
    requires |cells| > 0 && InsideOk(cells, Take(i))
    requires cells' == cells[i % |cells| := Cell(i + |cells|, None, i + |cells|)]
    ensures forall j: nat :: Filled(cells', j) <==> Filled(cells, j)
    ensures forall j: nat :: Emptied(cells', j) <==> Emptied(cells, j) || j == i
  {
    forall j: nat
      ensures (Filled(cells', j) <==> Filled(cells, j)) && (Emptied(cells', j) <==> Emptied(cells, j) || j == i)
    {
      if j % |cells| == i % |cells| && i < j { Laps(i, j, |cells|); }
    }
  }

  lemma WorkFillKeeps(s: State, s': State, p: nat)
    requires Inv(s) && WorkFill(s, s', p)
    ensures Inv(s')
  {
    assert ThreadOk(s, p, s.threads[p]);
    RestOwed(s, p);
    FilledQueue(s, s', p);
    RestOwn(s, s', p);
    WorkThreads(s, s', p);
  }

  lemma WorkTakeKeeps(s: State, s': State, p: nat)
    requires Inv(s) && WorkTake(s, s', p)
    ensures Inv(s')
  {
    assert ThreadOk(s, p, s.threads[p]);
    RestOwed(s, p);
    EmptiedQueue(s, s', p);
    RestOwn(s, s', p);
    WorkThreads(s, s', p);
  }

  lemma WorkCountKeeps(s: State, s': State, p: nat)
    requires Inv(s) && WorkCount(s, s', p)
    ensures Inv(s')
  {
    assert ThreadOk(s, p, s.threads[p]);
    RestOwed(s, p);
    RestOwn(s, s', p);
    WorkThreads(s, s', p);
  }

  lemma SplitStepKeeps(s: State, s': State, p: nat)
    requires Inv(s) && SplitStep(s, s', p)
    ensures Inv(s')
  {
    if PushTicket(s, s', p) {
      PushTicketKeeps(s, s', p);
    } else if PopTicket(s, s', p) {
      PopTicketKeeps(s, s', p);
    } else {
      assert CanLook(s, p);
      if PushLook(s, s', p) { PushLookOk(s, s', p); }
      else if PopLook(s, s', p) { PopLookOk(s, s', p); }
      else { SizeLookOk(s, s', p); }
      LookKeeps(s, s', p);
    }
  }

  lemma StepKeeps(s: State, s': State, p: nat)
    requires Inv(s) && Step(s, s', p)
    ensures Inv(s')
  {
    if op :| Begin(s, s', p, op) { BeginKeeps(s, s', p, op); }
    else if SplitStep(s, s', p) { SplitStepKeeps(s, s', p); }
    else if PackedTicket(s, s', p) { PackedTicketKeeps(s, s', p); }
    else if WorkEnter(s, s', p) { WorkEnterKeeps(s, s', p); }
    else if WorkFill(s, s', p) { WorkFillKeeps(s, s', p); }
    else if WorkTake(s, s', p) { WorkTakeKeeps(s, s', p); }
    else if WorkCount(s, s', p) { WorkCountKeeps(s, s', p); }
    else {
      assert CanLook(s, p);
      PackedLookOk(s, s', p);
      LookKeeps(s, s', p);
    }
  }

  lemma {:induction false} RunHolds(run: seq<State>, n: nat)
    requires IsRun(run) && n < |run|
    ensures Inv(run[n])
  {
    if n == 0 {
      InitHolds(run[0]);
    } else {
      RunHolds(run, n - 1);
      var p: nat :| Step(run[n - 1], run[n], p);
      StepKeeps(run[n - 1], run[n], p);
    }
  }

  // ------------------------------------------------ what is promised: answers

  ghost predicate TakesTickets(s: State, s': State, p: nat) {
    PushTicket(s, s', p) || PopTicket(s, s', p) || PackedTicket(s, s', p)
  }

  // The sequential queue's own move, on the operation of thread p.
  ghost predicate SequentialMove(s: State, s': State, p: nat)
    requires At(s, p) && At(s', p)
    requires s.head <= s.tail == |s.pushed| && s'.head <= s'.tail == |s'.pushed|
  {
    match s.threads[p].op
    case Push(items) =>
      Room(s.cfg.cap, |Queue(s)|, |items|) > 0 && Queue(s') == SeqPush(s.cfg.cap, Queue(s), items)
    case Pop(n) => n > 0 && Queue(s) != [] && (Queue(s'), s'.threads[p].due) == SeqPop(Queue(s), n)
    case Overrun(v) => s.cfg.cap > 0 && Queue(s') == SeqOverrun(s.cfg.cap, Queue(s), v)
    case Size => false
  }

  lemma ClaimMoves(s: State, s': State, p: nat, h: nat, t: nat, todo: seq<Event>, added: seq<Elem>)
    requires s.head <= s.tail == |s.pushed| && ClaimOk(s, p, h, t, todo, added)
    requires TakeTickets(s, s', p, h, t, todo, added)
    ensures s'.head == h <= s'.tail == t == |s'.pushed| && At(s', p) && s'.threads[p].op == s.threads[p].op
    ensures Queue(s') == Queue(s)[h - s.head..] + added
    ensures s.threads[p].op.Pop? ==> s'.threads[p].due == Queue(s)[..h - s.head]
  {
    assert s'.pushed[h..] == s.pushed[h..] + added;
    assert Queue(s)[h - s.head..] == s.pushed[h..] && Queue(s)[..h - s.head] == s.pushed[s.head..h];
  }

  lemma PushMoves(s: State, s': State, p: nat)
    requires Inv(s) && PushTicket(s, s', p)
    ensures s'.head <= s'.tail == |s'.pushed| && At(s', p) && SequentialMove(s, s', p)
  {
    PushTicketKeeps(s, s', p);
    var items := s.threads[p].op.items;
    ClaimMoves(s, s', p, s.head, s.tail + 1, [Fill(s.tail, items[0])], items);
    assert items[..1] == items && Room(s.cfg.cap, |Queue(s)|, 1) == 1;
    assert Queue(s') == Queue(s) + items;
  }

  lemma PopMoves(s: State, s': State, p: nat)
    requires Inv(s) && PopTicket(s, s', p)
    ensures s'.head <= s'.tail == |s'.pushed| && At(s', p) && SequentialMove(s, s', p)
  {
    PopTicketKeeps(s, s', p);
    ClaimMoves(s, s', p, s.head + 1, s.tail, [Take(s.head)], []);
    assert Queue(s)[1..] + [] == Queue(s)[1..] && |Queue(s)| == s.tail - s.head;
  }

  lemma PackedMoves(s: State, s': State, p: nat)
    requires s.head <= s.tail == |s.pushed| && PackedTicket(s, s', p)
    requires var d := Decide(s.cfg.cap, s.threads[p].op, s.head, s.tail);
             ClaimOk(s, p, d.h, d.t, d.todo, d.added)
    ensures s'.head <= s'.tail == |s'.pushed| && At(s', p) && SequentialMove(s, s', p)
  {
    var d := Decide(s.cfg.cap, s.threads[p].op, s.head, s.tail);
    ClaimMoves(s, s', p, d.h, d.t, d.todo, d.added);
    DecisionMoves(s.cfg.cap, s.threads[p].op, s.head, s.tail, Queue(s));
  }

  // What is decided from the counters is what the sequential queue does.
  lemma DecisionMoves(cap: nat, op: Op, h: nat, t: nat, q: seq<Elem>)
    requires h <= t && |q| == t - h && Decide(cap, op, h, t).Claim?
    ensures var d := Decide(cap, op, h, t);
            h <= d.h <= t &&
            match op
            case Push(items) => Room(cap, |q|, |items|) > 0 && q[d.h - h..] + d.added == SeqPush(cap, q, items)
            case Pop(n) => n > 0 && q != [] && (q[d.h - h..] + d.added, q[..d.h - h]) == SeqPop(q, n)
            case Overrun(v) => cap > 0 && q[d.h - h..] + d.added == SeqOverrun(cap, q, v)
            case Size => false
  {
    var d := Decide(cap, op, h, t);
    assert q[0..] == q && (op.Pop? ==> q[d.h - h..] + [] == q[d.h - h..]);
  }

  ghost predicate SameQueue(s: State, s': State) {
    s'.cfg == s.cfg && s'.head == s.head && s'.tail == s.tail && s'.pushed == s.pushed
  }

  lemma PushSame(s: State, s': State, p: nat)
    requires PushLook(s, s', p)
    ensures SameQueue(s, s')
  {}

  lemma PopSame(s: State, s': State, p: nat)
    requires PopLook(s, s', p)
    ensures SameQueue(s, s')
  {}

  lemma SizeSame(s: State, s': State, p: nat)
    requires SizeLook(s, s', p)
    ensures SameQueue(s, s')
  {}

  lemma PackedSame(s: State, s': State, p: nat)
    requires PackedLook(s, s', p)
    ensures SameQueue(s, s')
  {}

  lemma CellSame(s: State, s': State, p: nat)
    requires CellStep(s, s', p)
    ensures SameQueue(s, s')
  {}

  lemma QuietFrame(s: State, s': State, p: nat)
    requires Step(s, s', p) && !TakesTickets(s, s', p)
    ensures SameQueue(s, s')
  {
    if PushLook(s, s', p) { PushSame(s, s', p); }
    else if PopLook(s, s', p) { PopSame(s, s', p); }
    else if CellStep(s, s', p) { CellSame(s, s', p); }
    else if SizeLook(s, s', p) { SizeSame(s, s', p); }
    else if PackedLook(s, s', p) { PackedSame(s, s', p); }
  }

  lemma PackedRefines(s: State, s': State, p: nat)
    requires Inv(s) && PackedTicket(s, s', p)
    ensures s.head <= s.tail == |s.pushed| && s'.head <= s'.tail == |s'.pushed|
    ensures At(s, p) && At(s', p) && SequentialMove(s, s', p)
  {
    assert ThreadOk(s, p, s.threads[p]);
    DecisionOk(s, p);
    PackedMoves(s, s', p);
  }

  lemma StepRefines(s: State, s': State, p: nat)
    requires Inv(s) && Step(s, s', p)
    ensures RefinedBy(s, s', p)
  {
    if PushTicket(s, s', p) { PushMoves(s, s', p); }
    else if PopTicket(s, s', p) { PopMoves(s, s', p); }
    else if PackedTicket(s, s', p) { PackedRefines(s, s', p); }
    else { QuietFrame(s, s', p); }
  }

  // A step of thread p: the sequential queue's move if it takes p's tickets,
  // and none otherwise.
  ghost predicate RefinedBy(s: State, s': State, p: nat) {
    && s.head <= s.tail == |s.pushed| && s'.head <= s'.tail == |s'.pushed| && Step(s, s', p)
    && if TakesTickets(s, s', p) then At(s, p) && At(s', p) && SequentialMove(s, s', p) else Queue(s') == Queue(s)
  }

  ghost predicate RefinedAt(run: seq<State>, n: nat, p: nat)
    requires n + 1 < |run|
  {
    RefinedBy(run[n], run[n + 1], p)
  }

  /** The queue refines the sequential one: in every run the step at which an
      operation takes its tickets, inside its call, is the sequential queue's
      move for it, and no other step changes the queue. */
  lemma Refines(run: seq<State>, n: nat)
    requires IsRun(run) && n + 1 < |run|
    ensures exists p: nat :: RefinedAt(run, n, p)
  {
    RunHolds(run, n);
    assert Next(run[n], run[n + 1]);
    var p: nat :| Step(run[n], run[n + 1], p);
    StepRefines(run[n], run[n + 1], p);
    assert RefinedAt(run, n, p);
  }

  /** The bound, and each pop's elements: in every state of every run the queue
      holds at most its capacity, and a pop that returns hands out exactly what
      the sequential queue gave it at its step. */
  lemma BoundAndPops(run: seq<State>, n: nat, p: nat)
    requires IsRun(run) && n < |run|
    ensures var s := run[n]; s.head <= s.tail == |s.pushed| && |Queue(s)| <= s.cfg.cap
    ensures At(run[n], p) && run[n].threads[p].op.Pop? && run[n].threads[p].at.Work?
            && run[n].threads[p].at.todo == [] ==>
              run[n].threads[p].got == run[n].threads[p].due
  {
    RunHolds(run, n);
    if At(run[n], p) { assert ThreadOk(run[n], p, run[n].threads[p]); }
  }

  /** A packed refusal or size is the sequential queue's answer at its step. */
  lemma PackedAnswerExact(run: seq<State>, n: nat, p: nat)
    requires IsRun(run) && n + 1 < |run| && PackedAnswer(run[n], run[n + 1], p)
    ensures var s := run[n];
            && s.head <= s.tail == |s.pushed|
            && match s.threads[p].op
               case Push(items) => items == [] || |Queue(s)| == s.cfg.cap
               case Pop(k) => k == 0 || Queue(s) == []
               case Overrun(_) => false
               case Size => s.tail - s.head == |Queue(s)|
  {
    RunHolds(run, n);
  }

  lemma TicketFrame(s: State, s': State, p: nat)
    requires Inv(s) && TakesTickets(s, s', p)
    ensures s'.cfg == s.cfg && s.head <= s'.head && s.tail <= s'.tail
  {
    assert ThreadOk(s, p, s.threads[p]);
    if PackedTicket(s, s', p) {
      DecisionMoves(s.cfg.cap, s.threads[p].op, s.head, s.tail, Queue(s));
    }
  }

  ghost predicate Later(s: State, s': State) {
    s'.cfg == s.cfg && s.head <= s'.head && s.tail <= s'.tail
  }

  lemma CountersStep(s: State, s': State)
    requires Inv(s) && Next(s, s')
    ensures Later(s, s')
  {
    var p: nat :| Step(s, s', p);
    if TakesTickets(s, s', p) { TicketFrame(s, s', p); } else { QuietFrame(s, s', p); }
  }

  ghost predicate LaterAt(run: seq<State>, k: nat)
    requires k + 1 < |run|
  {
    Later(run[k], run[k + 1])
  }

  lemma {:induction false} LaterFrom(run: seq<State>, i: nat, n: nat)
    requires i <= n < |run| && forall k: nat :: k < |run| - 1 ==> LaterAt(run, k)
    ensures Later(run[i], run[n])
    decreases n
  {
    if i < n {
      LaterFrom(run, i, n - 1);
      assert LaterAt(run, n - 1);
    }
  }

  lemma CountersGrow(run: seq<State>, i: nat, n: nat)
    requires IsRun(run) && i <= n < |run|
    ensures Later(run[i], run[n])
  {
    forall k: nat | k < |run| - 1 ensures LaterAt(run, k) {
      RunHolds(run, k);
      CountersStep(run[k], run[k + 1]);
    }
    LaterFrom(run, i, n);
  }

  // Thread p has been in one call from state i to state e.
  ghost predicate InCall(run: seq<State>, p: nat, i: nat, e: nat) {
    i <= e < |run| && forall j :: i <= j <= e ==> At(run[j], p)
  }

  // How a step of thread p leaves the threads, and what p then knows at the
  // last of its reads.
  ghost predicate ThreadMoves(s: State, s': State, p: nat) {
    && p < |s.threads| == |s'.threads|
    && (forall q :: 0 <= q < |s.threads| && q != p ==> s'.threads[q] == s.threads[q])
    && (At(s', p) ==> KnowsAtRead(s', s'.threads[p].at))
  }

  ghost predicate KnowsAtRead(s: State, at: Stage) {
    match at
    case PushAgain(t, h) => h == s.head && LooksFull(s.cfg.cap, t, h)
    case PopStore(h, t) => t == s.tail
    case SizeAgain(h, t) => t == s.tail
    case _ => true
  }

  lemma PushLookMoves(s: State, s': State, p: nat)
    requires PushLook(s, s', p)
    ensures ThreadMoves(s, s', p)
  {}

  lemma PopLookMoves(s: State, s': State, p: nat)
    requires PopLook(s, s', p)
    ensures ThreadMoves(s, s', p)
  {}

  lemma TicketMoves(s: State, s': State, p: nat)
    requires PushTicket(s, s', p) || PopTicket(s, s', p)
    ensures ThreadMoves(s, s', p)
  {}

  lemma PackedTicketMoves(s: State, s': State, p: nat)
    requires PackedTicket(s, s', p)
    ensures ThreadMoves(s, s', p)
  {}

  lemma SizeLookMoves(s: State, s': State, p: nat)
    requires SizeLook(s, s', p)
    ensures ThreadMoves(s, s', p)
  {}

  lemma PackedLookMoves(s: State, s': State, p: nat)
    requires PackedLook(s, s', p)
    ensures ThreadMoves(s, s', p)
  {}

  lemma CellStepMoves(s: State, s': State, p: nat)
    requires CellStep(s, s', p)
    ensures ThreadMoves(s, s', p)
  {}

  lemma StepMoves(s: State, s': State, p: nat)
    requires Step(s, s', p)
    ensures ThreadMoves(s, s', p)
  {
    if op :| Begin(s, s', p, op) {}
    else if PushLook(s, s', p) { PushLookMoves(s, s', p); }
    else if PopLook(s, s', p) { PopLookMoves(s, s', p); }
    else if PushTicket(s, s', p) || PopTicket(s, s', p) { TicketMoves(s, s', p); }
    else if PackedTicket(s, s', p) { PackedTicketMoves(s, s', p); }
    else if CellStep(s, s', p) { CellStepMoves(s, s', p); }
    else if SizeLook(s, s', p) { SizeLookMoves(s, s', p); }
    else { PackedLookMoves(s, s', p); }
  }

  lemma {:induction false} ThreadCount(run: seq<State>, n: nat)
    requires IsRun(run) && n < |run|
    ensures |run[n].threads| == |run[0].threads|
  {
    if n > 0 {
      ThreadCount(run, n - 1);
      var q: nat :| Step(run[n - 1], run[n], q);
      StepMoves(run[n - 1], run[n], q);
    }
  }

  // The state at which thread p came to stand where it stands at e.
  lemma {:induction false} Since(run: seq<State>, p: nat, e: nat) returns (i: nat)
    requires e < |run| && (forall j :: 0 <= j < |run| ==> p < |run[j].threads|)
    requires run[0].threads[p].Idle? && run[e].threads[p].Call?
    ensures 0 < i <= e && InCall(run, p, i, e) && run[i].threads[p] == run[e].threads[p]
    ensures run[i - 1].threads[p] != run[i].threads[p]
  {
    if run[e - 1].threads[p] == run[e].threads[p] {
      i := Since(run, p, e - 1);
    } else {
      i := e;
    }
  }

  // The same, in a run: thread p made the step there.
  lemma Reached(run: seq<State>, p: nat, e: nat) returns (i: nat)
    requires IsRun(run) && e < |run| && At(run[e], p)
    ensures 0 < i <= e && InCall(run, p, i, e) && run[i].threads[p] == run[e].threads[p]
    ensures ThreadMoves(run[i - 1], run[i], p)
  {
    forall j | 0 <= j < |run| ensures p < |run[j].threads| {
      ThreadCount(run, e);
      ThreadCount(run, j);
    }
    i := Since(run, p, e);
    var q: nat :| Step(run[i - 1], run[i], q);
    StepMoves(run[i - 1], run[i], q);
  }

  // The length of the queue in state i of a run.
  ghost function Length(run: seq<State>, i: nat): int
    requires i < |run|
  {
    run[i].tail - run[i].head
  }

  /** A split push refused: at one instant inside the call the queue held
      exactly its capacity, though the refusal is decided by three reads with
      pushes and pops between them. */
  lemma PushRefusalExact(run: seq<State>, p: nat, e: nat)
    requires IsRun(run) && e + 1 < |run| && PushRefuse(run[e], run[e + 1], p)
    ensures exists i: nat :: InCall(run, p, i, e) && Length(run, i) == run[i].cfg.cap
  {
    var i := Reached(run, p, e);
    CountersGrow(run, i, e);
    RunHolds(run, i);
    assert ThreadOk(run[i], p, run[i].threads[p]);
    assert InCall(run, p, i, e) && Length(run, i) == run[i].cfg.cap;
  }

  /** A split pop refused: at one instant inside the call the queue was empty. */
  lemma PopRefusalExact(run: seq<State>, p: nat, e: nat)
    requires IsRun(run) && e + 1 < |run| && PopRefuse(run[e], run[e + 1], p)
    ensures exists i: nat :: InCall(run, p, i, e) && Length(run, i) == 0
  {
    var i := Reached(run, p, e);
    RunHolds(run, i);
    assert ThreadOk(run[i], p, run[i].threads[p]);
    assert InCall(run, p, i, e) && Length(run, i) == 0;
  }

  /** The split size is the number of elements at one instant inside the call. */
  lemma SizeExact(run: seq<State>, p: nat, e: nat)
    requires IsRun(run) && e + 1 < |run| && SizeAnswer(run[e], run[e + 1], p)
    ensures exists i: nat :: InCall(run, p, i, e) && Length(run, i) == run[e].threads[p].at.t - run[e].threads[p].at.h
  {
    var i := Reached(run, p, e);
    CountersGrow(run, i, e);
    RunHolds(run, i);
    assert ThreadOk(run[i], p, run[i].threads[p]);
    assert InCall(run, p, i, e) && Length(run, i) == run[e].threads[p].at.t - run[e].threads[p].at.h;
  }

  // ------------------------------------------------ what is promised: cells

  /** In every run no cell is touched by two operations at once. */
  lemma CellsApart(run: seq<State>, n: nat, p: nat, q: nat)
    requires IsRun(run) && n < |run| && p != q && Working(run[n], p) && Working(run[n], q)
    requires run[n].threads[p].at.inside && run[n].threads[q].at.inside
    ensures |run[n].cells| > 0
    ensures run[n].threads[p].at.todo[0].i % |run[n].cells| != run[n].threads[q].at.todo[0].i % |run[n].cells|
  {
    RunHolds(run, n);
    InsideApart(run[n], p, q);
  }

  // A wait is for an event of lower rank that another operation owes: the one
  // that moves the cell on.
  lemma WaitsForLower(s: State, p: nat) returns (q: nat, e: Event)
    requires Inv(s) && Working(s, p) && !s.threads[p].at.todo[0].Count? && !InsideOk(s.cells, s.threads[p].at.todo[0])
    ensures Owes(s, q, e) && Rank(e) < Rank(s.threads[p].at.todo[0])
    ensures !e.Count? && e.i == CellOf(s.cells, s.threads[p].at.todo[0].i).ticket
  {
    var f := s.threads[p].at.todo[0];
    assert ThreadOk(s, p, s.threads[p]) && Owned(s, p, f);
    var r := s.cfg.ring;
    var c := CellOf(s.cells, f.i);
    assert CellOk(r, s.head, s.pushed, f.i % r, c);
    if c.ticket < f.i { Laps(c.ticket, f.i, r); }
    assert CellOf(s.cells, c.ticket) == c;
    if c.val.None? {
      e := Fill(c.ticket, s.pushed[c.ticket]);
      q := s.fills[c.ticket];
    } else {
      e := Take(c.ticket);
      q := s.takes[c.ticket];
    }
  }

  // The working thread whose first event is lowest, among the first n.
  lemma {:induction false} Lowest(s: State, n: nat, p0: nat) returns (p: nat)
    requires p0 < n <= |s.threads| && Working(s, p0)
    ensures p < n && Working(s, p)
    ensures forall q :: 0 <= q < n && Working(s, q) ==> Rank(s.threads[p].at.todo[0]) <= Rank(s.threads[q].at.todo[0])
  {
    if q :| 0 <= q < n - 1 && Working(s, q) {
      p := Lowest(s, n - 1, q);
      if Working(s, n - 1) && Rank(s.threads[n - 1].at.todo[0]) < Rank(s.threads[p].at.todo[0]) {
        p := n - 1;
      }
    } else {
      p := p0;
    }
  }

  lemma FirstIsLowest(s: State, q: nat, e: Event)
    requires Inv(s) && Owes(s, q, e)
    ensures Working(s, q) && Rank(s.threads[q].at.todo[0]) <= Rank(e)
  {
    assert ThreadOk(s, q, s.threads[q]);
  }

  // No thread owes an event below thread p's next one.
  ghost predicate OwesLowest(s: State, p: nat) {
    Working(s, p) && forall q, e :: Owes(s, q, e) ==> Rank(s.threads[p].at.todo[0]) <= Rank(e)
  }

  lemma LowestOwed(s: State, p0: nat) returns (p: nat)
    requires Inv(s) && Working(s, p0)
    ensures OwesLowest(s, p)
  {
    p := Lowest(s, |s.threads|, p0);
    forall q, e | Owes(s, q, e) ensures Rank(s.threads[p].at.todo[0]) <= Rank(e) {
      FirstIsLowest(s, q, e);
    }
  }

  /** The waits for cells never deadlock: while any operation is between its
      tickets and its cells, one owes the lowest event, and whichever does can
      go on. */
  lemma NeverStuck(run: seq<State>, n: nat, p0: nat)
    requires IsRun(run) && n < |run| && Working(run[n], p0)
    ensures exists p: nat :: OwesLowest(run[n], p)
    ensures forall p: nat :: OwesLowest(run[n], p) ==>
              run[n].threads[p].at.inside || Ready(run[n], run[n].threads[p].at.todo[0])
  {
    RunHolds(run, n);
    var s := run[n];
    var _ := LowestOwed(s, p0);
    forall p: nat | OwesLowest(s, p) ensures s.threads[p].at.inside || Ready(s, s.threads[p].at.todo[0]) {
      LowestReady(s, p);
    }
  }

  lemma LowestReady(s: State, p: nat)
    requires Inv(s) && OwesLowest(s, p)
    ensures s.threads[p].at.inside || Ready(s, s.threads[p].at.todo[0])
  {
    var e := s.threads[p].at.todo[0];
    if !e.Count? {
      ReadyMeans(s, e);
      if !InsideOk(s.cells, e) {
        var q, f := WaitsForLower(s, p);
        assert false;
      }
    }
  }

  // ------------------------------------------- what is promised: conservation

  /** Every element pushed is in exactly one place: queued, handed out by a pop,
      removed by an overrun, or about to be handed out by a pop that has its
      ticket. */
  lemma EachOnce(run: seq<State>, n: nat, i: nat)
    requires IsRun(run) && n < |run| && i < |run[n].pushed|
    ensures var s := run[n];
            && (i < s.head <==> i in s.delivered || i in s.lost || i in s.takes)
            && !(i in s.delivered && i in s.lost) && !(i in s.delivered && i in s.takes)
            && (i in s.delivered ==> s.delivered[i] == s.pushed[i])
  {
    RunHolds(run, n);
  }

  // No operation is under way.
  ghost predicate Quiescent(s: State) {
    forall p :: 0 <= p < |s.threads| ==> s.threads[p].Idle?
  }

  /** Once every operation has returned: the cells the destructor visits hold
      exactly the queue, in order; each pop's and overrun's ticket is accounted
      for; and the count of overruns is exact. */
  lemma AtRest(run: seq<State>, n: nat)
    requires IsRun(run) && n < |run| && Quiescent(run[n])
    ensures var s := run[n];
            && |s.cells| > 0
            && (forall i: nat :: s.head <= i < s.tail ==> i < |s.pushed| && CellOf(s.cells, i).val == Some(s.pushed[i]))
            && (forall i: nat :: i < s.head <==> i in s.delivered || i in s.lost)
            && s.overruns == |s.lost| + |s.dropped|
  {
    RunHolds(run, n);
    var s := run[n];
    assert forall q, e :: !Owes(s, q, e);
    assert s.lost.Keys == s.counted;
    forall i: nat | s.head <= i < s.tail ensures CellOf(s.cells, i).val == Some(s.pushed[i]) {
      NotEmptied(s, i);
      assert Filled(s.cells, i);
      assert CellOk(s.cfg.ring, s.head, s.pushed, i % s.cfg.ring, CellOf(s.cells, i));
    }
  }
}
