/** The bounded ring's 32-bit tickets (runtime/bounded_ring.hpp): for each test
    the code makes on wrapped tickets, exactly when it gives the answer that
    the unbounded tickets of module BoundedRing give; and the size of the ring.
    TicketRuns says when runs of the ring stay there. */
module Tickets32 {
  import BoundedRing

  const WORD := 0x1_0000_0000
  const MAX_CAPACITY := 0x4000_0000

  type Ticket = n: nat | n < WORD

  // The low 32 bits of a count.
  function Wrap(n: nat): Ticket {
    n % WORD
  }

  function Minus(a: Ticket, b: Ticket): Ticket {
    (a - b) % WORD
  }

  // The value read as a signed 32-bit number.
  function Signed(a: Ticket): int {
    if a < WORD / 2 then a else a - WORD
  }

  lemma MinusIs(t: nat, h: nat)
    ensures Minus(Wrap(t), Wrap(h)) == (t - h) % WORD
  {}

  /** The fullness test of a push, `t - h >= cap`, where the unbounded one reads
      a head past t as full. It agrees unless the push looks full and the
      distance, but for whole words, is less than the capacity. */
  lemma FullExactly(cap: nat, t: nat, h: nat)
    requires cap <= MAX_CAPACITY
    ensures (Minus(Wrap(t), Wrap(h)) >= cap <==> BoundedRing.LooksFull(cap, t, h))
            <==> !(BoundedRing.LooksFull(cap, t, h) && (t - h) % WORD < cap)
  {
    MinusIs(t, h);
  }

  /** A push's t is never more than the capacity past head. So it agrees up to
      the capacity short of a word behind, and fails there. */
  lemma FullAgrees(cap: nat, t: nat, h: nat)
    requires cap <= MAX_CAPACITY && t <= h + cap && h <= t + (WORD - cap)
    ensures Minus(Wrap(t), Wrap(h)) >= cap <==> BoundedRing.LooksFull(cap, t, h)
  {
    FullExactly(cap, t, h);
  }

  lemma FullFailsBehind(cap: nat, t: nat)
    requires 0 < cap <= MAX_CAPACITY
    ensures var h := t + (WORD - cap) + 1; BoundedRing.LooksFull(cap, t, h) && Minus(Wrap(t), Wrap(h)) < cap
  {
    MinusIs(t, t + (WORD - cap) + 1);
  }

  /** The signed test of a pop on its copy of tail, `int(seen - h) <= 0`: it
      agrees for a copy behind by at most half a word, and for one ahead by
      less, but for whole words. */
  lemma SeenExactly(seen: nat, h: nat)
    ensures (Signed(Minus(Wrap(seen), Wrap(h))) <= 0 <==> seen <= h)
            <==> if seen <= h then (h - seen) % WORD <= WORD / 2 else 0 < (seen - h) % WORD < WORD / 2
  {
    MinusIs(seen, h);
  }

  lemma SeenAgrees(seen: nat, h: nat)
    requires seen < h + WORD / 2 && h <= seen + WORD / 2
    ensures Signed(Minus(Wrap(seen), Wrap(h))) <= 0 <==> seen <= h
  {
    SeenExactly(seen, h);
  }

  /** One further behind, the copy reads as ahead: the pop takes its ticket
      without a look at tail. Half a word ahead it reads as behind, and the pop
      only looks at tail for nothing. */
  lemma SeenFailsBehind(seen: nat)
    ensures Signed(Minus(Wrap(seen), Wrap(seen + WORD / 2 + 1))) > 0
  {
    MinusIs(seen, seen + WORD / 2 + 1);
  }

  lemma SeenFailsAhead(h: nat)
    ensures Signed(Minus(Wrap(h + WORD / 2), Wrap(h))) <= 0
  {
    MinusIs(h + WORD / 2, h);
  }

  /** Equality tests: the third read of tail, head against tail, a compare-and-
      swap, a cell's number against a ticket. They agree unless the two are a
      whole number of words apart, and not equal. */
  lemma SameExactly(a: nat, b: nat)
    ensures (Wrap(a) == Wrap(b) <==> a == b) <==> a == b || (a - b) % WORD != 0
  {}

  lemma SameAgrees(a: nat, b: nat)
    requires a < b + WORD && b < a + WORD
    ensures Wrap(a) == Wrap(b) <==> a == b
  {
    SameExactly(a, b);
  }

  /** The size of a batch: what is decided from wrapped counters is what is
      decided from the counters, in every state the ring can be in. */
  lemma BatchAgrees(cap: nat, h: nat, t: nat, n: nat)
    requires cap <= MAX_CAPACITY && h <= t <= h + cap
    ensures var used := Minus(Wrap(t), Wrap(h));
            && used == t - h
            && (if used >= cap then 0 else if n < Minus(cap, used) then n else Minus(cap, used)) ==
               BoundedRing.Room(cap, t - h, n)
  {
    MinusIs(t, h);
  }

  // ------------------------------------------------------- the packed word

  function Pack(h: bv32, t: bv32): bv64 {
    ((h as bv64) << 32) | (t as bv64)
  }

  function HeadOf(s: bv64): bv32 {
    (s >> 32) as bv32
  }

  function TailOf(s: bv64): bv32 {
    (s & 0xFFFF_FFFF) as bv32
  }

  /** The two halves of the word are independent, and are the whole of it. */
  lemma PackHolds(h: bv32, t: bv32, s: bv64)
    ensures HeadOf(Pack(h, t)) == h && TailOf(Pack(h, t)) == t
    ensures Pack(HeadOf(s), TailOf(s)) == s
  {}

  // ---------------------------------------------------------- the ring size

  function Power(k: nat): nat {
    if k == 0 then 1 else 2 * Power(k - 1)
  }

  /** The least power of two, and at least two, that holds the capacity (the
      shift stops at the greatest capacity). */
  method RingSize(capacity: nat) returns (r: nat, ghost k: nat)
    ensures r == Power(k) && 2 <= r
    ensures capacity <= MAX_CAPACITY ==> capacity <= r <= MAX_CAPACITY && (r == 2 || r / 2 < capacity)
    ensures r <= MAX_CAPACITY && k <= 30
  {
    r, k := 2, 1;
    assert Power(30) == MAX_CAPACITY by { PowerOfThirty(); }
    while r < capacity && r < MAX_CAPACITY
      invariant r == Power(k) && 1 <= k <= 30 && 2 <= r <= MAX_CAPACITY
      invariant r == 2 || r / 2 < capacity
      decreases MAX_CAPACITY - r
    {
      PowerGrows(k, 30);
      r := 2 * r;
      k := k + 1;
    }
  }

  lemma {:induction false} PowerGrows(a: nat, b: nat)
    requires a <= b
    ensures Power(a) <= Power(b) && (Power(a) < Power(b) ==> 2 * Power(a) <= Power(b) && a < b)
  {
    if a < b { PowerGrows(a, b - 1); }
  }

  lemma PowerOfThirty()
    ensures Power(30) == MAX_CAPACITY
  {
    assert Power(5) == 32;
    assert Power(10) == 32 * Power(5);
    assert Power(15) == 32 * Power(10);
    assert Power(20) == 32 * Power(15);
    assert Power(25) == 32 * Power(20);
    assert Power(30) == 32 * Power(25);
  }

  lemma Twice(x: nat, y: nat)
    ensures 2 * (x * y) == (2 * x) * y
  {}

  lemma {:induction false} PowerSum(a: nat, b: nat)
    ensures Power(a + b) == Power(a) * Power(b)
  {
    if a > 0 {
      PowerSum(a - 1, b);
      Twice(Power(a - 1), Power(b));
    }
  }

  lemma {:induction false} WholeLaps(n: nat, r: nat, c: nat)
    requires r > 0
    ensures (n + r * c) % r == n % r
  {
    if c > 0 {
      WholeLaps(n, r, c - 1);
      assert r * c == r * (c - 1) + r;
      BoundedRing.NextLap(n + r * (c - 1), r);
    }
  }

  /** The cell of a wrapped ticket is the cell of the ticket: the ring's size
      divides the word. (The code masks where this takes the remainder.) */
  lemma CellAgrees(t: nat, k: nat)
    requires k <= 32
    ensures Power(k) > 0 && Wrap(t) % Power(k) == t % Power(k)
  {
    var r, m := Power(k), Power(32 - k);
    assert r * m == WORD by {
      PowerSum(k, 32 - k);
      PowerSum(30, 2);
      PowerOfThirty();
      assert Power(2) == 4;
    }
    PowerGrows(0, k);
    Multiple(Wrap(t), r, m, t / WORD);
  }

  lemma Multiple(n: nat, r: nat, m: nat, q: nat)
    requires r > 0
    ensures (n + (r * m) * q) % r == n % r
  {
    assert (r * m) * q == r * (m * q);
    WholeLaps(n, r, m * q);
  }
}
