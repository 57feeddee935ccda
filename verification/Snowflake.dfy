// Order numbers: a millisecond, a node and a sequence number in one 63-bit id, and its base-32 form.
module Snowflake {

  const EPOCH_MS: int := 1704067200000
  const MAX_NODE: nat := 1023
  const MAX_SEQ: nat := 4095
  const ID_TICKS: nat := 0x40_0000       // one millisecond, 2^(10 + 12) ids
  const NODE_TICKS: nat := 0x1000        // one node, 2^12 ids
  const LAST_MS: int := EPOCH_MS + 0x200_0000_0000 // 41 bits of milliseconds

  type nodeId = n: nat | n <= MAX_NODE
  type seqNo = n: nat | n <= MAX_SEQ

  // One number given out: when, and which of its millisecond.
  datatype Stamp = Stamp(ms: int, no: seqNo)

  // The id's three fields lie side by side, so `or` is a sum, see FieldsDoNotOverlap.
  function IdOf(t: Stamp, node: nodeId): int {
    (t.ms - EPOCH_MS) * ID_TICKS + node * NODE_TICKS + t.no
  }

  // The millisecond an id was given out in. A right shift is a division that rounds down.
  function TimeOf(id: int): int {
    id / ID_TICKS + EPOCH_MS
  }

  // The numbers count from the first of January 2024: 54 years, 13 of them leap years, after 1970.
  lemma EpochIsNewYear2024()
    ensures EPOCH_MS == (54 * 365 + 13) * 24 * 60 * 60 * 1000
  {}

  predicate Before(a: Stamp, b: Stamp) {
    a.ms < b.ms || (a.ms == b.ms && a.no < b.no)
  }

  // ── what an id says ──

  lemma IdFields(t: Stamp, node: nodeId)
    ensures TimeOf(IdOf(t, node)) == t.ms
    ensures IdOf(t, node) % ID_TICKS == node * NODE_TICKS + t.no
    ensures IdOf(t, node) % NODE_TICKS == t.no
  {
    var low := node * NODE_TICKS + t.no;
    assert 0 <= low < ID_TICKS;
    var ms := t.ms - EPOCH_MS;
    DivideBy(ms, ID_TICKS, low);
    DivideBy(ms * 1024 + node, NODE_TICKS, t.no);
    assert ms * ID_TICKS + low == (ms * 1024 + node) * NODE_TICKS + t.no;
  }

  lemma DivideBy(q: int, d: int, r: int)
    requires 0 <= r < d
    ensures (q * d + r) / d == q && (q * d + r) % d == r
  {
    var x := q * d + r;
    assert (x / d - q) * d == r - x % d;
    WholeMultiple(x / d - q, d);
  }

  lemma WholeMultiple(k: int, d: int)
    requires d > 0
    ensures k >= 1 ==> k * d >= d
    ensures k <= -1 ==> k * d <= 0 - d
  {
    assert k >= 1 ==> (k - 1) * d >= 0;
    assert k <= -1 ==> (k + 1) * d <= 0;
  }

  // ── the id as a 64-bit word ──

  const WORD: nat := 0x1_0000_0000_0000_0000

  // The word that stands for a number in two's complement.
  function Word(x: int): nat {
    x % WORD
  }

  function Pow2(k: nat): nat {
    if k == 0 then 1 else 2 * Pow2(k - 1)
  }

  // Bitwise or.
  function Or(a: nat, b: nat): nat
    decreases a + b
  {
    if a == 0 && b == 0 then 0 else 2 * Or(a / 2, b / 2) + (if a % 2 == 1 || b % 2 == 1 then 1 else 0)
  }

  lemma {:induction false} OrZero(a: nat)
    ensures Or(a, 0) == a
  {
    if a > 0 {
      OrZero(a / 2);
    }
  }

  // What is shifted past `k` bits and what fits in them do not meet.
  lemma {:induction false} OrIsSum(x: nat, y: nat, k: nat)
    requires y < Pow2(k)
    ensures Or(x * Pow2(k), y) == x * Pow2(k) + y
    decreases k
  {
    if k == 0 {
      OrZero(x);
    } else {
      var half := x * Pow2(k - 1);
      assert x * Pow2(k) == 2 * half;
      OrIsSum(x, y / 2, k - 1);
    }
  }

  // Of a number shifted by 22 bits the word keeps the last 42.
  lemma ShiftedWord(ms: int, low: nat)
    requires low < ID_TICKS
    ensures Word(ms * ID_TICKS + low) == (ms % 0x400_0000_0000) * ID_TICKS + low
  {
    var m, q := ms / 0x400_0000_0000, ms % 0x400_0000_0000;
    assert ms == m * 0x400_0000_0000 + q;
    assert ms * ID_TICKS + low == m * WORD + (q * ID_TICKS + low);
    assert q * ID_TICKS <= (0x400_0000_0000 - 1) * ID_TICKS;
    DivideBy(m, WORD, q * ID_TICKS + low);
  }

  // Three fields that fit beside each other.
  lemma ThreeFields(q: nat, node: nodeId, no: seqNo)
    ensures Or(Or(q * ID_TICKS, node * NODE_TICKS), no) == q * ID_TICKS + (node * NODE_TICKS + no)
  {
    assert Pow2(22) == ID_TICKS && Pow2(12) == NODE_TICKS;
    OrIsSum(q, node * NODE_TICKS, 22);
    OrIsSum(q * 1024 + node, no, 12);
    assert q * ID_TICKS + node * NODE_TICKS == (q * 1024 + node) * NODE_TICKS;
  }

  // Whatever the clock says, the word made of the shifted fields by `or` is the one that stands for the id.
  lemma FieldsDoNotOverlap(t: Stamp, node: nodeId)
    ensures Or(Or(Word((t.ms - EPOCH_MS) * ID_TICKS), node * NODE_TICKS), t.no) == Word(IdOf(t, node))
  {
    var ms := t.ms - EPOCH_MS;
    ShiftedWord(ms, 0);
    ShiftedWord(ms, node * NODE_TICKS + t.no);
    ThreeFields(ms % 0x400_0000_0000, node, t.no);
  }

  // On one node ids are in the order of their stamps.
  lemma IdOrder(a: Stamp, b: Stamp, node: nodeId)
    ensures Before(a, b) <==> IdOf(a, node) < IdOf(b, node)
  {
    IdFields(a, node);
    IdFields(b, node);
    if a.ms < b.ms {
      assert (b.ms - a.ms) * ID_TICKS >= ID_TICKS;
    }
  }

  // Nodes with different numbers never give out the same id, whatever their clocks say.
  lemma NodesNeverCollide(a: Stamp, m: nodeId, b: Stamp, n: nodeId)
    requires m != n
    ensures IdOf(a, m) != IdOf(b, n)
  {
    IdFields(a, m);
    IdFields(b, n);
  }

  // For 41 bits of milliseconds an id is a positive 63-bit number.
  lemma IdFits(t: Stamp, node: nodeId)
    requires EPOCH_MS <= t.ms < LAST_MS
    ensures 0 <= IdOf(t, node) < 0x8000_0000_0000_0000
  {
    assert (t.ms - EPOCH_MS) * ID_TICKS <= (0x200_0000_0000 - 1) * ID_TICKS;
  }

  // ── giving out numbers ──

  // Reading number `k` is the first one from number `i` on that is past `last`.
  ghost predicate FirstPast(clock: nat -> int, i: nat, last: int, k: nat) {
    && i <= k && clock(k) > last
    && forall m :: i <= m < k ==> clock(m) <= last
  }

  // What one call may do to the stamp, reading the clock from number `at` up to, not including, `used`.
  ghost predicate Follows(prev: Stamp, next: Stamp, clock: nat -> int, at: nat, used: nat) {
    if clock(at) > prev.ms then next == Stamp(clock(at), 0) && used == at + 1
    else if prev.no < MAX_SEQ then next == Stamp(prev.ms, prev.no + 1) && used == at + 1
    else used >= at + 2 && FirstPast(clock, at + 1, prev.ms, used - 1) && next == Stamp(clock(used - 1), 0)
  }

  class Node {
    const node: nodeId
    var last: int
    var no: seqNo

    constructor (node: nodeId)
      ensures this.node == node && Now() == Stamp(0, 0)
    {
      this.node := node;
      last, no := 0, 0;
    }

    function Now(): Stamp
      reads this
    {
      Stamp(last, no)
    }

    // The clock is a series of readings that may stand still or jump back. Only when the sequence
    // numbers of the current millisecond are used up does the call wait for a later reading.
    method Next(clock: nat -> int, at: nat) returns (id: int, used: nat)
      requires clock(at) <= last && no == MAX_SEQ ==> exists k :: k > at && clock(k) > last
      modifies this
      ensures Follows(old(Now()), Now(), clock, at, used)
      ensures id == IdOf(Now(), node)
    {
      var now := clock(at);
      used := at + 1;
      if now < last {
        now := last;
      }
      if now == last {
        no := if no == MAX_SEQ then 0 else no + 1;
        if no == 0 {
          ghost var k :| k > at && clock(k) > last;
          while now <= last
            invariant at + 1 <= used <= k + 1
            invariant used == at + 1 ==> now <= last
            invariant used > at + 1 ==> now == clock(used - 1)
            invariant forall m :: at + 1 <= m < used - 1 ==> clock(m) <= last
            decreases k + 1 - used
          {
            now := clock(used);
            used := used + 1;
          }
        }
      } else {
        no := 0;
      }
      last := now;
      id := (now - EPOCH_MS) * ID_TICKS + node * NODE_TICKS + no;
    }
  }

  // ── any number of calls ──

  // The stamps of a series of calls on one node, each reading the clock on from where the last one stopped.
  ghost predicate Series(ts: seq<Stamp>, clock: nat -> int, at: seq<nat>) {
    && |ts| == |at| > 0 && ts[0] == Stamp(0, 0)
    && forall i :: 0 < i < |ts| ==> CallAt(ts, clock, at, i)
  }

  ghost predicate CallAt(ts: seq<Stamp>, clock: nat -> int, at: seq<nat>, i: nat)
    requires 0 < i < |ts| == |at|
  {
    Follows(ts[i - 1], ts[i], clock, at[i - 1], at[i])
  }

  lemma FollowsIsLater(prev: Stamp, next: Stamp, clock: nat -> int, at: nat, used: nat)
    requires Follows(prev, next, clock, at, used)
    ensures Before(prev, next) && used > at
    ensures next.ms == prev.ms || exists m :: at <= m < used && next.ms == clock(m)
  {}

  // Whatever the clock does, later calls give larger ids.
  lemma {:induction false} IdsIncrease(ts: seq<Stamp>, clock: nat -> int, at: seq<nat>, node: nodeId, i: nat, j: nat)
    requires Series(ts, clock, at) && i < j < |ts|
    ensures Before(ts[i], ts[j]) && IdOf(ts[i], node) < IdOf(ts[j], node)
    decreases j - i
  {
    assert CallAt(ts, clock, at, j);
    FollowsIsLater(ts[j - 1], ts[j], clock, at[j - 1], at[j]);
    if i < j - 1 {
      IdsIncrease(ts, clock, at, node, i, j - 1);
    }
    IdOrder(ts[i], ts[j], node);
  }

  // ── base 32 ──

  const CROCKFORD: string := "0123456789ABCDEFGHJKMNPQRSTVWXYZ"
  const ENC_LEN: nat := 13

  function Pow32(n: nat): nat {
    if n == 0 then 1 else 32 * Pow32(n - 1)
  }

  // The last `n` base-32 digits of `v`.
  function Digits(v: nat, n: nat): (s: string)
    ensures |s| == n
  {
    if n == 0 then "" else Digits(v / 32, n - 1) + [CROCKFORD[v % 32]]
  }

  function Encoded(v: nat): string {
    Digits(v, ENC_LEN)
  }

  lemma AlphabetSorted(a: nat, b: nat)
    requires a < b < 32
    ensures CROCKFORD[a] < CROCKFORD[b]
  {}

  // Crockford's digits: 0 to 9, then the capitals but for I, L, O and U, which are too easily misread.
  predicate IsCode(c: char) {
    '0' <= c <= '9' || ('A' <= c <= 'Z' && c != 'I' && c != 'L' && c != 'O' && c != 'U')
  }

  // What a character of a code stands for.
  function ValueOf(c: char): (d: nat)
    requires IsCode(c)
    ensures d < 32
  {
    if c <= '9' then (c - '0') as int
    else if c < 'I' then (c - 'A') as int + 10
    else if c < 'L' then (c - 'J') as int + 18
    else if c < 'O' then (c - 'M') as int + 20
    else if c < 'U' then (c - 'P') as int + 22
    else (c - 'V') as int + 27
  }

  lemma DigitIsCode(d: nat)
    requires d < |CROCKFORD|
    ensures |CROCKFORD| == 32 && IsCode(CROCKFORD[d]) && ValueOf(CROCKFORD[d]) == d
  {}

  lemma CodeIsDigit(c: char)
    requires IsCode(c)
    ensures |CROCKFORD| == 32 && CROCKFORD[ValueOf(c)] == c
  {}

  predicate AllCode(s: string) {
    forall i :: 0 <= i < |s| ==> IsCode(s[i])
  }

  // The number that a code stands for.
  function Decoded(s: string): nat
    requires AllCode(s)
  {
    if s == "" then 0 else 32 * Decoded(s[..|s| - 1]) + ValueOf(s[|s| - 1])
  }

  lemma {:induction false} DigitsDecode(v: nat, n: nat)
    requires v < Pow32(n)
    ensures AllCode(Digits(v, n)) && Decoded(Digits(v, n)) == v
  {
    if n > 0 {
      DigitsDecode(v / 32, n - 1);
      DigitIsCode(v % 32);
      assert Digits(v, n)[..n - 1] == Digits(v / 32, n - 1);
    }
  }

  // A 64-bit number can be read back from its code.
  lemma CodesReadBack(v: nat)
    requires v < 0x1_0000_0000_0000_0000
    ensures |Encoded(v)| == 13 && AllCode(Encoded(v)) && Decoded(Encoded(v)) == v
  {
    ThirteenDigitsSuffice();
    DigitsDecode(v, ENC_LEN);
  }

  // The order in which strings of one length are sorted.
  ghost predicate LexLess(a: string, b: string)
    requires |a| == |b|
  {
    exists k :: DifferFirstAt(a, b, k) && a[k] < b[k]
  }

  predicate DifferFirstAt(a: string, b: string, k: int)
    requires |a| == |b|
  {
    0 <= k < |a| && a[k] != b[k] && forall m :: 0 <= m < k ==> a[m] == b[m]
  }

  lemma LexAppend(a: string, b: string, x: char, y: char)
    requires |a| == |b|
    ensures LexLess(a, b) ==> LexLess(a + [x], b + [y])
    ensures a == b && x < y ==> LexLess(a + [x], b + [y])
  {
    if LexLess(a, b) {
      var k :| DifferFirstAt(a, b, k) && a[k] < b[k];
      assert DifferFirstAt(a + [x], b + [y], k);
    }
    if a == b && x < y {
      assert DifferFirstAt(a + [x], b + [y], |a|);
    }
  }

  lemma LexOneWay(a: string, b: string)
    requires |a| == |b| && LexLess(a, b)
    ensures a != b && !LexLess(b, a)
  {}

  lemma {:induction false} DigitsOrdered(v: nat, w: nat, n: nat)
    requires v < w < Pow32(n)
    ensures LexLess(Digits(v, n), Digits(w, n))
  {
    if n > 0 {
      var a, b := Digits(v / 32, n - 1), Digits(w / 32, n - 1);
      LexAppend(a, b, CROCKFORD[v % 32], CROCKFORD[w % 32]);
      if v / 32 < w / 32 {
        DigitsOrdered(v / 32, w / 32, n - 1);
      } else {
        AlphabetSorted(v % 32, w % 32);
      }
    }
  }

  // Codes of 64-bit numbers sort exactly as the numbers do, so no two numbers share a code.
  lemma EncodingKeepsOrder(v: nat, w: nat)
    requires v < 0x1_0000_0000_0000_0000 && w < 0x1_0000_0000_0000_0000
    ensures v < w <==> LexLess(Encoded(v), Encoded(w))
    ensures v == w <==> Encoded(v) == Encoded(w)
  {
    ThirteenDigitsSuffice();
    if v < w {
      DigitsOrdered(v, w, ENC_LEN);
      LexOneWay(Encoded(v), Encoded(w));
    } else if w < v {
      DigitsOrdered(w, v, ENC_LEN);
      LexOneWay(Encoded(w), Encoded(v));
    } else if LexLess(Encoded(v), Encoded(w)) {
      LexOneWay(Encoded(v), Encoded(w));
    }
  }

  lemma ThirteenDigitsSuffice()
    ensures Pow32(ENC_LEN) == 0x2_0000_0000_0000_0000
  {
    assert Pow32(4) == 0x10_0000;
    assert Pow32(8) == 0x100_0000_0000;
    assert Pow32(12) == 0x1000_0000_0000_0000;
  }

  // Order numbers of one node sort as strings in the order in which they were given out.
  lemma RefsSortByTime(ts: seq<Stamp>, clock: nat -> int, at: seq<nat>, node: nodeId, i: nat, j: nat)
    requires Series(ts, clock, at) && i < j < |ts|
    requires EPOCH_MS <= ts[i].ms && ts[j].ms < LAST_MS
    ensures 0 <= IdOf(ts[i], node) < IdOf(ts[j], node)
    ensures LexLess(Encoded(IdOf(ts[i], node)), Encoded(IdOf(ts[j], node)))
  {
    IdsIncrease(ts, clock, at, node, i, j);
    IdFits(ts[i], node);
    IdFits(ts[j], node);
    EncodingKeepsOrder(IdOf(ts[i], node), IdOf(ts[j], node));
  }

  method Encode(id: nat) returns (s: string)
    ensures s == Encoded(id)
  {
    var b := new char[ENC_LEN];
    var v, i := id, ENC_LEN;
    while i > 0
      invariant 0 <= i <= ENC_LEN
      invariant Digits(v, i) + b[i..] == Encoded(id)
    {
      ghost var before := b[i..];
      i := i - 1;
      b[i] := CROCKFORD[v % 32];
      assert b[i..] == [CROCKFORD[v % 32]] + before;
      assert Digits(v, i + 1) + before == Digits(v / 32, i) + ([CROCKFORD[v % 32]] + before);
      v := v / 32;
    }
    return b[..];
  }
}
