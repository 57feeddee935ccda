// The check digits of a bank account number: ISO 13616-1, by the MOD 97-10 scheme of ISO/IEC 7064.
module Iban {
  import opened Results

  predicate IsDigit(c: char) {
    '0' <= c <= '9'
  }

  predicate IsLetter(c: char) {
    'A' <= c <= 'Z'
  }

  predicate AllValid(s: string) {
    forall i :: 0 <= i < |s| ==> IsDigit(s[i]) || IsLetter(s[i])
  }

  // A digit stands for itself, a letter for the two-digit number from 10 on.
  function ValueOf(c: char): nat
    requires IsDigit(c) || IsLetter(c)
  {
    if IsDigit(c) then (c - '0') as int else (c - 'A') as int + 10
  }

  // The conversion table of the standard: digits keep their value, and the letters follow in order.
  function Table(): string { "0123456789ABCDEFGHIJKLMNOPQRSTUVWXYZ" }

  lemma ValuesAreTheTable(c: char)
    requires IsDigit(c) || IsLetter(c)
    ensures ValueOf(c) < |Table()| && Table()[ValueOf(c)] == c
  {
    if IsLetter(c) { LetterInTable(c); }
  }

  lemma LetterInTable(c: char)
    requires IsLetter(c)
    ensures |Table()| == 36 && Table()[ValueOf(c)] == c
  {}

  // ── the definition: one long decimal number ──

  // The decimal digits a string is written out as.
  function Expanded(s: string): (ds: seq<nat>)
    requires AllValid(s)
    ensures forall i :: 0 <= i < |ds| ==> ds[i] < 10
  {
    if s == "" then []
    else
      var front, d := Expanded(s[..|s| - 1]), ValueOf(s[|s| - 1]);
      if d < 10 then front + [d] else front + [d / 10] + [d % 10]
  }

  function Number(ds: seq<nat>): nat {
    if ds == [] then 0 else 10 * Number(ds[..|ds| - 1]) + ds[|ds| - 1]
  }

  // The first four characters moved to the end.
  function Rearranged(v: string): string
    requires |v| >= 4
  {
    v[4..] + v[..4]
  }

  predicate Passes(v: string)
    requires |v| >= 4
  {
    AllValid(Rearranged(v)) && Number(Expanded(Rearranged(v))) % 97 == 1
  }

  // ── the running remainder ──

  function Step(m: nat, c: char): (r: nat)
    requires IsDigit(c) || IsLetter(c)
    ensures r < 97
  {
    if ValueOf(c) < 10 then (m * 10 + ValueOf(c)) % 97 else (m * 100 + ValueOf(c)) % 97
  }

  function Remainder(m: nat, s: string): (r: nat)
    requires AllValid(s)
    ensures s != "" ==> r < 97
  {
    if s == "" then m else Step(Remainder(m, s[..|s| - 1]), s[|s| - 1])
  }

  lemma ModStep(a: nat, k: nat, d: nat)
    ensures (a % 97 * k + d) % 97 == (a * k + d) % 97
  {
    var q := a / 97;
    assert a == 97 * q + a % 97;
    assert a * k + d == 97 * (q * k) + (a % 97 * k + d) by {
      assert (97 * q + a % 97) * k == 97 * (q * k) + a % 97 * k;
    }
    AddMultiple(a % 97 * k + d, q * k);
  }

  lemma AddMultiple(x: nat, q: nat)
    ensures (97 * q + x) % 97 == x % 97
  {}

  lemma AppendNumber(ds: seq<nat>, d: nat)
    ensures Number(ds + [d]) == 10 * Number(ds) + d
  {
    assert (ds + [d])[..|ds|] == ds;
  }

  // The running remainder is the remainder of the whole expansion, whatever its length.
  lemma {:induction false} RemainderIsModulo(s: string)
    requires AllValid(s)
    ensures Remainder(0, s) == Number(Expanded(s)) % 97
  {
    if s != "" {
      RemainderIsModulo(s[..|s| - 1]);
      NumberStep(s);
      StepModulo(Number(Expanded(s[..|s| - 1])), s[|s| - 1]);
    }
  }

  lemma StepModulo(n: nat, c: char)
    requires IsDigit(c) || IsLetter(c)
    ensures Step(n % 97, c) == (n * Base(c) + ValueOf(c)) % 97
  {
    if IsDigit(c) {
      ModStep(n, 10, ValueOf(c));
    } else {
      ModStep(n, 100, ValueOf(c));
    }
  }

  // The value of a character has one decimal digit or two.
  function Base(c: char): nat {
    if IsDigit(c) then 10 else 100
  }

  lemma NumberStep(s: string)
    requires AllValid(s) && s != ""
    ensures Number(Expanded(s)) == Number(Expanded(s[..|s| - 1])) * Base(s[|s| - 1]) + ValueOf(s[|s| - 1])
  {
    var ds, d := Expanded(s[..|s| - 1]), ValueOf(s[|s| - 1]);
    if d < 10 {
      AppendNumber(ds, d);
    } else {
      AppendNumber(ds, d / 10);
      AppendNumber(ds + [d / 10], d % 10);
    }
  }

  method IbanOk(v: string) returns (ok: bool)
    requires |v| >= 4
    ensures ok <==> Passes(v)
  {
    var r := v[4..] + v[..4];
    var m, i := 0, 0;
    while i < |r|
      invariant 0 <= i <= |r|
      invariant AllValid(r[..i])
      invariant m == Remainder(0, r[..i])
    {
      var c := r[i];
      var d: nat;
      if '0' <= c <= '9' {
        d := (c - '0') as int;
      } else if 'A' <= c <= 'Z' {
        d := (c - 'A') as int + 10;
      } else {
        assert r[i] == Rearranged(v)[i];
        return false;
      }
      assert r[..i + 1][..i] == r[..i];
      if d < 10 {
        m := (m * 10 + d) % 97;
      } else {
        m := (m * 100 + d) % 97;
      }
      i := i + 1;
    }
    assert r[..|r|] == r;
    RemainderIsModulo(r);
    return m == 1;
  }

  // ── what the check catches ──

  // What has an inverse modulo 97 can be cancelled.
  lemma Cancel(e: int, q: int, k: int, inverse: int, t: int)
    requires k * inverse == 97 * t + 1 && k * e == 97 * q && -97 < e < 97
    ensures e == 0
  {
    calc {
      e;
      (k * inverse - 97 * t) * e;
      k * e * inverse - 97 * (t * e);
      97 * q * inverse - 97 * (t * e);
      97 * (q * inverse - t * e);
    }
  }

  lemma SameRest(x: int, y: int)
    requires x % 97 == y % 97
    ensures x - y == 97 * (x / 97 - y / 97)
  {}

  // 10 and 100 have inverses modulo 97, so a step never forgets where it came from.
  lemma StepInjective(m: nat, n: nat, c: char)
    requires m < 97 && n < 97 && (IsDigit(c) || IsLetter(c))
    requires Step(m, c) == Step(n, c)
    ensures m == n
  {
    var d := ValueOf(c);
    if d < 10 {
      SameRest(m * 10 + d, n * 10 + d);
      Cancel(m - n, (m * 10 + d) / 97 - (n * 10 + d) / 97, 10, 68, 7);
    } else {
      SameRest(m * 100 + d, n * 100 + d);
      Cancel(m - n, (m * 100 + d) / 97 - (n * 100 + d) / 97, 100, 65, 67);
    }
  }

  lemma {:induction false} RemainderInjective(m: nat, n: nat, s: string)
    requires m < 97 && n < 97 && AllValid(s)
    requires Remainder(m, s) == Remainder(n, s)
    ensures m == n
  {
    if s != "" {
      var front := s[..|s| - 1];
      StepInjective(Remainder(m, front), Remainder(n, front), s[|s| - 1]);
      RemainderInjective(m, n, front);
    }
  }

  lemma {:induction false} RemainderSplits(m: nat, a: string, b: string)
    requires AllValid(a + b)
    ensures AllValid(a) && AllValid(b)
    ensures Remainder(m, a + b) == Remainder(Remainder(m, a), b)
  {
    assert forall i :: 0 <= i < |a| ==> a[i] == (a + b)[i];
    assert forall i :: 0 <= i < |b| ==> b[i] == (a + b)[|a| + i];
    if b == "" {
      assert a + b == a;
    } else {
      var front := b[..|b| - 1];
      assert (a + b)[..|a + b| - 1] == a + front;
      RemainderSplits(m, a, front);
    }
  }

  predicate SameClass(c: char, d: char) {
    (IsDigit(c) && IsDigit(d)) || (IsLetter(c) && IsLetter(d))
  }

  lemma ClassValues(c: char, d: char)
    requires SameClass(c, d) && c != d
    ensures Base(c) == Base(d) && (ValueOf(c) < 10 <==> Base(c) == 10) && (ValueOf(d) < 10 <==> Base(c) == 10)
    ensures ValueOf(c) != ValueOf(d) && ValueOf(c) < 36 && ValueOf(d) < 36
  {}

  lemma OtherCharacterOtherStep(m: nat, c: char, d: char)
    requires m < 97 && SameClass(c, d) && c != d
    ensures Step(m, c) != Step(m, d)
  {
    ClassValues(c, d);
    OtherRest(m * 10, ValueOf(c), ValueOf(d));
    OtherRest(m * 100, ValueOf(c), ValueOf(d));
  }

  lemma OtherRest(z: nat, x: nat, y: nat)
    requires x < 36 && y < 36 && x != y
    ensures (z + x) % 97 != (z + y) % 97
  {
    if (z + x) % 97 == (z + y) % 97 {
      SameRest(z + x, z + y);
    }
  }

  lemma SwapOtherSteps(m: nat, c: char, d: char)
    requires m < 97 && SameClass(c, d) && c != d
    ensures Step(Step(m, c), d) != Step(Step(m, d), c)
  {
    ClassValues(c, d);
    var k, x, y := Base(c), ValueOf(c), ValueOf(d);
    TwoSteps(m, k, x, y);
    TwoSteps(m, k, y, x);
    SwappedSums(m * k * k, k, x, y);
  }

  lemma SwappedSums(z: nat, k: nat, x: nat, y: nat)
    requires k == 10 || k == 100
    requires x < 36 && y < 36 && x != y
    ensures (z + x * k + y) % 97 != (z + y * k + x) % 97
  {
    var u, w := z + x * k + y, z + y * k + x;
    if u % 97 == w % 97 {
      SameRest(u, w);
      if k == 10 {
        Cancel(x - y, u / 97 - w / 97, 9, 54, 5);
      } else {
        Cancel(x - y, u / 97 - w / 97, 99, 49, 50);
      }
    }
  }

  lemma TwoSteps(m: nat, k: nat, x: nat, y: nat)
    ensures ((m * k + x) % 97 * k + y) % 97 == (m * k * k + x * k + y) % 97
  {
    ModStep(m * k + x, k, y);
    assert (m * k + x) * k == m * k * k + x * k;
  }

  // Strings that differ in one stretch, where the running remainder comes out different, have
  // different remainders.
  lemma DifferentMiddle(a: string, p: string, q: string, b: string)
    requires AllValid(a + p + b) && AllValid(p) && AllValid(q) && p != "" && q != ""
    requires AllValid(a) ==> Remainder(Remainder(0, a), p) != Remainder(Remainder(0, a), q)
    ensures AllValid(a + q + b)
    ensures Remainder(0, a + p + b) != Remainder(0, a + q + b)
  {
    RemainderSplits(0, a + p, b);
    RemainderSplits(0, a, p);
    assert AllValid(a + q + b);
    RemainderSplits(0, a + q, b);
    RemainderSplits(0, a, q);
    if Remainder(0, a + p + b) == Remainder(0, a + q + b) {
      RemainderInjective(Remainder(0, a + p), Remainder(0, a + q), b);
    }
  }

  lemma {:induction false} BelowModulus(s: string)
    requires AllValid(s)
    ensures Remainder(0, s) < 97
  {}

  // Where character `i` of the number stands once it is rearranged.
  function Place(v: string, i: nat): nat
    requires i < |v| && |v| >= 4
  {
    if i < 4 then |v| - 4 + i else i - 4
  }

  lemma OneCharacter(m: nat, c: char)
    requires IsDigit(c) || IsLetter(c)
    ensures AllValid([c]) && Remainder(m, [c]) == Step(m, c)
  {
    assert [c][..0] == "";
  }

  lemma TwoCharacters(m: nat, c: char, d: char)
    requires (IsDigit(c) || IsLetter(c)) && (IsDigit(d) || IsLetter(d))
    ensures AllValid([c, d]) && Remainder(m, [c, d]) == Step(Step(m, c), d)
  {
    assert [c, d][..1] == [c];
    OneCharacter(m, c);
  }

  // A number that passes, and another that differs from it in one stretch where the remainder comes out
  // different.
  lemma Caught(v: string, w: string, a: string, p: string, q: string, b: string)
    requires |v| >= 4 && |w| >= 4 && Passes(v)
    requires Rearranged(v) == a + p + b && Rearranged(w) == a + q + b
    requires AllValid(p) && AllValid(q) && p != "" && q != ""
    requires forall m: nat :: m < 97 ==> Remainder(m, p) != Remainder(m, q)
    ensures !Passes(w)
  {
    assert a + p + b == a + (p + b);
    RemainderSplits(0, a, p + b);
    BelowModulus(a);
    DifferentMiddle(a, p, q, b);
    RemainderIsModulo(a + p + b);
    RemainderIsModulo(a + q + b);
  }

  // One character mistyped as another of its kind is always caught.
  lemma SubstitutionCaught(v: string, i: nat, c: char)
    requires |v| >= 4 && i < |v| && Passes(v)
    requires SameClass(v[i], c) && v[i] != c
    ensures !Passes(v[i := c])
  {
    var r, k := Rearranged(v), Place(v, i);
    assert r == r[..k] + [v[i]] + r[k + 1..];
    assert Rearranged(v[i := c]) == r[..k] + [c] + r[k + 1..];
    forall m: nat | m < 97 ensures Remainder(m, [v[i]]) != Remainder(m, [c]) {
      OneCharacter(m, v[i]);
      OneCharacter(m, c);
      OtherCharacterOtherStep(m, v[i], c);
    }
    Caught(v, v[i := c], r[..k], [v[i]], [c], r[k + 1..]);
  }

  // Two neighbours of one kind typed in the wrong order are always caught, except that the fourth and
  // the fifth character are not neighbours once the number is rearranged.
  lemma SwapCaught(v: string, i: nat)
    requires |v| >= 4 && i + 1 < |v| && i != 3 && Passes(v)
    requires SameClass(v[i], v[i + 1]) && v[i] != v[i + 1]
    ensures !Passes(v[i := v[i + 1]][i + 1 := v[i]])
  {
    var c, d := v[i], v[i + 1];
    var r, w, k := Rearranged(v), v[i := d][i + 1 := c], Place(v, i);
    assert r == r[..k] + [c, d] + r[k + 2..];
    assert Rearranged(w) == r[..k] + [d, c] + r[k + 2..];
    SwapRemainders(c, d);
    Caught(v, w, r[..k], [c, d], [d, c], r[k + 2..]);
  }

  lemma SwapRemainders(c: char, d: char)
    requires SameClass(c, d) && c != d
    ensures AllValid([c, d]) && AllValid([d, c])
    ensures forall m: nat :: m < 97 ==> Remainder(m, [c, d]) != Remainder(m, [d, c])
  {
    forall m: nat | m < 97 ensures Remainder(m, [c, d]) != Remainder(m, [d, c]) {
      TwoCharacters(m, c, d);
      TwoCharacters(m, d, c);
      SwapOtherSteps(m, c, d);
    }
  }

  lemma FiveCharacters(m: nat, s: string)
    requires |s| == 5 && AllValid(s)
    ensures Remainder(m, s) == Step(Step(Step(Step(Step(m, s[0]), s[1]), s[2]), s[3]), s[4])
  {
    assert s == s[..2] + s[2..];
    assert s[2..] == s[2..4] + s[4..];
    RemainderSplits(m, s[..2], s[2..]);
    RemainderSplits(Remainder(m, s[..2]), s[2..4], s[4..]);
    assert s[..2] == [s[0], s[1]] && s[2..4] == [s[2], s[3]] && s[4..] == [s[4]];
    TwoCharacters(m, s[0], s[1]);
    TwoCharacters(Remainder(m, s[..2]), s[2], s[3]);
    OneCharacter(Remainder(m, s[..4]), s[4]);
  }

  lemma FourParts(a: string, b: string, c: string, d: string, m: nat, n: nat, k: nat, r: nat)
    requires AllValid(a) && AllValid(b) && AllValid(c) && AllValid(d)
    requires Remainder(0, a) == m && Remainder(m, b) == n && Remainder(n, c) == k && Remainder(k, d) == r
    ensures AllValid(a + b + c + d) && Remainder(0, a + b + c + d) == r
  {
    RemainderSplits(0, a, b);
    RemainderSplits(0, a + b, c);
    RemainderSplits(0, a + b + c, d);
  }

  // How far the example gets: the remainder of its account part, its country last, is 70.
  lemma ExampleFront(a: string, b: string, c: string, d: string)
    requires a == ['W', 'E', 'S', 'T', '1'] && b == ['2', '3', '4', '5', '6']
    requires c == ['9', '8', '7', '6', '5'] && d == ['4', '3', '2', 'G', 'B']
    ensures AllValid(a + b + c + d) && Remainder(0, a + b + c + d) == 70
  {
    assert Step(0, 'W') == 32 && Step(32, 'E') == 13 && Step(13, 'S') == 67 && Step(67, 'T') == 36
      && Step(36, '1') == 70;
    assert Step(70, '2') == 23 && Step(23, '3') == 39 && Step(39, '4') == 6 && Step(6, '5') == 65
      && Step(65, '6') == 74;
    assert Step(74, '9') == 70 && Step(70, '8') == 29 && Step(29, '7') == 6 && Step(6, '6') == 66
      && Step(66, '5') == 83;
    assert Step(83, '4') == 58 && Step(58, '3') == 1 && Step(1, '2') == 12 && Step(12, 'G') == 52
      && Step(52, 'B') == 70;
    FiveCharacters(0, a);
    FiveCharacters(70, b);
    FiveCharacters(74, c);
    FiveCharacters(83, d);
    FourParts(a, b, c, d, 70, 74, 83, 70);
  }

  lemma TwoMore(front: string, x: char, y: char)
    requires AllValid(front) && Remainder(0, front) == 70 && IsDigit(x) && IsDigit(y)
    ensures AllValid(front + [x, y])
    ensures Number(Expanded(front + [x, y])) % 97 == (7000 + 10 * ValueOf(x) + ValueOf(y)) % 97
  {
    RemainderSplits(0, front, [x, y]);
    TwoCharacters(70, x, y);
    ModStep(70 * 10 + ValueOf(x), 10, ValueOf(y));
    RemainderIsModulo(front + [x, y]);
  }

  // The example of the standard, with any two check digits: 82 are right, and 28, say, are not.
  lemma StandardExample(a: string, b: string, c: string, d: string, x: char, y: char)
    requires a == ['W', 'E', 'S', 'T', '1'] && b == ['2', '3', '4', '5', '6']
    requires c == ['9', '8', '7', '6', '5'] && d == ['4', '3', '2', 'G', 'B'] && IsDigit(x) && IsDigit(y)
    ensures Passes("GB" + [x, y] + (a + b + c + "432")) <==> (7000 + 10 * ValueOf(x) + ValueOf(y)) % 97 == 1
  {
    var v := "GB" + [x, y] + (a + b + c + "432");
    ExampleFront(a, b, c, d);
    TwoMore(a + b + c + d, x, y);
    assert Rearranged(v) == a + b + c + d + [x, y];
  }

  // ── the account form ──

  datatype AccountFault = Empty | WrongLength | WrongChecksum | NotDigits | TooShort | TooLong

  predicate StartsLikeIban(v: string) {
    |v| >= 4 && IsLetter(v[0]) && IsLetter(v[1]) && IsDigit(v[2]) && IsDigit(v[3])
  }

  predicate AllDigits(v: string) {
    forall i :: 0 <= i < |v| ==> IsDigit(v[i])
  }

  // Capitals: those of the letters of ASCII, and for characters beyond it whatever the library has.
  function Upper(beyond: char -> char, c: char): char {
    if 'a' <= c <= 'z' then c - 'a' + 'A' else if c as int < 128 then c else beyond(c)
  }

  predicate IsGap(c: char) {
    c == ' ' || c == '-'
  }

  // Without blanks and dashes, and in capitals.
  function Normal(beyond: char -> char, raw: string): string {
    if raw == "" then ""
    else if IsGap(raw[0]) then Normal(beyond, raw[1..])
    else [Upper(beyond, raw[0])] + Normal(beyond, raw[1..])
  }

  lemma {:induction false} NormalJoins(beyond: char -> char, a: string, b: string)
    ensures Normal(beyond, a + b) == Normal(beyond, a) + Normal(beyond, b)
  {
    if a == "" {
      assert a + b == b;
    } else {
      assert (a + b)[1..] == a[1..] + b;
      NormalJoins(beyond, a[1..], b);
    }
  }

  lemma SameInside(beyond: char -> char, a: string, x: string, y: string, b: string)
    requires Normal(beyond, x) == Normal(beyond, y)
    ensures Normal(beyond, a + x + b) == Normal(beyond, a + y + b)
  {
    NormalJoins(beyond, a + x, b);
    NormalJoins(beyond, a, x);
    NormalJoins(beyond, a + y, b);
    NormalJoins(beyond, a, y);
  }

  // Where the blanks and dashes are, and whether letters are written small, makes no difference.
  lemma LayoutDoesNotMatter(beyond: char -> char, a: string, c: char, b: string)
    ensures IsGap(c) ==> Normal(beyond, a + [c] + b) == Normal(beyond, a + b)
    ensures IsLetter(c) ==> Normal(beyond, a + [c - 'A' + 'a'] + b) == Normal(beyond, a + [c] + b)
  {
    if IsGap(c) {
      SameInside(beyond, a, [c], "", b);
      assert a + "" + b == a + b;
    }
    if IsLetter(c) {
      SameInside(beyond, a, [c - 'A' + 'a'], [c], b);
    }
  }

  // An account number as it was typed in: shown as its first and last four characters, or refused.
  method CheckAccount(beyond: char -> char, raw: string) returns (masked: Result<string, AccountFault>)
    ensures var v := Normal(beyond, raw);
      match masked
      case Success(shown) =>
        && (if StartsLikeIban(v) then 15 <= |v| <= 34 && Passes(v) else AllDigits(v) && 8 <= |v| <= 19)
        && shown == v[..4] + " **** " + v[|v| - 4..]
      case Failure(Empty) => v == ""
      case Failure(WrongLength) => StartsLikeIban(v) && !(15 <= |v| <= 34 && AllValid(v))
      case Failure(WrongChecksum) => StartsLikeIban(v) && 15 <= |v| <= 34 && AllValid(v) && !Passes(v)
      case Failure(NotDigits) => !StartsLikeIban(v) && !AllDigits(v)
      case Failure(TooShort) => 0 < |v| < 8 && AllDigits(v)
      case Failure(TooLong) => |v| > 19 && AllDigits(v)
  {
    var v := Normal(beyond, raw);
    if v == "" { return Failure(Empty); }
    if |v| >= 4 && IsLetter(v[0]) && IsLetter(v[1]) && IsDigit(v[2]) && IsDigit(v[3]) {
      var shape := HasIbanShape(v);
      SameCharacters(v);
      if !shape { return Failure(WrongLength); }
      var ok := IbanOk(v);
      if !ok { return Failure(WrongChecksum); }
    } else {
      var i := 0;
      while i < |v|
        invariant 0 <= i <= |v|
        invariant forall j :: 0 <= j < i ==> IsDigit(v[j])
      {
        if !IsDigit(v[i]) { return Failure(NotDigits); }
        i := i + 1;
      }
      if |v| < 8 { return Failure(TooShort); }
      if |v| > 19 { return Failure(TooLong); }
    }
    return Success(v[..4] + " **** " + v[|v| - 4..]);
  }

  method HasIbanShape(v: string) returns (shape: bool)
    requires StartsLikeIban(v)
    ensures shape <==> 15 <= |v| <= 34 && AllValid(v)
  {
    if |v| < 15 || |v| > 34 { return false; }
    var i := 4;
    while i < |v|
      invariant 4 <= i <= |v|
      invariant forall j :: 0 <= j < i ==> IsDigit(v[j]) || IsLetter(v[j])
    {
      if !IsDigit(v[i]) && !IsLetter(v[i]) { return false; }
      i := i + 1;
    }
    return true;
  }

  lemma SameCharacters(v: string)
    requires |v| >= 4
    ensures AllValid(v) <==> AllValid(Rearranged(v))
  {
    var r := Rearranged(v);
    assert forall i :: 0 <= i < |v| ==> v[i] == r[Place(v, i)];
    assert forall j :: 0 <= j < |r| ==> r[j] == if j < |v| - 4 then v[j + 4] else v[j - (|v| - 4)];
  }
}
