/** Byte strings: overlapping search, leftmost replacement and UTF-8 decoding as Go's library does them. */
module ByteStrings {

  lemma Assoc<T>(a: seq<T>, b: seq<T>, c: seq<T>)
    ensures (a + b) + c == a + (b + c)
  {
  }

  newtype Byte = x: int | 0 <= x < 256

  type Bytes = seq<Byte>

  predicate OccursAt(h: Bytes, n: Bytes, p: int) {
    0 <= p && p + |n| <= |h| && h[p..p + |n|] == n
  }

  lemma OccursByte(h: Bytes, b: Byte, p: int)
    ensures OccursAt(h, [b], p) <==> 0 <= p < |h| && h[p] == b
  {
    if 0 <= p < |h| {
      assert h[p..p + 1] == [h[p]];
    }
  }

  predicate Ascending(ps: seq<nat>) {
    forall i, j :: 0 <= i < j < |ps| ==> ps[i] < ps[j]
  }

  /** Every position at or after `from` where `n` occurs in `h`, overlaps included. */
  function Occurrences(h: Bytes, n: Bytes, from: nat): seq<nat>
    requires n != []
    decreases |h| - from
  {
    if from + |n| > |h| then []
    else if OccursAt(h, n, from) then [from] + Occurrences(h, n, from + 1)
    else Occurrences(h, n, from + 1)
  }

  lemma {:induction false} OccurrencesMember(h: Bytes, n: Bytes, from: nat, p: int)
    requires n != []
    ensures p in Occurrences(h, n, from) <==> from <= p && OccursAt(h, n, p)
    decreases |h| - from
  {
    if from + |n| <= |h| {
      OccurrencesMember(h, n, from + 1, p);
    }
  }

  lemma {:induction false} OccurrencesAscend(h: Bytes, n: Bytes, from: nat)
    requires n != []
    ensures Ascending(Occurrences(h, n, from))
    decreases |h| - from
  {
    if from + |n| <= |h| {
      var rest := Occurrences(h, n, from + 1);
      OccurrencesAscend(h, n, from + 1);
      forall j | 0 <= j < |rest| ensures from < rest[j] {
        OccurrencesMember(h, n, from + 1, rest[j]);
        assert rest[j] in rest;
      }
    }
  }

  /** The list holds exactly the occurrences, in ascending order. */
  lemma OccurrencesExact(h: Bytes, n: Bytes, from: nat)
    requires n != []
    ensures forall p :: p in Occurrences(h, n, from) <==> from <= p && OccursAt(h, n, p)
    ensures Ascending(Occurrences(h, n, from))
  {
    OccurrencesAscend(h, n, from);
    forall p ensures p in Occurrences(h, n, from) <==> from <= p && OccursAt(h, n, p) {
      OccurrencesMember(h, n, from, p);
    }
  }

  lemma {:induction false} OccurrencesSkip(h: Bytes, n: Bytes, from: nat, end: nat)
    requires n != [] && from <= end
    requires forall p :: from <= p < end ==> !OccursAt(h, n, p)
    ensures Occurrences(h, n, from) == Occurrences(h, n, end)
    decreases end - from
  {
    if from < end {
      OccurrencesSkip(h, n, from + 1, end);
    }
  }

  lemma TailMember(a: seq<nat>, p: nat)
    requires a != [] && Ascending(a)
    ensures p in a[1..] <==> p in a && p != a[0]
  {
    if p in a && p != a[0] {
      var k :| 0 <= k < |a| && a[k] == p;
      assert a[1..][k - 1] == p;
    }
  }

  lemma FirstIsLeast(a: seq<nat>, p: nat)
    requires Ascending(a) && p in a
    ensures a[0] <= p
  {
  }

  /** The set of occurrences and the order fix the sequence: no second list satisfies the contract above. */
  lemma {:induction false} AscendingUnique(a: seq<nat>, b: seq<nat>)
    requires Ascending(a) && Ascending(b)
    requires forall p :: p in a <==> p in b
    ensures a == b
  {
    assert a != [] ==> a[0] in a && a[0] in b;
    assert b != [] ==> b[0] in b && b[0] in a;
    if a != [] {
      FirstIsLeast(a, b[0]);
      FirstIsLeast(b, a[0]);
      assert a[0] == b[0];
      forall p: nat ensures p in a[1..] <==> p in b[1..] {
        TailMember(a, p);
        TailMember(b, p);
      }
      AscendingUnique(a[1..], b[1..]);
      assert a == [a[0]] + a[1..] && b == [b[0]] + b[1..];
    }
  }

  /** The first occurrence of `n` in `h` at or after `from`, or -1. */
  function IndexFrom(h: Bytes, n: Bytes, from: nat): (idx: int)
    requires n != []
    ensures idx == -1 || (from <= idx && OccursAt(h, n, idx))
    decreases |h| - from
  {
    if from + |n| > |h| then -1
    else if OccursAt(h, n, from) then from
    else IndexFrom(h, n, from + 1)
  }

  lemma {:induction false} IndexIsFirst(h: Bytes, n: Bytes, from: nat)
    requires n != []
    ensures var idx := IndexFrom(h, n, from);
      forall p :: from <= p && (idx == -1 || p < idx) ==> !OccursAt(h, n, p)
    decreases |h| - from
  {
    if from + |n| <= |h| {
      IndexIsFirst(h, n, from + 1);
    }
  }

  function Index(h: Bytes, n: Bytes): int
    requires n != []
  {
    IndexFrom(h, n, 0)
  }

  predicate Contains(h: Bytes, n: Bytes)
    requires n != []
  {
    Index(h, n) != -1
  }

  /** Leftmost non-overlapping replacement; text already produced is never looked at again. */
  function ReplaceAll(s: Bytes, target: Bytes, repl: Bytes): Bytes
    requires target != []
  {
    if |s| < |target| then s
    else if s[..|target|] == target then repl + ReplaceAll(s[|target|..], target, repl)
    else [s[0]] + ReplaceAll(s[1..], target, repl)
  }

  lemma OccursInDrop(s: Bytes, n: Bytes, k: nat, p: nat)
    requires k <= |s|
    ensures OccursAt(s[k..], n, p) <==> OccursAt(s, n, k + p)
  {
    if k + p + |n| <= |s| {
      assert s[k..][p..p + |n|] == s[k + p..k + p + |n|];
    }
  }

  lemma OccursInTake(s: Bytes, n: Bytes, k: nat, p: nat)
    requires k <= |s|
    ensures OccursAt(s[..k], n, p) <==> OccursAt(s, n, p) && p + |n| <= k
  {
    if p + |n| <= k {
      assert s[..k][p..p + |n|] == s[p..p + |n|];
    }
  }

  lemma {:induction false} ReplaceNone(s: Bytes, target: Bytes, repl: Bytes)
    requires target != []
    requires forall p :: !OccursAt(s, target, p)
    ensures ReplaceAll(s, target, repl) == s
  {
    if |s| >= |target| {
      assert !OccursAt(s, target, 0);
      forall p ensures !OccursAt(s[1..], target, p) {
        if p >= 0 {
          OccursInDrop(s, target, 1, p);
        }
      }
      ReplaceNone(s[1..], target, repl);
      assert s == [s[0]] + s[1..];
    }
  }

  /** From position i on, the text up to the next occurrence is copied and that occurrence replaced. */
  lemma {:induction false} ReplaceFrom(s: Bytes, target: Bytes, repl: Bytes, i: nat, k: nat)
    requires target != [] && i <= k && OccursAt(s, target, k)
    requires forall p :: i <= p < k ==> !OccursAt(s, target, p)
    ensures ReplaceAll(s[i..], target, repl) == s[i..k] + repl + ReplaceAll(s[k + |target|..], target, repl)
    decreases k - i
  {
    var rest := ReplaceAll(s[k + |target|..], target, repl);
    assert s[i..][..|target|] == s[i..i + |target|];
    if i == k {
      assert s[i..][|target|..] == s[k + |target|..];
      assert s[i..k] == [];
    } else {
      ReplaceFrom(s, target, repl, i + 1, k);
      assert !OccursAt(s, target, i);
      assert s[i..][1..] == s[i + 1..];
      Assoc([s[i]], s[i + 1..k], repl);
      Assoc([s[i]], s[i + 1..k] + repl, rest);
      assert s[i..k] == [s[i]] + s[i + 1..k];
    }
  }

  /** The pieces of `s` between its leftmost non-overlapping copies of `sep`. */
  function Split(s: Bytes, sep: Bytes): (parts: seq<Bytes>)
    requires sep != []
    ensures parts != []
  {
    var k := Index(s, sep);
    if k == -1 then [s] else [s[..k]] + Split(s[k + |sep|..], sep)
  }

  function Join(parts: seq<Bytes>, sep: Bytes): Bytes
    requires parts != []
  {
    if |parts| == 1 then parts[0] else parts[0] + sep + Join(parts[1..], sep)
  }

  /** Replacing is splitting at the old text and joining with the new; no piece still holds the old text. */
  lemma {:induction false} ReplaceIsSplitJoin(s: Bytes, target: Bytes, repl: Bytes)
    requires target != []
    ensures Join(Split(s, target), target) == s
    ensures Join(Split(s, target), repl) == ReplaceAll(s, target, repl)
    ensures forall part :: part in Split(s, target) ==> !Contains(part, target)
  {
    var k := Index(s, target);
    var parts := Split(s, target);
    IndexIsFirst(s, target, 0);
    if k == -1 {
      ReplaceNone(s, target, repl);
    } else {
      var rest := s[k + |target|..];
      ReplaceIsSplitJoin(rest, target, repl);
      ReplaceFrom(s, target, repl, 0, k);
      assert s[0..] == s && s[0..k] == s[..k];
      assert parts[1..] == Split(rest, target);
      assert s == s[..k] + s[k..k + |target|] + rest;
      HeadHasNone(s, target, k);
      forall part | part in parts ensures !Contains(part, target) {
        assert part == s[..k] || part in parts[1..];
      }
    }
  }

  lemma HeadHasNone(s: Bytes, target: Bytes, k: nat)
    requires target != [] && k <= |s|
    requires forall p :: p < k ==> !OccursAt(s, target, p)
    ensures !Contains(s[..k], target)
  {
    var idx := Index(s[..k], target);
    IndexIsFirst(s[..k], target, 0);
    if idx != -1 {
      OccursInTake(s, target, k, idx);
    }
  }

  predicate Continuation(b: Byte) {
    0x80 <= b <= 0xBF
  }

  /** Size of the well-formed UTF-8 character at position i, or 0 for an invalid byte (RFC 3629, section 4). */
  function RuneSize(s: Bytes, i: nat): (size: nat)
    requires i < |s|
    ensures i + size <= |s| && size <= 4
  {
    var a := s[i];
    var n := |s| - i;
    if a < 0x80 then 1
    else if 0xC2 <= a <= 0xDF then
      if n >= 2 && Continuation(s[i + 1]) then 2 else 0
    else if 0xE0 <= a <= 0xEF then
      if n >= 3 && Continuation(s[i + 1]) && Continuation(s[i + 2])
         && (a == 0xE0 ==> s[i + 1] >= 0xA0) && (a == 0xED ==> s[i + 1] <= 0x9F) then 3 else 0
    else if 0xF0 <= a <= 0xF4 then
      if n >= 4 && Continuation(s[i + 1]) && Continuation(s[i + 2]) && Continuation(s[i + 3])
         && (a == 0xF0 ==> s[i + 1] >= 0x90) && (a == 0xF4 ==> s[i + 1] <= 0x8F) then 4 else 0
    else 0
  }

  /** Width of the step the decoder takes at i: an invalid byte is stepped over alone. */
  function Step(s: Bytes, i: nat): (w: nat)
    requires i < |s|
    ensures 1 <= w && i + w <= |s|
  {
    if RuneSize(s, i) == 0 then 1 else RuneSize(s, i)
  }

  /** Unicode scalar values: code points other than the surrogates. */
  predicate Scalar(cp: nat) {
    cp < 0xD800 || 0xE000 <= cp <= 0x10FFFF
  }

  /** The UTF-8 encoding of a scalar value (RFC 3629, section 3). */
  function Utf8(cp: nat): Bytes
    requires Scalar(cp)
  {
    if cp < 0x80 then [cp as Byte]
    else if cp < 0x800 then [(0xC0 + cp / 0x40) as Byte, (0x80 + cp % 0x40) as Byte]
    else if cp < 0x10000 then
      [(0xE0 + cp / 0x1000) as Byte, (0x80 + cp / 0x40 % 0x40) as Byte, (0x80 + cp % 0x40) as Byte]
    else
      [(0xF0 + cp / 0x40000) as Byte, (0x80 + cp / 0x1000 % 0x40) as Byte, (0x80 + cp / 0x40 % 0x40) as Byte,
       (0x80 + cp % 0x40) as Byte]
  }

  /** The decoder takes every encoded character whole. */
  lemma EncodedIsRune(s: Bytes, i: nat, cp: nat)
    requires Scalar(cp) && i < |s| && Utf8(cp) <= s[i..]
    ensures RuneSize(s, i) == |Utf8(cp)|
  {
    Utf8IsRune(cp);
    RuneIsLocal(s, i, Utf8(cp));
  }

  lemma Utf8IsRune(cp: nat)
    requires Scalar(cp)
    ensures Utf8(cp) != [] && RuneSize(Utf8(cp), 0) == |Utf8(cp)|
  {
    if cp < 0x800 {
    } else if cp < 0x10000 {
      ThreeRanges(cp);
    } else {
      FourRanges(cp);
    }
  }

  lemma ThreeRanges(cp: nat)
    requires Scalar(cp) && 0x800 <= cp < 0x10000
    ensures var a, b := 0xE0 + cp / 0x1000, 0x80 + cp / 0x40 % 0x40;
      a <= 0xEF && b <= 0xBF && (a == 0xE0 ==> b >= 0xA0) && (a == 0xED ==> b <= 0x9F)
  {
    var hi := cp / 0x40;
    assert cp / 0x1000 == hi / 0x40;
  }

  lemma FourRanges(cp: nat)
    requires 0x10000 <= cp <= 0x10FFFF
    ensures var a, b := 0xF0 + cp / 0x40000, 0x80 + cp / 0x1000 % 0x40;
      a <= 0xF4 && b <= 0xBF && (a == 0xF0 ==> b >= 0x90) && (a == 0xF4 ==> b <= 0x8F)
  {
    var top := cp / 0x1000;
    assert cp / 0x40000 == top / 0x40;
  }

  /** The decoder looks at no more bytes than it takes. */
  lemma RuneIsLocal(s: Bytes, i: nat, u: Bytes)
    requires i < |s| && u != [] && u <= s[i..] && RuneSize(u, 0) == |u|
    ensures RuneSize(s, i) == |u|
  {
    assert forall k :: 0 <= k < |u| ==> s[i + k] == s[i..][k] == u[k];
  }

  lemma TwoBytes(a: nat, b: nat) returns (cp: nat)
    requires 0xC2 <= a <= 0xDF && 0x80 <= b <= 0xBF
    ensures Scalar(cp) && Utf8(cp) == [a as Byte, b as Byte]
  {
    cp := (a - 0xC0) * 0x40 + (b - 0x80);
    assert cp / 0x40 == a - 0xC0 && cp % 0x40 == b - 0x80;
  }

  lemma ThreeBytes(a: nat, b: nat, c: nat) returns (cp: nat)
    requires 0xE0 <= a <= 0xEF && 0x80 <= b <= 0xBF && 0x80 <= c <= 0xBF
    requires (a == 0xE0 ==> b >= 0xA0) && (a == 0xED ==> b <= 0x9F)
    ensures Scalar(cp) && Utf8(cp) == [a as Byte, b as Byte, c as Byte]
  {
    var hi := (a - 0xE0) * 0x40 + (b - 0x80);
    cp := hi * 0x40 + (c - 0x80);
    assert cp / 0x40 == hi && cp % 0x40 == c - 0x80;
    assert hi % 0x40 == b - 0x80 && cp / 0x1000 == a - 0xE0;
  }

  lemma FourBytes(a: nat, b: nat, c: nat, d: nat) returns (cp: nat)
    requires 0xF0 <= a <= 0xF4 && 0x80 <= b <= 0xBF && 0x80 <= c <= 0xBF && 0x80 <= d <= 0xBF
    requires (a == 0xF0 ==> b >= 0x90) && (a == 0xF4 ==> b <= 0x8F)
    ensures Scalar(cp) && Utf8(cp) == [a as Byte, b as Byte, c as Byte, d as Byte]
  {
    var top := (a - 0xF0) * 0x40 + (b - 0x80);
    var hi := top * 0x40 + (c - 0x80);
    cp := hi * 0x40 + (d - 0x80);
    assert cp / 0x40 == hi && cp % 0x40 == d - 0x80;
    assert hi % 0x40 == c - 0x80 && cp / 0x1000 == top;
    assert top % 0x40 == b - 0x80 && cp / 0x40000 == a - 0xF0;
  }

  /** And what it takes whole is an encoded character. */
  lemma RuneIsEncoded(s: Bytes, i: nat) returns (cp: nat)
    requires i < |s| && RuneSize(s, i) > 0
    ensures Scalar(cp) && s[i..i + RuneSize(s, i)] == Utf8(cp)
  {
    match RuneSize(s, i)
    case 1 => cp := s[i] as nat;
    case 2 =>
      cp := TwoBytes(s[i] as nat, s[i + 1] as nat);
      assert s[i..i + 2] == [s[i], s[i + 1]];
    case 3 =>
      cp := ThreeBytes(s[i] as nat, s[i + 1] as nat, s[i + 2] as nat);
      assert s[i..i + 3] == [s[i], s[i + 1], s[i + 2]];
    case _ =>
      cp := FourBytes(s[i] as nat, s[i + 1] as nat, s[i + 2] as nat, s[i + 3] as nat);
      assert s[i..i + 4] == [s[i], s[i + 1], s[i + 2], s[i + 3]];
  }
}
