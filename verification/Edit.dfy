/** The Edit tool: exact and fuzzy in-place replacement over a byte file (app/agentcore/tools_write.go). */
module Edit {
  import opened ByteStrings

  const CR: Byte := 13
  const LF: Byte := 10
  const CRLF: Bytes := [CR, LF]
  const BOM: Bytes := [0xEF, 0xBB, 0xBF]

  datatype EditResult =
    | Edited(text: Bytes, fuzzy: bool)
    | NotFound
    | Ambiguous(count: nat)
    | AmbiguousFuzzy(count: nat)
    | OutOfRange

  // ----- Line endings -----

  function NormalizeToLF(s: Bytes): Bytes {
    ReplaceAll(s, CRLF, [LF])
  }

  function RestoreLineEndings(s: Bytes): Bytes {
    ReplaceAll(s, [LF], CRLF)
  }

  predicate LfAfterCr(s: Bytes) {
    forall i :: 0 <= i < |s| && s[i] == LF ==> i > 0 && s[i - 1] == CR
  }

  lemma RestoreStep(s: Bytes)
    requires s != []
    ensures RestoreLineEndings(s) == (if s[0] == LF then CRLF else [s[0]]) + RestoreLineEndings(s[1..])
  {
    assert s[..1] == [s[0]];
  }

  lemma NormalizeStep(s: Bytes)
    ensures |s| >= 2 && s[0] == CR && s[1] == LF ==> NormalizeToLF(s) == [LF] + NormalizeToLF(s[2..])
    ensures s != [] && !(|s| >= 2 && s[0] == CR && s[1] == LF) ==> NormalizeToLF(s) == [s[0]] + NormalizeToLF(s[1..])
  {
    if |s| >= 2 {
      assert s[..2] == [s[0], s[1]];
    } else if |s| == 1 {
      assert s == [s[0]] + [] && s[1..] == [];
    }
  }

  lemma {:induction false} RestoreNeverStartsWithLf(s: Bytes)
    ensures RestoreLineEndings(s) != [] ==> RestoreLineEndings(s)[0] != LF
    ensures s == [] <==> RestoreLineEndings(s) == []
  {
    if s != [] {
      RestoreStep(s);
    }
  }

  /** Normalizing what was restored gives the text back, for every text. */
  lemma {:induction false} NormalizeAfterRestore(s: Bytes)
    ensures NormalizeToLF(RestoreLineEndings(s)) == s
  {
    if s != [] {
      var r := RestoreLineEndings(s[1..]);
      RestoreStep(s);
      RestoreNeverStartsWithLf(s[1..]);
      NormalizeAfterRestore(s[1..]);
      NormalizeStep(RestoreLineEndings(s));
      if s[0] == LF {
        assert (CRLF + r)[2..] == r;
      } else {
        assert ([s[0]] + r)[1..] == r;
      }
      assert s == [s[0]] + s[1..];
    }
  }

  /** The other round trip is the identity exactly on texts whose every LF follows a CR. */
  lemma {:induction false} RestoreAfterNormalize(s: Bytes)
    ensures RestoreLineEndings(NormalizeToLF(s)) == s <==> LfAfterCr(s)
  {
    if s != [] {
      NormalizeStep(s);
      var n := NormalizeToLF(s);
      if |s| >= 2 && s[0] == CR && s[1] == LF {
        var t := s[2..];
        RestoreAfterNormalize(t);
        RestoreStep(n);
        assert n[1..] == NormalizeToLF(t);
        assert s == CRLF + t;
        LfAfterCrPrefix(s, 2);
      } else {
        var t := s[1..];
        RestoreAfterNormalize(t);
        RestoreStep(n);
        assert n[1..] == NormalizeToLF(t);
        assert s == [s[0]] + t;
        if s[0] == LF {
          assert RestoreLineEndings(n)[0] == CR;
          assert !LfAfterCr(s);
        } else {
          LfAfterCrPrefix(s, 1);
        }
      }
    }
  }

  lemma LfAfterCrPrefix(s: Bytes, k: nat)
    requires 0 < k <= |s| && LfAfterCr(s[..k])
    requires k < |s| ==> !(s[k - 1] == CR && s[k] == LF)
    ensures LfAfterCr(s) <==> LfAfterCr(s[k..])
  {
    var t := s[k..];
    if LfAfterCr(s) {
      forall i | 0 <= i < |t| && t[i] == LF ensures i > 0 && t[i - 1] == CR {
        assert s[k + i] == LF;
      }
    }
    if LfAfterCr(t) {
      forall i | 0 <= i < |s| && s[i] == LF ensures i > 0 && s[i - 1] == CR {
        if i < k {
          assert s[..k][i] == LF;
        } else {
          assert t[i - k] == LF;
        }
      }
    }
  }

  /** Restoring distributes over concatenation, since it looks at one byte at a time. */
  lemma {:induction false} RestoreConcat(a: Bytes, b: Bytes)
    ensures RestoreLineEndings(a + b) == RestoreLineEndings(a) + RestoreLineEndings(b)
  {
    if a == [] {
      assert a + b == b;
    } else {
      RestoreStep(a);
      RestoreStep(a + b);
      assert (a + b)[1..] == a[1..] + b;
      RestoreConcat(a[1..], b);
    }
  }

  /** Whatever is restored, every LF of it follows a CR. */
  lemma RestoredIsPure(s: Bytes)
    ensures LfAfterCr(RestoreLineEndings(s))
  {
    NormalizeAfterRestore(s);
    RestoreAfterNormalize(RestoreLineEndings(s));
  }

  lemma NormalizeWithoutCrlf(s: Bytes)
    requires !Contains(s, CRLF)
    ensures NormalizeToLF(s) == s
  {
    IndexIsFirst(s, CRLF, 0);
    ReplaceNone(s, CRLF, [LF]);
  }

  // ----- Search -----

  /** The overlapping scan: each hit restarts the search one byte later. */
  method FindAll(haystack: Bytes, needle: Bytes) returns (out: seq<nat>)
    ensures needle == [] ==> out == []
    ensures needle != [] ==> out == Occurrences(haystack, needle, 0)
  {
    out := [];
    if needle == [] {
      return;
    }
    var i := 0;
    while i + |needle| <= |haystack|
      invariant 0 <= i <= |haystack| + 1 && i <= |haystack| + |needle|
      invariant out + Occurrences(haystack, needle, i) == Occurrences(haystack, needle, 0)
    {
      var idx := Index(haystack[i..], needle);
      NextHit(haystack, needle, i);
      if idx < 0 {
        break;
      }
      Assoc(out, [i + idx], Occurrences(haystack, needle, i + idx + 1));
      out := out + [i + idx];
      i := i + idx + 1;
    }
  }

  /** A fresh search of the remainder finds the next entry of the overlapping list. */
  lemma NextHit(h: Bytes, n: Bytes, i: nat)
    requires n != [] && i <= |h|
    ensures var idx := Index(h[i..], n);
      Occurrences(h, n, i) == if idx < 0 then [] else [i + idx] + Occurrences(h, n, i + idx + 1)
  {
    var idx := Index(h[i..], n);
    var end := if idx < 0 then |h| + 1 else i + idx;
    IndexIsFirst(h[i..], n, 0);
    forall p | i <= p < end ensures !OccursAt(h, n, p) {
      OccursInDrop(h, n, i, p - i);
    }
    OccurrencesSkip(h, n, i, end);
    if idx >= 0 {
      OccursInDrop(h, n, i, idx);
    }
  }

  // ----- Character-wise normalization with an offset table -----

  /** Unicode normalization form NFKC as an uninterpreted map that never erases text. */
  ghost predicate KeepsText(nfkc: Bytes -> Bytes) {
    forall c :: c != [] ==> nfkc(c) != []
  }

  /** What one decoder step contributes: an invalid byte is kept as it is. */
  function NormChar(s: Bytes, i: nat, nfkc: Bytes -> Bytes): Bytes
    requires i < |s|
  {
    if RuneSize(s, i) == 0 then [s[i]] else nfkc(s[i..i + RuneSize(s, i)])
  }

  function NormText(s: Bytes, i: nat, nfkc: Bytes -> Bytes): Bytes
    requires i <= |s|
    decreases |s| - i
  {
    if i == |s| then [] else NormChar(s, i, nfkc) + NormText(s, i + Step(s, i), nfkc)
  }

  /** Normalized position to original position: the start of the character that produced the byte. */
  function Offsets(s: Bytes, i: nat, nfkc: Bytes -> Bytes): (offs: seq<nat>)
    requires i <= |s|
    ensures |offs| == |NormText(s, i, nfkc)| + 1
    decreases |s| - i
  {
    if i == |s| then [|s|]
    else seq(|NormChar(s, i, nfkc)|, _ => i) + Offsets(s, i + Step(s, i), nfkc)
  }

  /** Entry j of the table: this character's start, or the next characters' entry. */
  function OffsetAt(s: Bytes, i: nat, j: nat, nfkc: Bytes -> Bytes): nat
    requires i <= |s|
    decreases |s| - i
  {
    if i == |s| then i
    else if j < |NormChar(s, i, nfkc)| then i
    else OffsetAt(s, i + Step(s, i), j - |NormChar(s, i, nfkc)|, nfkc)
  }

  lemma {:induction false} OffsetsAt(s: Bytes, i: nat, j: nat, nfkc: Bytes -> Bytes)
    requires i <= |s| && j <= |NormText(s, i, nfkc)|
    ensures Offsets(s, i, nfkc)[j] == OffsetAt(s, i, j, nfkc)
    ensures j == |NormText(s, i, nfkc)| ==> OffsetAt(s, i, j, nfkc) == |s|
    decreases |s| - i
  {
    if i < |s| && j >= |NormChar(s, i, nfkc)| {
      OffsetsAt(s, i + Step(s, i), j - |NormChar(s, i, nfkc)|, nfkc);
    }
  }

  lemma {:induction false} OffsetAtAscends(s: Bytes, i: nat, j: nat, k: nat, nfkc: Bytes -> Bytes)
    requires i <= |s| && j <= k
    ensures i <= OffsetAt(s, i, j, nfkc) <= OffsetAt(s, i, k, nfkc) <= |s|
    decreases |s| - i
  {
    if i < |s| {
      var n, next := |NormChar(s, i, nfkc)|, i + Step(s, i);
      OffsetAtAscends(s, next, if j < n then 0 else j - n, if k < n then 0 else k - n, nfkc);
    }
  }

  /** The table never decreases, stays inside the original and ends at its length. */
  lemma OffsetTable(s: Bytes, i: nat, j: nat, k: nat, nfkc: Bytes -> Bytes)
    requires i <= |s| && j <= k <= |NormText(s, i, nfkc)|
    ensures var offs := Offsets(s, i, nfkc);
      && i <= offs[j] <= offs[k] <= |s|
      && offs[|NormText(s, i, nfkc)|] == |s|
  {
    OffsetsAt(s, i, j, nfkc);
    OffsetsAt(s, i, k, nfkc);
    OffsetsAt(s, i, |NormText(s, i, nfkc)|, nfkc);
    OffsetAtAscends(s, i, j, k, nfkc);
  }

  /** Maps every byte of one normalized character back to where the character starts. */
  method Repeat(offsets: seq<nat>, i: nat, count: nat) returns (out: seq<nat>)
    ensures out == offsets + seq(count, _ => i)
  {
    out := offsets;
    for j := 0 to count
      invariant out == offsets + seq(j, _ => i)
    {
      out := out + [i];
    }
  }

  /** What is written out, with what is to come from position i on, is the whole. */
  ghost predicate Normed(text: Bytes, offsets: seq<nat>, s: Bytes, i: nat, nfkc: Bytes -> Bytes) {
    i <= |s| && text + NormText(s, i, nfkc) == NormText(s, 0, nfkc) && offsets + Offsets(s, i, nfkc) == Offsets(s, 0, nfkc)
  }

  lemma NormAdvance(text: Bytes, offsets: seq<nat>, s: Bytes, i: nat, nfkc: Bytes -> Bytes)
    requires i < |s| && Normed(text, offsets, s, i, nfkc)
    ensures var c := NormChar(s, i, nfkc); Normed(text + c, offsets + seq(|c|, _ => i), s, i + Step(s, i), nfkc)
  {
    Assoc(text, NormChar(s, i, nfkc), NormText(s, i + Step(s, i), nfkc));
    Assoc(offsets, seq(|NormChar(s, i, nfkc)|, _ => i), Offsets(s, i + Step(s, i), nfkc));
  }

  lemma NormDone(text: Bytes, offsets: seq<nat>, s: Bytes, nfkc: Bytes -> Bytes)
    requires Normed(text, offsets, s, |s|, nfkc)
    ensures text == NormText(s, 0, nfkc) && offsets + [|s|] == Offsets(s, 0, nfkc)
  {
  }

  method NormWithOffsets(s: Bytes, nfkc: Bytes -> Bytes) returns (text: Bytes, offsets: seq<nat>)
    ensures text == NormText(s, 0, nfkc)
    ensures offsets == Offsets(s, 0, nfkc)
  {
    text, offsets := [], [];
    var i := 0;
    while i < |s|
      invariant 0 <= i <= |s| && Normed(text, offsets, s, i, nfkc)
    {
      var size := RuneSize(s, i);
      NormAdvance(text, offsets, s, i, nfkc);
      if size == 0 {
        assert seq(1, _ => i) == [i];
        text := text + [s[i]];
        offsets := offsets + [i];
        i := i + 1;
      } else {
        var normed := nfkc(s[i..i + size]);
        offsets := Repeat(offsets, i, |normed|);
        text := text + normed;
        i := i + size;
      }
    }
    NormDone(text, offsets, s, nfkc);
    offsets := offsets + [|s|];
  }

  // ----- The edit -----

  function FinishEdit(body: Bytes, bom: Bytes, crlf: bool): Bytes {
    bom + if crlf then RestoreLineEndings(body) else body
  }

  function BomOf(original: Bytes): Bytes {
    if BOM <= original then BOM else []
  }

  function BodyOf(original: Bytes): Bytes {
    original[|BomOf(original)|..]
  }

  function Splice(body: Bytes, lo: nat, hi: nat, repl: Bytes): Bytes
    requires lo <= hi <= |body|
  {
    body[..lo] + repl + body[hi..]
  }

  function Hits(h: Bytes, n: Bytes): seq<nat> {
    if n == [] then [] else Occurrences(h, n, 0)
  }

  lemma HitsFit(h: Bytes, n: Bytes)
    ensures forall p :: p in Hits(h, n) ==> n != [] && OccursAt(h, n, p)
    ensures forall i :: 0 <= i < |Hits(h, n)| ==> n != [] && OccursAt(h, n, Hits(h, n)[i])
  {
    if n != [] {
      OccurrencesExact(h, n, 0);
      assert forall i :: 0 <= i < |Hits(h, n)| ==> Hits(h, n)[i] in Hits(h, n);
    }
  }

  /** The original bytes a unique hit in the normalized text maps back to. */
  function FuzzySpan(body: Bytes, needle: Bytes, nfkc: Bytes -> Bytes): (span: (nat, nat))
    requires |Hits(NormText(body, 0, nfkc), needle)| == 1
    ensures span.0 <= span.1 <= |body|
  {
    HitsFit(NormText(body, 0, nfkc), needle);
    var q := Hits(NormText(body, 0, nfkc), needle)[0];
    OffsetTable(body, 0, q, q + |needle|, nfkc);
    (Offsets(body, 0, nfkc)[q], Offsets(body, 0, nfkc)[q + |needle|])
  }

  /** Fuzzy matching finds the target in the normalized text and cuts the characters it maps back to. */
  function FuzzyEdit(body: Bytes, target: Bytes, repl: Bytes, nfkc: Bytes -> Bytes): EditResult {
    var hits := Hits(NormText(body, 0, nfkc), nfkc(target));
    if hits == [] then NotFound
    else if |hits| > 1 then AmbiguousFuzzy(|hits|)
    else
      var (lo, hi) := FuzzySpan(body, nfkc(target), nfkc);
      Edited(Splice(body, lo, hi, repl), true)
  }

  /** What an edit of LF text does, before line endings and BOM are put back. */
  function EditLf(body: Bytes, target: Bytes, repl: Bytes, replaceAll: bool, nfkc: Bytes -> Bytes): EditResult {
    var exact := Hits(body, target);
    if exact == [] then FuzzyEdit(body, target, repl, nfkc)
    else if replaceAll then Edited(ReplaceAll(body, target, repl), false)
    else if |exact| > 1 then Ambiguous(|exact|)
    else
      HitsFit(body, target);
      Edited(Splice(body, exact[0], exact[0] + |target|, repl), false)
  }

  function Finished(r: EditResult, bom: Bytes, crlf: bool): EditResult {
    if r.Edited? then r.(text := FinishEdit(r.text, bom, crlf)) else r
  }

  function Edit(original: Bytes, target: Bytes, repl: Bytes, replaceAll: bool, nfkc: Bytes -> Bytes): EditResult {
    var body := BodyOf(original);
    Finished(EditLf(NormalizeToLF(body), NormalizeToLF(target), NormalizeToLF(repl), replaceAll, nfkc),
             BomOf(original), Contains(body, CRLF))
  }

  /** The replace-all loop over overlapping positions is leftmost non-overlapping replacement; the
      range check of the fuzzy branch never fires. */
  method ApplyEdit(original: Bytes, target: Bytes, repl: Bytes, replaceAll: bool, nfkc: Bytes -> Bytes)
    returns (r: EditResult)
    ensures r == Edit(original, target, repl, replaceAll, nfkc)
    ensures !r.OutOfRange?
  {
    var body, bom := original, [];
    if BOM <= body {
      bom := BOM;
      body := body[|BOM|..];
    }
    assert body == BodyOf(original) && bom == BomOf(original);
    var crlf := Contains(body, CRLF);
    r := ApplyLf(NormalizeToLF(body), NormalizeToLF(target), NormalizeToLF(repl), replaceAll, nfkc);
    if r.Edited? {
      r := r.(text := FinishEdit(r.text, bom, crlf));
    }
  }

  method ApplyLf(body: Bytes, target: Bytes, repl: Bytes, replaceAll: bool, nfkc: Bytes -> Bytes) returns (r: EditResult)
    ensures r == EditLf(body, target, repl, replaceAll, nfkc)
    ensures !r.OutOfRange?
  {
    var positions := FindAll(body, target);
    if positions == [] {
      r := ApplyFuzzy(body, target, repl, nfkc);
      return;
    }
    if !replaceAll && |positions| > 1 {
      return Ambiguous(|positions|);
    }
    PiecesAreReplacement(body, target, repl);
    var text := ReplaceAt(body, target, repl, positions, replaceAll);
    r := Edited(text, false);
  }

  method ApplyFuzzy(body: Bytes, target: Bytes, repl: Bytes, nfkc: Bytes -> Bytes) returns (r: EditResult)
    ensures r == FuzzyEdit(body, target, repl, nfkc)
    ensures !r.OutOfRange?
  {
    var text, offsets := NormWithOffsets(body, nfkc);
    var fuzzyTarget := nfkc(target);
    var positions := FindAll(text, fuzzyTarget);
    if positions == [] {
      return NotFound;
    }
    if |positions| > 1 {
      return AmbiguousFuzzy(|positions|);
    }
    HitsFit(text, fuzzyTarget);
    OffsetTable(body, 0, positions[0], positions[0] + |fuzzyTarget|, nfkc);
    var lo, hi := offsets[positions[0]], offsets[positions[0] + |fuzzyTarget|];
    if lo < 0 || hi < 0 || hi < lo || hi > |body| {
      return OutOfRange;
    }
    r := Edited(body[..lo] + repl + body[hi..], true);
  }

  // ----- Replacing at positions that may overlap -----

  predicate InBody(body: Bytes, len: nat, positions: seq<nat>) {
    forall i :: 0 <= i < |positions| ==> positions[i] + len <= |body|
  }

  /** The rest of the text from `last` on with the positions from k on replaced, those inside a replaced one skipped. */
  function Pieces(body: Bytes, len: nat, repl: Bytes, positions: seq<nat>, k: nat, last: nat): Bytes
    requires InBody(body, len, positions) && k <= |positions| && last <= |body|
    decreases |positions| - k
  {
    if k == |positions| then body[last..]
    else if positions[k] < last then Pieces(body, len, repl, positions, k + 1, last)
    else body[last..positions[k]] + repl + Pieces(body, len, repl, positions, k + 1, positions[k] + len)
  }

  method ReplaceAt(body: Bytes, target: Bytes, repl: Bytes, positions: seq<nat>, replaceAll: bool) returns (text: Bytes)
    requires positions != [] && InBody(body, |target|, positions)
    ensures replaceAll ==> text == Pieces(body, |target|, repl, positions, 0, 0)
    ensures !replaceAll ==> text == Splice(body, positions[0], positions[0] + |target|, repl)
  {
    var sb: Bytes, last: nat, k: nat := [], 0, 0;
    while k < |positions|
      invariant k <= |positions| && last <= |body|
      invariant sb + Pieces(body, |target|, repl, positions, k, last) == Pieces(body, |target|, repl, positions, 0, 0)
      invariant !replaceAll ==> k == 0 && sb == [] && last == 0
    {
      var pos := positions[k];
      if pos < last {
        k := k + 1;
        continue;
      }
      ghost var rest := Pieces(body, |target|, repl, positions, k + 1, pos + |target|);
      Assoc(sb, body[last..pos] + repl, rest);
      Assoc(sb, body[last..pos], repl);
      sb := sb + body[last..pos] + repl;
      last := pos + |target|;
      k := k + 1;
      if !replaceAll {
        break;
      }
    }
    text := sb + body[last..];
  }

  /** No occurrence at or after `last` comes before the positions still to be visited. */
  ghost predicate Pending(body: Bytes, target: Bytes, positions: seq<nat>, k: nat, last: nat) {
    forall p :: last <= p && OccursAt(body, target, p) ==> k < |positions| && positions[k] <= p
  }

  lemma PendingNext(body: Bytes, target: Bytes, positions: seq<nat>, k: nat, last: nat)
    requires target != [] && positions == Occurrences(body, target, 0) && k < |positions|
    requires Pending(body, target, positions, k, last)
    ensures OccursAt(body, target, positions[k])
    ensures forall p :: last <= p < positions[k] ==> !OccursAt(body, target, p)
    ensures positions[k] < last ==> Pending(body, target, positions, k + 1, last)
    ensures Pending(body, target, positions, k + 1, positions[k] + |target|)
  {
    OccurrencesExact(body, target, 0);
    assert positions[k] in positions;
    forall p | positions[k] < p && OccursAt(body, target, p) ensures k + 1 < |positions| && positions[k + 1] <= p {
      assert p in positions;
    }
  }

  /** Once every position is visited, the rest of the text is copied unchanged. */
  lemma NothingLeft(body: Bytes, target: Bytes, repl: Bytes, positions: seq<nat>, last: nat)
    requires target != [] && last <= |body|
    requires Pending(body, target, positions, |positions|, last)
    ensures ReplaceAll(body[last..], target, repl) == body[last..]
  {
    forall p ensures !OccursAt(body[last..], target, p) {
      if p >= 0 {
        OccursInDrop(body, target, last, p);
      }
    }
    ReplaceNone(body[last..], target, repl);
  }

  lemma {:induction false} PiecesFrom(body: Bytes, target: Bytes, repl: Bytes, positions: seq<nat>, k: nat, last: nat)
    requires target != [] && positions == Occurrences(body, target, 0) && InBody(body, |target|, positions)
    requires k <= |positions| && last <= |body| && Pending(body, target, positions, k, last)
    ensures Pieces(body, |target|, repl, positions, k, last) == ReplaceAll(body[last..], target, repl)
    decreases |positions| - k
  {
    if k == |positions| {
      NothingLeft(body, target, repl, positions, last);
    } else {
      PendingNext(body, target, positions, k, last);
      var pos := positions[k];
      if pos < last {
        PiecesFrom(body, target, repl, positions, k + 1, last);
      } else {
        PiecesFrom(body, target, repl, positions, k + 1, pos + |target|);
        ReplaceFrom(body, target, repl, last, pos);
      }
    }
  }

  lemma HitsInBody(body: Bytes, target: Bytes)
    ensures InBody(body, |target|, Hits(body, target))
  {
    HitsFit(body, target);
  }

  /** Replacing at the overlapping positions, skipping what was just replaced, is leftmost non-overlapping
      replacement. */
  lemma PiecesAreReplacement(body: Bytes, target: Bytes, repl: Bytes)
    requires target != []
    ensures InBody(body, |target|, Hits(body, target))
    ensures Pieces(body, |target|, repl, Hits(body, target), 0, 0) == ReplaceAll(body, target, repl)
  {
    HitsInBody(body, target);
    AllPending(body, target);
    PiecesFrom(body, target, repl, Hits(body, target), 0, 0);
    assert body[0..] == body;
  }

  lemma AllPending(body: Bytes, target: Bytes)
    requires target != []
    ensures Pending(body, target, Hits(body, target), 0, 0)
  {
    OccurrencesExact(body, target, 0);
    forall p: nat | OccursAt(body, target, p) ensures Hits(body, target) != [] && Hits(body, target)[0] <= p {
      assert p in Hits(body, target);
    }
  }
}
