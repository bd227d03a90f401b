/** What an edit promises its caller: uniqueness, locality, line endings, reversibility, fuzzy spans. */
module EditProperties {
  import opened ByteStrings
  import opened Edit

  function LfBody(original: Bytes): Bytes {
    NormalizeToLF(BodyOf(original))
  }

  predicate UsesCrlf(original: Bytes) {
    Contains(BodyOf(original), CRLF)
  }

  /** LF text written the way the file writes its lines. */
  function InFileStyle(original: Bytes, text: Bytes): Bytes {
    if UsesCrlf(original) then RestoreLineEndings(text) else text
  }

  predicate NoCr(s: Bytes) {
    CR !in s
  }

  ghost predicate Occurs(h: Bytes, n: Bytes) {
    n != [] && exists p :: OccursAt(h, n, p)
  }

  ghost predicate OccursTwice(h: Bytes, n: Bytes) {
    n != [] && exists p, q :: p != q && OccursAt(h, n, p) && OccursAt(h, n, q)
  }

  lemma CountOccurrences(h: Bytes, n: Bytes)
    ensures Hits(h, n) != [] <==> Occurs(h, n)
    ensures |Hits(h, n)| > 1 <==> OccursTwice(h, n)
  {
    if n != [] {
      OccurrencesExact(h, n, 0);
      var hits := Hits(h, n);
      if hits != [] {
        assert hits[0] in hits;
      }
      if |hits| > 1 {
        assert hits[0] in hits && hits[1] in hits && hits[0] != hits[1];
      }
      if OccursTwice(h, n) {
        var p, q :| p != q && OccursAt(h, n, p) && OccursAt(h, n, q);
        assert p in hits && q in hits;
      }
    }
  }

  lemma CountDecides(original: Bytes, target: Bytes, repl: Bytes, replaceAll: bool, nfkc: Bytes -> Bytes)
    ensures var r := Edit.Edit(original, target, repl, replaceAll, nfkc);
      var n := |Hits(LfBody(original), NormalizeToLF(target))|;
      && ((r.Edited? && !r.fuzzy) <==> if replaceAll then n > 0 else n == 1)
      && (r.Ambiguous? <==> !replaceAll && n > 1)
      && (r.Ambiguous? ==> r.count == n)
  {
  }

  /** An exact edit happens iff the old text occurs somewhere, overlaps included, and not twice unless all occurrences
      are to be replaced; otherwise it is refused as ambiguous, or left to fuzzy matching. */
  lemma ExactEditIff(original: Bytes, target: Bytes, repl: Bytes, replaceAll: bool, nfkc: Bytes -> Bytes)
    ensures var r := Edit.Edit(original, target, repl, replaceAll, nfkc);
      var lf, t := LfBody(original), NormalizeToLF(target);
      && ((r.Edited? && !r.fuzzy) <==> Occurs(lf, t) && (replaceAll || !OccursTwice(lf, t)))
      && (r.Ambiguous? <==> !replaceAll && OccursTwice(lf, t))
  {
    CountOccurrences(LfBody(original), NormalizeToLF(target));
    CountDecides(original, target, repl, replaceAll, nfkc);
  }

  /** A leading BOM survives, and in a CRLF file every LF of the result follows a CR. */
  lemma EditKeepsFileStyle(original: Bytes, target: Bytes, repl: Bytes, replaceAll: bool, nfkc: Bytes -> Bytes)
    requires Edit.Edit(original, target, repl, replaceAll, nfkc).Edited?
    ensures var text := Edit.Edit(original, target, repl, replaceAll, nfkc).text;
      && BomOf(original) <= text
      && (UsesCrlf(original) ==> LfAfterCr(text[|BomOf(original)|..]))
  {
    var r := EditLf(LfBody(original), NormalizeToLF(target), NormalizeToLF(repl), replaceAll, nfkc);
    var out := FinishEdit(r.text, BomOf(original), UsesCrlf(original));
    RestoredIsPure(r.text);
    assert out[|BomOf(original)|..] == InFileStyle(original, r.text);
  }

  lemma StyleConcat(original: Bytes, a: Bytes, b: Bytes, c: Bytes)
    ensures InFileStyle(original, a + b + c)
         == InFileStyle(original, a) + InFileStyle(original, b) + InFileStyle(original, c)
  {
    RestoreConcat(a + b, c);
    RestoreConcat(a, b);
  }

  /** Replacing a unique text by itself gives the file back exactly when its line endings are not mixed. */
  lemma IdentityEditIff(original: Bytes, target: Bytes, nfkc: Bytes -> Bytes)
    requires |Hits(LfBody(original), NormalizeToLF(target))| == 1
    ensures Edit.Edit(original, target, target, false, nfkc) == Edited(original, false)
       <==> (UsesCrlf(original) ==> LfAfterCr(BodyOf(original)))
  {
    var lf, t := LfBody(original), NormalizeToLF(target);
    HitsFit(lf, t);
    var p := Hits(lf, t)[0];
    assert lf[..p] + t + lf[p + |t|..] == lf;
    var bom, body := BomOf(original), BodyOf(original);
    assert original == bom + body;
    StyleRoundTrip(original);
    CancelPrefix(bom, body, InFileStyle(original, lf));
  }

  // ----- Where the match lies in the file's own bytes -----

  /** Bytes that normalize to one: a CRLF, or any other byte. */
  function UnitSize(s: Bytes): (u: nat)
    requires s != []
    ensures u <= |s|
  {
    if |s| >= 2 && s[0] == CR && s[1] == LF then 2 else 1
  }

  /** Where byte k of the normalized text comes from. */
  function UnitOffset(s: Bytes, k: nat): (o: nat)
    ensures o <= |s|
  {
    if k == 0 || s == [] then 0 else UnitSize(s) + UnitOffset(s[UnitSize(s)..], k - 1)
  }

  /** No CRLF is cut in two at o. */
  predicate Seam(s: Bytes, o: nat) {
    0 < o < |s| ==> !(s[o - 1] == CR && s[o] == LF)
  }

  lemma FirstUnit(s: Bytes, o: nat)
    requires s != [] && UnitSize(s) <= o <= |s|
    ensures var u := UnitSize(s);
      NormalizeToLF(s[..o]) == [if u == 2 then LF else s[0]] + NormalizeToLF(s[u..][..o - u])
  {
    var u, t := UnitSize(s), s[..o];
    NormalizeStep(t);
    assert t[u..] == s[u..][..o - u];
  }

  lemma {:induction false} UnitSplit(s: Bytes, k: nat)
    requires k <= |NormalizeToLF(s)|
    ensures var o := UnitOffset(s, k);
      && NormalizeToLF(s[..o]) == NormalizeToLF(s)[..k] && NormalizeToLF(s[o..]) == NormalizeToLF(s)[k..]
      && Seam(s, o)
    decreases k
  {
    var o := UnitOffset(s, k);
    if k == 0 || s == [] {
      assert s[o..] == s && s[..o] == [];
    } else {
      var u := UnitSize(s);
      var rest := s[u..];
      UnitSplit(rest, k - 1);
      UnitSplitStep(s, k, o, o - u);
    }
  }

  lemma UnitSplitStep(s: Bytes, k: nat, o: nat, o': nat)
    requires s != [] && 0 < k <= |NormalizeToLF(s)| && o == UnitSize(s) + o' <= |s|
    requires var rest := s[UnitSize(s)..];
      && k - 1 <= |NormalizeToLF(rest)| && NormalizeToLF(rest[..o']) == NormalizeToLF(rest)[..k - 1]
      && NormalizeToLF(rest[o'..]) == NormalizeToLF(rest)[k - 1..] && Seam(rest, o')
    ensures NormalizeToLF(s[..o]) == NormalizeToLF(s)[..k] && NormalizeToLF(s[o..]) == NormalizeToLF(s)[k..] && Seam(s, o)
  {
    var u := UnitSize(s);
    var rest := s[u..];
    NormalizeStep(s);
    FirstUnit(s, o);
    assert rest[o'..] == s[o..];
    assert o < |s| ==> s[o] == rest[o'];
    assert o' > 0 ==> s[o - 1] == rest[o' - 1];
  }

  /** The matched bytes of the file: from MatchStart up to MatchEnd. */
  function MatchStart(original: Bytes, target: Bytes): (lo: nat)
    requires Hits(LfBody(original), NormalizeToLF(target)) != []
    ensures lo <= |BodyOf(original)|
  {
    UnitOffset(BodyOf(original), Hits(LfBody(original), NormalizeToLF(target))[0])
  }

  function MatchEnd(original: Bytes, target: Bytes): (hi: nat)
    requires Hits(LfBody(original), NormalizeToLF(target)) != []
    ensures MatchStart(original, target) <= hi <= |BodyOf(original)|
  {
    var lo := MatchStart(original, target);
    lo + UnitOffset(BodyOf(original)[lo..], |NormalizeToLF(target)|)
  }

  lemma StretchSplits(body: Bytes, p: nat, m: nat, lo: nat, hi: nat)
    requires p + m <= |NormalizeToLF(body)|
    requires lo == UnitOffset(body, p) && hi == lo + UnitOffset(body[lo..], m)
    ensures NormalizeToLF(body[..lo]) == NormalizeToLF(body)[..p]
    ensures NormalizeToLF(body[lo..hi]) == NormalizeToLF(body)[p..p + m]
    ensures NormalizeToLF(body[hi..]) == NormalizeToLF(body)[p + m..]
    ensures Seam(body, hi)
  {
    UnitSplit(body, p);
    UnitSplit(body[lo..], m);
    StretchOf(body, NormalizeToLF(body), lo, hi, p, m);
    SeamLater(body, lo, hi);
  }

  lemma StretchOf(body: Bytes, lf: Bytes, lo: nat, hi: nat, p: nat, m: nat)
    requires lo <= hi <= |body| && p + m <= |lf| && NormalizeToLF(body[lo..]) == lf[p..]
    requires NormalizeToLF(body[lo..][..hi - lo]) == lf[p..][..m] && NormalizeToLF(body[lo..][hi - lo..]) == lf[p..][m..]
    ensures NormalizeToLF(body[lo..hi]) == lf[p..p + m] && NormalizeToLF(body[hi..]) == lf[p + m..]
  {
    Slices(body, lo, hi - lo);
    Slices(lf, p, m);
  }

  lemma Slices(s: Bytes, from: nat, count: nat)
    requires from + count <= |s|
    ensures s[from..][..count] == s[from..from + count] && s[from..][count..] == s[from + count..]
  {
  }

  lemma SeamLater(body: Bytes, lo: nat, hi: nat)
    requires lo <= hi <= |body| && Seam(body, lo) && Seam(body[lo..], hi - lo)
    ensures Seam(body, hi)
  {
    assert hi > lo ==> body[hi - 1] == body[lo..][hi - lo - 1];
    assert hi < |body| ==> body[hi] == body[lo..][hi - lo];
  }

  lemma MatchSplitsBody(original: Bytes, target: Bytes)
    requires Hits(LfBody(original), NormalizeToLF(target)) != []
    ensures var body, lf, t := BodyOf(original), LfBody(original), NormalizeToLF(target);
      var lo, hi, p := MatchStart(original, target), MatchEnd(original, target), Hits(lf, t)[0];
      && p + |t| <= |lf|
      && NormalizeToLF(body[..lo]) == lf[..p] && NormalizeToLF(body[lo..hi]) == t && NormalizeToLF(body[hi..]) == lf[p + |t|..]
      && Seam(body, hi)
  {
    var lf, t := LfBody(original), NormalizeToLF(target);
    HitsFit(lf, t);
    StretchSplits(BodyOf(original), Hits(lf, t)[0], |t|, MatchStart(original, target), MatchEnd(original, target));
  }

  // ----- What stays -----

  /** pre and post stand at the two ends of the body without overlapping. */
  predicate Around(body: Bytes, pre: Bytes, post: Bytes) {
    |pre| + |post| <= |body| && body[..|pre|] == pre && body[|body| - |post|..] == post
  }

  predicate LfOutsideAfterCr(body: Bytes, lo: nat, hi: nat) {
    forall i :: 0 <= i < |body| && !(lo <= i < hi) && body[i] == LF ==> i > 0 && body[i - 1] == CR
  }

  lemma OutsideIsBothEnds(body: Bytes, lo: nat, hi: nat)
    requires lo <= hi <= |body| && Seam(body, hi)
    ensures LfOutsideAfterCr(body, lo, hi) <==> LfAfterCr(body[..lo]) && LfAfterCr(body[hi..])
  {
    var a, c := body[..lo], body[hi..];
    if LfOutsideAfterCr(body, lo, hi) {
      forall i | 0 <= i < |c| && c[i] == LF ensures i > 0 && c[i - 1] == CR {
        assert body[hi + i] == LF;
      }
    }
    if LfAfterCr(a) && LfAfterCr(c) {
      forall i | 0 <= i < |body| && !(lo <= i < hi) && body[i] == LF ensures i > 0 && body[i - 1] == CR {
        if i < lo {
          assert a[i] == LF;
        } else {
          assert c[i - hi] == LF;
        }
      }
    }
  }

  /** A restored beginning that still begins the text had no lone LF. */
  lemma {:induction false} RestoredPrefix(a: Bytes, rest: Bytes)
    requires RestoreLineEndings(NormalizeToLF(a)) <= a + rest
    ensures LfAfterCr(a)
  {
    if a != [] {
      var u, n := UnitSize(a), NormalizeToLF(a);
      NormalizeStep(a);
      RestoreStep(n);
      var tail := a[u..];
      assert n[1..] == NormalizeToLF(tail);
      var r := RestoreLineEndings(n);
      assert a + rest == a[..u] + (tail + rest);
      assert r[0] == (a + rest)[0] == a[0];
      assert a[0] != LF;
      assert r == a[..u] + RestoreLineEndings(NormalizeToLF(tail)) by {
        assert u == 2 ==> a[..2] == CRLF;
      }
      SamePrefixRest(a[..u], RestoreLineEndings(NormalizeToLF(tail)), tail + rest);
      RestoredPrefix(tail, rest);
      LfAfterCrPrefix(a, u);
    }
  }

  lemma SamePrefixRest(a: Bytes, b: Bytes, c: Bytes)
    requires a + b <= a + c
    ensures b <= c
  {
    assert forall i :: 0 <= i < |b| ==> (a + b)[|a| + i] == (a + c)[|a| + i] && (a + b)[|a| + i] == b[i];
  }

  lemma EndOfEnd(whole: Bytes, unit: Bytes, q: Bytes)
    requires |unit + q| <= |whole| && whole[|whole| - |unit + q|..] == unit + q
    ensures whole[|whole| - |q|..] == q
  {
    assert whole[|whole| - |q|..] == whole[|whole| - |unit + q|..][|unit|..];
    assert (unit + q)[|unit|..] == q;
  }

  lemma SeamNext(front: Bytes, c: Bytes)
    requires c != []
    ensures Seam(front + c, |front| + UnitSize(c))
  {
    var u := UnitSize(c);
    assert u < |c| ==> (front + c)[|front| + u] == c[u] && (front + c)[|front| + u - 1] == c[u - 1];
  }

  /** A text that ends in CRLF + q splits before the LF at the length of q and one more. */
  lemma SplitsCrlf(front: Bytes, c: Bytes, q: Bytes)
    requires |c| == |q| + 1
    requires |CRLF + q| <= |front + c| && (front + c)[|front + c| - |CRLF + q|..] == CRLF + q
    ensures front != [] && front[|front| - 1] == CR && c[0] == LF
  {
    var whole := front + c;
    var end := whole[|whole| - |CRLF + q|..];
    assert end[0] == CR && end[1] == LF;
    assert whole[|front| - 1] == end[0] && whole[|front|] == end[1];
  }

  /** What is restored from c ends the text front + c. */
  predicate StillEnds(front: Bytes, c: Bytes) {
    var r := RestoreLineEndings(NormalizeToLF(c));
    |r| <= |front + c| && (front + c)[|front + c| - |r|..] == r
  }

  lemma StillEndsStep(front: Bytes, c: Bytes)
    requires c != [] && Seam(front + c, |front|) && StillEnds(front, c)
    ensures var u := UnitSize(c);
      Seam(front + c[..u] + c[u..], |front + c[..u]|) && StillEnds(front + c[..u], c[u..])
  {
    var u, n := UnitSize(c), NormalizeToLF(c);
    NormalizeStep(c);
    RestoreStep(n);
    assert n[1..] == NormalizeToLF(c[u..]);
    assert front + c == front + c[..u] + c[u..];
    EndOfEnd(front + c, if n[0] == LF then CRLF else [n[0]], RestoreLineEndings(NormalizeToLF(c[u..])));
    SeamNext(front, c);
  }

  lemma FirstNotAlone(front: Bytes, c: Bytes)
    requires c != [] && Seam(front + c, |front|) && StillEnds(front, c) && LfAfterCr(c[UnitSize(c)..])
    ensures c[0] != LF
  {
    var u, n := UnitSize(c), NormalizeToLF(c);
    NormalizeStep(c);
    RestoreStep(n);
    assert n[1..] == NormalizeToLF(c[u..]);
    RestoreAfterNormalize(c[u..]);
    if c[0] == LF {
      SplitsCrlf(front, c, c[u..]);
    }
  }

  /** A restored end that still ends the text had no lone LF. */
  lemma {:induction false} RestoredSuffix(front: Bytes, c: Bytes)
    requires Seam(front + c, |front|) && StillEnds(front, c)
    ensures LfAfterCr(c)
    decreases |c|
  {
    if c != [] {
      var u := UnitSize(c);
      StillEndsStep(front, c);
      RestoredSuffix(front + c[..u], c[u..]);
      FirstNotAlone(front, c);
      LfAfterCrPrefix(c, u);
    }
  }

  lemma OccursContains(s: Bytes, n: Bytes, p: nat)
    requires n != [] && OccursAt(s, n, p)
    ensures Contains(s, n)
  {
    IndexIsFirst(s, n, 0);
  }

  lemma PartContains(s: Bytes, n: Bytes, lo: nat, hi: nat)
    requires n != [] && lo <= hi <= |s| && Contains(s[lo..hi], n)
    ensures Contains(s, n)
  {
    var idx := Index(s[lo..hi], n);
    assert s[lo..hi] == s[..hi][lo..];
    OccursInDrop(s[..hi], n, lo, idx);
    OccursInTake(s, n, hi, lo + idx);
    OccursContains(s, n, lo + idx);
  }

  lemma PlainPart(s: Bytes, lo: nat, hi: nat)
    requires lo <= hi <= |s| && !Contains(s, CRLF)
    ensures NormalizeToLF(s[lo..hi]) == s[lo..hi]
  {
    if Contains(s[lo..hi], CRLF) {
      PartContains(s, CRLF, lo, hi);
    } else {
      NormalizeWithoutCrlf(s[lo..hi]);
    }
  }

  /** A unique exact edit writes the new text between what comes before and after the match. The bytes outside the
      match stay as they were exactly when, in a file that uses CRLF, no LF outside the match stands alone. */
  lemma UniqueEditIsLocal(original: Bytes, target: Bytes, repl: Bytes, nfkc: Bytes -> Bytes)
    requires |Hits(LfBody(original), NormalizeToLF(target))| == 1
    ensures var body, lo, hi := BodyOf(original), MatchStart(original, target), MatchEnd(original, target);
      var pre := InFileStyle(original, NormalizeToLF(body[..lo]));
      var post := InFileStyle(original, NormalizeToLF(body[hi..]));
      && NormalizeToLF(body[lo..hi]) == NormalizeToLF(target)
      && Edit.Edit(original, target, repl, false, nfkc)
         == Edited(BomOf(original) + (pre + InFileStyle(original, NormalizeToLF(repl)) + post), false)
      && (Around(body, pre, post) <==> (UsesCrlf(original) ==> LfOutsideAfterCr(body, lo, hi)))
      && (Around(body, pre, post) ==> pre == body[..lo] && post == body[hi..])
  {
    MatchSplitsBody(original, target);
    UniqueEditText(original, target, repl, nfkc);
    AroundIff(original, MatchStart(original, target), MatchEnd(original, target));
  }

  lemma UniqueEditText(original: Bytes, target: Bytes, repl: Bytes, nfkc: Bytes -> Bytes)
    requires |Hits(LfBody(original), NormalizeToLF(target))| == 1
    ensures var lf, t, n := LfBody(original), NormalizeToLF(target), NormalizeToLF(repl);
      var p := Hits(lf, t)[0];
      && p + |t| <= |lf|
      && Edit.Edit(original, target, repl, false, nfkc)
         == Edited(BomOf(original) + (InFileStyle(original, lf[..p]) + InFileStyle(original, n) + InFileStyle(original, lf[p + |t|..])), false)
  {
    var lf, t, n := LfBody(original), NormalizeToLF(target), NormalizeToLF(repl);
    UniqueLfEdit(lf, t, n, nfkc);
    StyleConcat(original, lf[..Hits(lf, t)[0]], n, lf[Hits(lf, t)[0] + |t|..]);
  }

  lemma UniqueLfEdit(lf: Bytes, t: Bytes, n: Bytes, nfkc: Bytes -> Bytes)
    requires |Hits(lf, t)| == 1
    ensures var p := Hits(lf, t)[0];
      p + |t| <= |lf| && EditLf(lf, t, n, false, nfkc) == Edited(lf[..p] + n + lf[p + |t|..], false)
  {
    HitsFit(lf, t);
  }

  lemma AroundIff(original: Bytes, lo: nat, hi: nat)
    requires lo <= hi <= |BodyOf(original)| && Seam(BodyOf(original), hi)
    ensures var body := BodyOf(original);
      var pre := InFileStyle(original, NormalizeToLF(body[..lo]));
      var post := InFileStyle(original, NormalizeToLF(body[hi..]));
      && (Around(body, pre, post) <==> (UsesCrlf(original) ==> LfOutsideAfterCr(body, lo, hi)))
      && (Around(body, pre, post) ==> pre == body[..lo] && post == body[hi..])
  {
    var body := BodyOf(original);
    var a, c := body[..lo], body[hi..];
    if !UsesCrlf(original) {
      assert a == body[0..lo] && c == body[hi..|body|];
      PlainPart(body, 0, lo);
      PlainPart(body, hi, |body|);
    } else {
      OutsideIsBothEnds(body, lo, hi);
      RestoreAfterNormalize(a);
      RestoreAfterNormalize(c);
      RestoredAround(body, lo, hi, RestoreLineEndings(NormalizeToLF(a)), RestoreLineEndings(NormalizeToLF(c)));
    }
  }

  lemma RestoredAround(body: Bytes, lo: nat, hi: nat, pre: Bytes, post: Bytes)
    requires lo <= hi <= |body| && Seam(body, hi)
    requires pre == RestoreLineEndings(NormalizeToLF(body[..lo])) && post == RestoreLineEndings(NormalizeToLF(body[hi..]))
    ensures Around(body, pre, post) ==> LfAfterCr(body[..lo]) && LfAfterCr(body[hi..])
  {
    if Around(body, pre, post) {
      assert body == body[..lo] + body[lo..] && body == body[..hi] + body[hi..];
      RestoredPrefix(body[..lo], body[lo..]);
      RestoredSuffix(body[..hi], body[hi..]);
    }
  }

  lemma CancelPrefix(a: Bytes, b: Bytes, c: Bytes)
    ensures a + b == a + c <==> b == c
  {
    if a + b == a + c {
      assert (a + b)[|a|..] == b;
      assert (a + c)[|a|..] == c;
    }
  }

  lemma StyleRoundTrip(original: Bytes)
    ensures InFileStyle(original, LfBody(original)) == BodyOf(original)
       <==> (UsesCrlf(original) ==> LfAfterCr(BodyOf(original)))
  {
    var body := BodyOf(original);
    RestoreAfterNormalize(body);
    if !UsesCrlf(original) {
      NormalizeWithoutCrlf(body);
    }
  }

  lemma NoBom(s: Bytes)
    requires s != [] && s[0] != 0xEF
    ensures BomOf(s) == [] && BodyOf(s) == s
  {
    BomByte(s);
  }

  lemma BomByte(s: Bytes)
    ensures BOM <= s ==> s != [] && s[0] == 0xEF
  {
  }

  /** A lone LF in a CRLF file is rewritten by an edit elsewhere. */
  lemma MixedFileIsRewritten(nfkc: Bytes -> Bytes)
    ensures Edit.Edit([1, LF, 2, CR, LF, 3], [3], [4], false, nfkc) == Edited([1, CR, LF, 2, CR, LF, 4], false)
  {
    var body: Bytes := [1, LF, 2, CR, LF, 3];
    var lf, out: Bytes := [1, LF, 2, LF, 3], [1, LF, 2, LF, 4];
    NoBom(body);
    assert body[3..5] == [body[3], body[4]] == CRLF;
    assert OccursAt(body, CRLF, 3);
    IndexIsFirst(body, CRLF, 0);
    assert Contains(body, CRLF);
    MixedNormalized(body);
    NoCrNormalizes([3]);
    NoCrNormalizes([4]);
    OnlyAtEnd(lf);
    assert Splice(lf, 4, 5, [4]) == out;
    MixedRestored(out);
  }

  lemma MixedNormalized(body: Bytes)
    requires body == [1, LF, 2, CR, LF, 3]
    ensures NormalizeToLF(body) == [1, LF, 2, LF, 3]
  {
    NormalizeStep(body);
    NormalizeStep(body[1..]);
    NormalizeStep(body[2..]);
    NormalizeStep(body[3..]);
    NormalizeStep(body[5..]);
    assert body[1..][1..] == body[2..] && body[2..][1..] == body[3..] && body[3..][2..] == body[5..];
    assert body[5..][1..] == [];
  }

  lemma MixedRestored(out: Bytes)
    requires out == [1, LF, 2, LF, 4]
    ensures RestoreLineEndings(out) == [1, CR, LF, 2, CR, LF, 4]
  {
    RestoreStep(out);
    RestoreStep(out[1..]);
    RestoreStep(out[2..]);
    RestoreStep(out[3..]);
    RestoreStep(out[4..]);
    assert out[1..][1..] == out[2..] && out[2..][1..] == out[3..] && out[3..][1..] == out[4..];
    assert out[4..][1..] == [];
  }

  lemma OnlyAtEnd(lf: Bytes)
    requires lf == [1, LF, 2, LF, 3]
    ensures Hits(lf, [3]) == [4]
  {
    forall p ensures OccursAt(lf, [3], p) <==> p == 4 {
      OccursByte(lf, 3, p);
    }
    OccurrencesSkip(lf, [3], 0, 4);
    assert Occurrences(lf, [3], 5) == [];
  }

  lemma NoCrNormalizes(s: Bytes)
    requires NoCr(s)
    ensures NormalizeToLF(s) == s && !Contains(s, CRLF)
  {
    var idx := Index(s, CRLF);
    if idx != -1 {
      CrlfHasCr(s, idx);
    }
    NormalizeWithoutCrlf(s);
  }

  lemma CrlfHasCr(s: Bytes, p: nat)
    requires OccursAt(s, CRLF, p)
    ensures CR in s
  {
    assert s[p] == s[p..p + 2][0];
  }

  /** On CR-free, BOM-free text the swapped edit gives the original back iff the new text is unique in the result. */
  lemma ReverseEditIff(original: Bytes, target: Bytes, repl: Bytes, nfkc: Bytes -> Bytes)
    requires NoCr(original) && BomOf(original) == []
    requires NoCr(repl)
    requires var r := Edit.Edit(original, target, repl, false, nfkc); r.Edited? && !r.fuzzy && BomOf(r.text) == []
    ensures var r := Edit.Edit(original, target, repl, false, nfkc).text;
      Edit.Edit(r, repl, target, false, nfkc) == Edited(original, false) <==> |Hits(r, repl)| == 1
  {
    var t, p := NormalizeToLF(target), Hits(original, NormalizeToLF(target));
    var a, b := ForwardEdit(original, target, repl, nfkc);
    var r := a + repl + b;
    ResultHasNoCr(original, a, repl, b);
    NoCrNormalizes(repl);
    assert BodyOf(r) == r;
    CountDecides(r, repl, target, false, nfkc);
    if |Hits(r, repl)| == 1 {
      BackwardEdit(a, repl, b, t, nfkc);
      assert EditLf(r, repl, t, false, nfkc) == Edited(original, false);
    }
  }

  lemma ForwardEdit(original: Bytes, target: Bytes, repl: Bytes, nfkc: Bytes -> Bytes) returns (a: Bytes, b: Bytes)
    requires NoCr(original) && BomOf(original) == [] && NoCr(repl)
    requires var r := Edit.Edit(original, target, repl, false, nfkc); r.Edited? && !r.fuzzy
    ensures original == a + NormalizeToLF(target) + b
    ensures Edit.Edit(original, target, repl, false, nfkc).text == a + repl + b
  {
    var t := NormalizeToLF(target);
    NoCrNormalizes(original);
    NoCrNormalizes(repl);
    HitsFit(original, t);
    assert BodyOf(original) == original;
    var p := Hits(original, t)[0];
    a, b := original[..p], original[p + |t|..];
    assert [] + (a + repl + b) == a + repl + b;
  }

  lemma ResultHasNoCr(original: Bytes, a: Bytes, repl: Bytes, b: Bytes)
    requires NoCr(original) && NoCr(repl)
    requires exists t: Bytes :: original == a + t + b
    ensures NoCr(a + repl + b) && NormalizeToLF(a + repl + b) == a + repl + b && !Contains(a + repl + b, CRLF)
  {
    var t: Bytes :| original == a + t + b;
    assert forall x :: x in a || x in b ==> x in original;
    NoCrNormalizes(a + repl + b);
  }

  lemma BackwardEdit(a: Bytes, repl: Bytes, b: Bytes, t: Bytes, nfkc: Bytes -> Bytes)
    requires |Hits(a + repl + b, repl)| == 1
    ensures EditLf(a + repl + b, repl, t, false, nfkc) == Edited(a + t + b, false)
  {
    var r := a + repl + b;
    assert r[|a|..|a| + |repl|] == repl;
    UniqueHit(r, repl, |a|);
    assert r[..|a|] == a && r[|a| + |repl|..] == b;
  }

  lemma UniqueHit(h: Bytes, n: Bytes, p: nat)
    requires |Hits(h, n)| == 1 && OccursAt(h, n, p)
    ensures Hits(h, n)[0] == p
  {
    OccurrencesExact(h, n, 0);
    assert p in Hits(h, n);
  }

  // ----- Fuzzy spans -----

  /** b is where some character of s starts, counting from a known start i, or the end of s. */
  predicate CharStart(s: Bytes, i: nat, b: nat)
    requires i <= |s|
    decreases |s| - i
  {
    b == i || (i < |s| && CharStart(s, i + Step(s, i), b))
  }

  /** Character by character normalization of s from i to j. */
  function NormRange(s: Bytes, i: nat, j: nat, nfkc: Bytes -> Bytes): Bytes
    requires i <= |s| && CharStart(s, i, j)
    decreases |s| - i
  {
    if i == j then [] else NormChar(s, i, nfkc) + NormRange(s, i + Step(s, i), j, nfkc)
  }

  lemma {:induction false} CharStartBounds(s: Bytes, i: nat, b: nat)
    requires i <= |s| && CharStart(s, i, b)
    ensures i <= b <= |s|
    decreases |s| - i
  {
    if b != i {
      CharStartBounds(s, i + Step(s, i), b);
    }
  }

  lemma {:induction false} CharStartChain(s: Bytes, i: nat, b: nat, c: nat)
    requires i <= |s| && CharStart(s, i, b) && CharStart(s, i, c) && b <= c
    ensures b <= |s| && CharStart(s, b, c)
    decreases |s| - i
  {
    if b == i {
    } else {
      CharStartBounds(s, i + Step(s, i), b);
      CharStartChain(s, i + Step(s, i), b, c);
    }
  }

  lemma {:induction false} RangeSplits(s: Bytes, i: nat, b: nat, c: nat, nfkc: Bytes -> Bytes)
    requires i <= |s| && CharStart(s, i, b) && CharStart(s, i, c) && b <= c <= |s| && CharStart(s, b, c)
    ensures NormRange(s, i, c, nfkc) == NormRange(s, i, b, nfkc) + NormRange(s, b, c, nfkc)
    decreases |s| - i
  {
    if b == i {
    } else {
      var k := i + Step(s, i);
      CharStartBounds(s, k, b);
      RangeSplits(s, k, b, c, nfkc);
      Assoc(NormChar(s, i, nfkc), NormRange(s, k, b, nfkc), NormRange(s, b, c, nfkc));
    }
  }

  lemma {:induction false} TextIsRange(s: Bytes, i: nat, b: nat, nfkc: Bytes -> Bytes)
    requires i <= |s| && CharStart(s, i, b) && b <= |s|
    ensures NormText(s, i, nfkc) == NormRange(s, i, b, nfkc) + NormText(s, b, nfkc)
    decreases |s| - i
  {
    if b != i {
      var k := i + Step(s, i);
      TextIsRange(s, k, b, nfkc);
      Assoc(NormChar(s, i, nfkc), NormRange(s, k, b, nfkc), NormText(s, b, nfkc));
    }
  }

  /** Decoding looks no further than the character, so a cut at character starts decodes as before. */
  lemma CutKeepsStep(s: Bytes, lo: nat, hi: nat, i: nat)
    requires lo <= i < hi <= |s| && i + Step(s, i) <= hi
    ensures RuneSize(s[lo..hi], i - lo) == RuneSize(s, i)
  {
    var t := s[lo..hi];
    assert t[i - lo] == s[i];
    assert i + 1 < hi ==> t[i - lo + 1] == s[i + 1];
    assert i + 2 < hi ==> t[i - lo + 2] == s[i + 2];
    assert i + 3 < hi ==> t[i - lo + 3] == s[i + 3];
  }

  /** Normalizing a cut text alone equals its part of the whole text's character-wise normalization. */
  lemma {:induction false} CutNormalizes(s: Bytes, lo: nat, hi: nat, i: nat, nfkc: Bytes -> Bytes)
    requires lo <= i <= hi <= |s| && CharStart(s, i, hi)
    ensures NormText(s[lo..hi], i - lo, nfkc) == NormRange(s, i, hi, nfkc)
    decreases hi - i
  {
    if i < hi {
      CharStartBounds(s, i + Step(s, i), hi);
      CutKeepsChar(s, lo, hi, i, nfkc);
      CutNormalizes(s, lo, hi, i + Step(s, i), nfkc);
    }
  }

  lemma CutKeepsChar(s: Bytes, lo: nat, hi: nat, i: nat, nfkc: Bytes -> Bytes)
    requires lo <= i < hi <= |s| && i + Step(s, i) <= hi
    ensures Step(s[lo..hi], i - lo) == Step(s, i)
    ensures NormChar(s[lo..hi], i - lo, nfkc) == NormChar(s, i, nfkc)
  {
    CutKeepsStep(s, lo, hi, i);
    var w := RuneSize(s, i);
    assert s[lo..hi][i - lo..i - lo + w] == s[i..i + w];
  }

  /** Every table entry is a character start whose normalization ends at or before the position. */
  lemma {:induction false} OffsetIsCharStart(s: Bytes, i: nat, q: nat, nfkc: Bytes -> Bytes)
    requires i <= |s| && q <= |NormText(s, i, nfkc)|
    ensures var b := Offsets(s, i, nfkc)[q];
      b <= |s| && CharStart(s, i, b) && |NormRange(s, i, b, nfkc)| <= q
    decreases |s| - i
  {
    if i < |s| {
      var n := |NormChar(s, i, nfkc)|;
      if q >= n {
        OffsetIsCharStart(s, i + Step(s, i), q - n, nfkc);
      }
    }
  }

  lemma {:induction false} OffsetOfCharStart(s: Bytes, i: nat, b: nat, nfkc: Bytes -> Bytes)
    requires i <= |s| && CharStart(s, i, b) && b <= |s| && KeepsText(nfkc)
    ensures |NormRange(s, i, b, nfkc)| <= |NormText(s, i, nfkc)|
    ensures Offsets(s, i, nfkc)[|NormRange(s, i, b, nfkc)|] == b
    decreases |s| - i
  {
    if b == i {
      if i < |s| {
        assert NormChar(s, i, nfkc) != [];
      }
    } else {
      OffsetOfCharStart(s, i + Step(s, i), b, nfkc);
    }
  }

  /** Position q of the normalized text is where the normalization of some character starts (or the end). */
  ghost predicate CharBoundary(s: Bytes, q: nat, nfkc: Bytes -> Bytes) {
    exists b: nat :: b <= |s| && CharStart(s, 0, b) && |NormRange(s, 0, b, nfkc)| == q
  }

  /** For a unique fuzzy hit q the bytes cut out normalize, character by character, to exactly the searched
      text iff both ends of the hit are character boundaries of the normalized text. */
  lemma FuzzySpanIff(s: Bytes, needle: Bytes, q: nat, nfkc: Bytes -> Bytes)
    requires KeepsText(nfkc) && Hits(NormText(s, 0, nfkc), needle) == [q]
    ensures var (lo, hi) := FuzzySpan(s, needle, nfkc);
      NormText(s[lo..hi], 0, nfkc) == needle
      <==> CharBoundary(s, q, nfkc) && CharBoundary(s, q + |needle|, nfkc)
  {
    var (lo, hi) := FuzzySpan(s, needle, nfkc);
    HitsFit(NormText(s, 0, nfkc), needle);
    if NormText(s[lo..hi], 0, nfkc) == needle {
      ExactSpanHasBoundaries(s, needle, q, lo, hi, nfkc);
    } else if CharBoundary(s, q, nfkc) && CharBoundary(s, q + |needle|, nfkc) {
      WholeSpanIsNeedle(s, needle, q, lo, hi, nfkc);
    }
  }

  lemma WholeSpanIsNeedle(s: Bytes, needle: Bytes, q: nat, lo: nat, hi: nat, nfkc: Bytes -> Bytes)
    requires KeepsText(nfkc) && OccursAt(NormText(s, 0, nfkc), needle, q)
    requires lo == Offsets(s, 0, nfkc)[q] && hi == Offsets(s, 0, nfkc)[q + |needle|] && lo <= hi <= |s|
    requires CharBoundary(s, q, nfkc) && CharBoundary(s, q + |needle|, nfkc)
    ensures NormText(s[lo..hi], 0, nfkc) == needle
  {
    WholeSpanIsExact(s, q, q + |needle|, nfkc);
  }

  lemma ExactSpanHasBoundaries(s: Bytes, needle: Bytes, q: nat, lo: nat, hi: nat, nfkc: Bytes -> Bytes)
    requires Hits(NormText(s, 0, nfkc), needle) == [q] && q + |needle| <= |NormText(s, 0, nfkc)|
    requires lo == Offsets(s, 0, nfkc)[q] && hi == Offsets(s, 0, nfkc)[q + |needle|]
    requires lo <= hi <= |s| && NormText(s[lo..hi], 0, nfkc) == needle
    ensures CharBoundary(s, q, nfkc) && CharBoundary(s, q + |needle|, nfkc)
  {
    SpanNormalizes(s, q, q + |needle|, nfkc);
    UniqueHit(NormText(s, 0, nfkc), needle, |NormRange(s, 0, lo, nfkc)|);
    ExactSpanIsWhole(s, lo, hi, q, q + |needle|, nfkc);
  }

  lemma ExactSpanIsWhole(s: Bytes, lo: nat, hi: nat, q: nat, end: nat, nfkc: Bytes -> Bytes)
    requires lo <= hi <= |s| && CharStart(s, 0, lo) && CharStart(s, 0, hi)
    requires |NormRange(s, 0, lo, nfkc)| == q && |NormRange(s, 0, hi, nfkc)| == end
    ensures CharBoundary(s, q, nfkc) && CharBoundary(s, end, nfkc)
  {
  }

  lemma WholeSpanIsExact(s: Bytes, q: nat, end: nat, nfkc: Bytes -> Bytes)
    requires KeepsText(nfkc) && q <= end <= |NormText(s, 0, nfkc)|
    requires CharBoundary(s, q, nfkc) && CharBoundary(s, end, nfkc)
    ensures var lo, hi := Offsets(s, 0, nfkc)[q], Offsets(s, 0, nfkc)[end];
      lo <= hi <= |s| && NormText(s[lo..hi], 0, nfkc) == NormText(s, 0, nfkc)[q..end]
  {
    SpanNormalizes(s, q, end, nfkc);
    BoundaryOffset(s, q, nfkc);
    BoundaryOffset(s, end, nfkc);
  }

  /** The cut bytes are a run of whole characters, and their normalization is a stretch of the normalized text. */
  lemma SpanNormalizes(s: Bytes, q: nat, end: nat, nfkc: Bytes -> Bytes)
    requires q <= end <= |NormText(s, 0, nfkc)|
    ensures var lo, hi := Offsets(s, 0, nfkc)[q], Offsets(s, 0, nfkc)[end];
      && lo <= hi <= |s| && CharStart(s, 0, lo) && CharStart(s, 0, hi) && CharStart(s, lo, hi)
      && NormText(s[lo..hi], 0, nfkc) == NormRange(s, lo, hi, nfkc)
      && NormRange(s, 0, hi, nfkc) == NormRange(s, 0, lo, nfkc) + NormRange(s, lo, hi, nfkc)
      && OccursAt(NormText(s, 0, nfkc), NormRange(s, lo, hi, nfkc), |NormRange(s, 0, lo, nfkc)|)
  {
    var lo, hi := Offsets(s, 0, nfkc)[q], Offsets(s, 0, nfkc)[end];
    OffsetTable(s, 0, q, end, nfkc);
    OffsetIsCharStart(s, 0, q, nfkc);
    OffsetIsCharStart(s, 0, end, nfkc);
    CharStartChain(s, 0, lo, hi);
    RangeSplits(s, 0, lo, hi, nfkc);
    TextIsRange(s, 0, hi, nfkc);
    CutNormalizes(s, lo, hi, lo, nfkc);
    MiddleOf(NormRange(s, 0, lo, nfkc), NormRange(s, lo, hi, nfkc), NormText(s, hi, nfkc));
  }

  lemma BoundaryOffset(s: Bytes, q: nat, nfkc: Bytes -> Bytes)
    requires KeepsText(nfkc) && CharBoundary(s, q, nfkc)
    ensures q <= |NormText(s, 0, nfkc)|
    ensures var b := Offsets(s, 0, nfkc)[q];
      b <= |s| && CharStart(s, 0, b) && |NormRange(s, 0, b, nfkc)| == q
  {
    var b: nat :| b <= |s| && CharStart(s, 0, b) && |NormRange(s, 0, b, nfkc)| == q;
    OffsetOfCharStart(s, 0, b, nfkc);
  }

  lemma MiddleOf(a: Bytes, b: Bytes, c: Bytes)
    ensures (a + b + c)[|a|..|a| + |b|] == b
  {
  }

  /** U+338F normalizes to the two letters "kg". */
  function KgOnly(c: Bytes): Bytes {
    if c == [0xE3, 0x8E, 0x8F] then [107, 103] else c
  }

  /** A hit on half a character cuts nothing: the new text is inserted before it. */
  lemma HalfCharacterHitInserts()
    ensures Edit.Edit([0xE3, 0x8E, 0x8F], [107], [88], false, KgOnly) == Edited([88, 0xE3, 0x8E, 0x8F], true)
  {
    var s: Bytes := [0xE3, 0x8E, 0x8F];
    var text: Bytes := [107, 103];
    NoBom(s);
    NoCrNormalizes(s);
    NoCrNormalizes([107]);
    NoCrNormalizes([88]);
    forall p ensures !OccursAt(s, [107], p) {
      OccursByte(s, 107, p);
    }
    OccurrencesSkip(s, [107], 0, 3);
    OccursByte(text, 107, 0);
    OccursByte(text, 107, 1);
    assert RuneSize(s, 0) == 3 && s[0..3] == s;
    assert NormChar(s, 0, KgOnly) == text;
    assert NormText(s, 3, KgOnly) == [];
    assert NormText(s, 0, KgOnly) == text;
    assert Offsets(s, 0, KgOnly) == [0, 0, 3];
    assert Hits(text, [107]) == [0] + Occurrences(text, [107], 1);
    assert Occurrences(text, [107], 1) == Occurrences(text, [107], 2) == [];
    assert Splice(s, 0, 0, [88]) == [88, 0xE3, 0x8E, 0x8F];
  }
}
