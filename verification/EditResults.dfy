/** What an edit leaves in the file, in terms of the file's own text (app/agentcore/tools_write.go). */
module EditResults {
  import opened ByteStrings
  import opened Edit
  import opened EditProperties

  // ----- Replacing all -----

  /** Replacing all cuts the file's text into pieces at the old text, none of which still holds it, and puts the new text
      between them. */
  lemma ReplaceAllEdit(original: Bytes, target: Bytes, repl: Bytes, nfkc: Bytes -> Bytes) returns (pieces: seq<Bytes>)
    requires Occurs(LfBody(original), NormalizeToLF(target))
    ensures |pieces| > 1 && Join(pieces, NormalizeToLF(target)) == LfBody(original)
    ensures forall k :: 0 <= k < |pieces| ==> !Contains(pieces[k], NormalizeToLF(target))
    ensures Edit.Edit(original, target, repl, true, nfkc)
         == Edited(BomOf(original) + InFileStyle(original, Join(pieces, NormalizeToLF(repl))), false)
  {
    var lf, t := LfBody(original), NormalizeToLF(target);
    CountOccurrences(lf, t);
    pieces := Split(lf, t);
    ReplaceIsSplitJoin(lf, t, NormalizeToLF(repl));
    var p :| OccursAt(lf, t, p);
    IndexIsFirst(lf, t, 0);
    assert Index(lf, t) != -1;
  }

  // ----- When an edit is fuzzy -----

  /** Only a text that does not occur is matched fuzzily; the edit is refused as not found or ambiguous by how often its
      normal form occurs in the normal form of the file's text. */
  lemma FuzzyEditIff(original: Bytes, target: Bytes, repl: Bytes, replaceAll: bool, nfkc: Bytes -> Bytes)
    ensures var r := Edit.Edit(original, target, repl, replaceAll, nfkc);
      var lf, t := LfBody(original), NormalizeToLF(target);
      var text, needle := NormText(lf, 0, nfkc), nfkc(t);
      && (r.NotFound? <==> !Occurs(lf, t) && !Occurs(text, needle))
      && (r.AmbiguousFuzzy? <==> !Occurs(lf, t) && OccursTwice(text, needle))
      && (r.AmbiguousFuzzy? ==> r.count == |Occurrences(text, needle, 0)|)
      && ((r.Edited? && r.fuzzy) <==> !Occurs(lf, t) && Occurs(text, needle) && !OccursTwice(text, needle))
  {
    var lf, t := LfBody(original), NormalizeToLF(target);
    CountOccurrences(lf, t);
    CountOccurrences(NormText(lf, 0, nfkc), nfkc(t));
    FuzzyDecides(original, target, repl, replaceAll, nfkc);
  }

  lemma FuzzyDecides(original: Bytes, target: Bytes, repl: Bytes, replaceAll: bool, nfkc: Bytes -> Bytes)
    ensures var r := Edit.Edit(original, target, repl, replaceAll, nfkc);
      var lf, t := LfBody(original), NormalizeToLF(target);
      var exact, n := Hits(lf, t) != [], |Hits(NormText(lf, 0, nfkc), nfkc(t))|;
      && (r.NotFound? <==> !exact && n == 0)
      && (r.AmbiguousFuzzy? <==> !exact && n > 1) && (r.AmbiguousFuzzy? ==> r.count == n)
      && ((r.Edited? && r.fuzzy) <==> !exact && n == 1)
  {
  }

  /** Where normalizing changes no character, the normal form of a text is the text, invalid bytes included. */
  lemma {:induction false} NormalFormKeeps(s: Bytes, i: nat, nfkc: Bytes -> Bytes)
    requires i <= |s| && forall c :: nfkc(c) == c
    ensures NormText(s, i, nfkc) == s[i..]
    decreases |s| - i
  {
    if i < |s| {
      var k := i + Step(s, i);
      NormalFormKeeps(s, k, nfkc);
      CharacterKept(s, i, nfkc);
      KeptFrom(s, i, k, nfkc);
    }
  }

  lemma KeptFrom(s: Bytes, i: nat, k: nat, nfkc: Bytes -> Bytes)
    requires i < |s| && k == i + Step(s, i) && NormChar(s, i, nfkc) == s[i..k] && NormText(s, k, nfkc) == s[k..]
    ensures NormText(s, i, nfkc) == s[i..]
  {
    assert s[i..] == s[i..k] + s[k..];
  }

  lemma CharacterKept(s: Bytes, i: nat, nfkc: Bytes -> Bytes)
    requires i < |s| && forall c :: nfkc(c) == c
    ensures NormChar(s, i, nfkc) == s[i..i + Step(s, i)]
  {
  }

  // ----- What a fuzzy edit cuts -----

  /** Counting from a character start i: b is where the character starts that position q of the normal form comes from. */
  predicate MapsFrom(s: Bytes, i: nat, q: nat, b: nat, nfkc: Bytes -> Bytes)
    requires i <= |s|
  {
    b <= |s| && CharStart(s, i, b) && |NormRange(s, i, b, nfkc)| <= q
    && (b < |s| ==> q < |NormRange(s, i, b, nfkc)| + |NormChar(s, b, nfkc)|)
  }

  predicate Maps(s: Bytes, q: nat, b: nat, nfkc: Bytes -> Bytes) {
    MapsFrom(s, 0, q, b, nfkc)
  }

  lemma MapsLater(s: Bytes, i: nat, q: nat, b: nat, nfkc: Bytes -> Bytes)
    requires i < |s| && q >= |NormChar(s, i, nfkc)| && MapsFrom(s, i + Step(s, i), q - |NormChar(s, i, nfkc)|, b, nfkc)
    ensures MapsFrom(s, i, q, b, nfkc)
  {
    CharStartBounds(s, i + Step(s, i), b);
  }

  lemma {:induction false} OffsetAtMaps(s: Bytes, i: nat, q: nat, nfkc: Bytes -> Bytes)
    requires i <= |s| && q <= |NormText(s, i, nfkc)|
    ensures MapsFrom(s, i, q, OffsetAt(s, i, q, nfkc), nfkc)
    decreases |s| - i
  {
    if i < |s| && q >= |NormChar(s, i, nfkc)| {
      var next, rest := i + Step(s, i), q - |NormChar(s, i, nfkc)|;
      OffsetAtMaps(s, next, rest, nfkc);
      MapsLater(s, i, q, OffsetAt(s, next, rest, nfkc), nfkc);
    }
  }

  lemma OffsetMaps(s: Bytes, q: nat, nfkc: Bytes -> Bytes)
    requires q <= |NormText(s, 0, nfkc)|
    ensures Maps(s, q, Offsets(s, 0, nfkc)[q], nfkc)
  {
    OffsetsAt(s, 0, q, nfkc);
    OffsetAtMaps(s, 0, q, nfkc);
  }

  function HitEnd(q: nat, needle: Bytes): nat {
    q + |needle|
  }

  /** A fuzzy edit whose normal form is hit at q alone cuts the file's text in three: it keeps what stands before the
      character in which the hit begins and what stands from the character on in which it ends, and puts the new text in
      between. */
  lemma FuzzyEditCuts(original: Bytes, target: Bytes, repl: Bytes, replaceAll: bool, q: nat, nfkc: Bytes -> Bytes)
    returns (pre: Bytes, mid: Bytes, post: Bytes)
    requires !Occurs(LfBody(original), NormalizeToLF(target))
    requires var text, needle := NormText(LfBody(original), 0, nfkc), nfkc(NormalizeToLF(target));
      needle != [] && OccursAt(text, needle, q) && !OccursTwice(text, needle)
    ensures LfBody(original) == pre + mid + post
    ensures Maps(LfBody(original), q, |pre|, nfkc)
    ensures Maps(LfBody(original), HitEnd(q, nfkc(NormalizeToLF(target))), |pre + mid|, nfkc)
    ensures Edit.Edit(original, target, repl, replaceAll, nfkc)
         == Edited(BomOf(original) + InFileStyle(original, pre + NormalizeToLF(repl) + post), true)
  {
    var lf, needle := LfBody(original), nfkc(NormalizeToLF(target));
    NoHits(lf, NormalizeToLF(target));
    OneHit(NormText(lf, 0, nfkc), needle, q);
    pre, mid, post := ThreeParts(lf, q, HitEnd(q, needle), nfkc);
    FuzzyText(original, target, repl, replaceAll, q, nfkc);
  }

  lemma NoHits(text: Bytes, needle: Bytes)
    requires !Occurs(text, needle)
    ensures Hits(text, needle) == []
  {
    CountOccurrences(text, needle);
  }

  lemma OneHit(text: Bytes, needle: Bytes, q: nat)
    requires needle != [] && OccursAt(text, needle, q) && !OccursTwice(text, needle)
    ensures |Hits(text, needle)| == 1 && Hits(text, needle)[0] == q && HitEnd(q, needle) <= |text|
  {
    CountOccurrences(text, needle);
    assert Occurs(text, needle);
    UniqueHit(text, needle, q);
  }

  lemma ThreeParts(s: Bytes, q: nat, end: nat, nfkc: Bytes -> Bytes) returns (pre: Bytes, mid: Bytes, post: Bytes)
    requires q <= end <= |NormText(s, 0, nfkc)|
    ensures var lo, hi := Offsets(s, 0, nfkc)[q], Offsets(s, 0, nfkc)[end];
      lo <= hi <= |s| && pre == s[..lo] && mid == s[lo..hi] && post == s[hi..]
    ensures s == pre + mid + post && Maps(s, q, |pre|, nfkc) && Maps(s, end, |pre + mid|, nfkc)
  {
    var lo, hi := Offsets(s, 0, nfkc)[q], Offsets(s, 0, nfkc)[end];
    OffsetTable(s, 0, q, end, nfkc);
    OffsetMaps(s, q, nfkc);
    OffsetMaps(s, end, nfkc);
    pre, mid, post := CutAt(s, lo, hi);
  }

  lemma CutAt(s: Bytes, lo: nat, hi: nat) returns (pre: Bytes, mid: Bytes, post: Bytes)
    requires lo <= hi <= |s|
    ensures pre == s[..lo] && mid == s[lo..hi] && post == s[hi..]
    ensures s == pre + mid + post && |pre| == lo && |pre + mid| == hi
  {
    pre, mid, post := s[..lo], s[lo..hi], s[hi..];
  }

  lemma FuzzyText(original: Bytes, target: Bytes, repl: Bytes, replaceAll: bool, q: nat, nfkc: Bytes -> Bytes)
    requires var lf, t := LfBody(original), NormalizeToLF(target);
      Hits(lf, t) == [] && |Hits(NormText(lf, 0, nfkc), nfkc(t))| == 1 && Hits(NormText(lf, 0, nfkc), nfkc(t))[0] == q
      && HitEnd(q, nfkc(t)) <= |NormText(lf, 0, nfkc)|
    ensures var lf, n := LfBody(original), NormalizeToLF(repl);
      var lo, hi := Offsets(lf, 0, nfkc)[q], Offsets(lf, 0, nfkc)[HitEnd(q, nfkc(NormalizeToLF(target)))];
      && lo <= hi <= |lf|
      && Edit.Edit(original, target, repl, replaceAll, nfkc)
         == Edited(BomOf(original) + InFileStyle(original, lf[..lo] + n + lf[hi..]), true)
  {
    var lf := LfBody(original);
    OffsetTable(lf, 0, q, q + |nfkc(NormalizeToLF(target))|, nfkc);
  }

  /** When the hit begins and ends with whole characters, what is kept before it normalizes to what stands before the hit,
      and what is cut out normalizes to the normal form of the old text. */
  lemma WholeCharactersAreCut(original: Bytes, target: Bytes, repl: Bytes, replaceAll: bool, q: nat, nfkc: Bytes -> Bytes)
    returns (pre: Bytes, mid: Bytes, post: Bytes)
    requires KeepsText(nfkc) && !Occurs(LfBody(original), NormalizeToLF(target))
    requires var text, needle := NormText(LfBody(original), 0, nfkc), nfkc(NormalizeToLF(target));
      needle != [] && OccursAt(text, needle, q) && !OccursTwice(text, needle)
      && CharBoundary(LfBody(original), q, nfkc) && CharBoundary(LfBody(original), q + |needle|, nfkc)
    ensures LfBody(original) == pre + mid + post
    ensures |NormText(pre, 0, nfkc)| == q && NormText(mid, 0, nfkc) == nfkc(NormalizeToLF(target))
    ensures Edit.Edit(original, target, repl, replaceAll, nfkc)
         == Edited(BomOf(original) + InFileStyle(original, pre + NormalizeToLF(repl) + post), true)
  {
    var lf, needle := LfBody(original), nfkc(NormalizeToLF(target));
    pre, mid, post := FuzzyEditCuts(original, target, repl, replaceAll, q, nfkc);
    MapsWhole(lf, q, |pre|, nfkc);
    MapsWhole(lf, q + |needle|, |pre + mid|, nfkc);
    CutParts(lf, pre, mid, post, nfkc);
    PartIsHit(NormText(lf, 0, nfkc), NormText(pre, 0, nfkc), NormText(mid, 0, nfkc), q, needle);
  }

  lemma PartIsHit(text: Bytes, a: Bytes, b: Bytes, q: nat, needle: Bytes)
    requires a + b <= text && |a| == q && |a + b| == q + |needle| && OccursAt(text, needle, q)
    ensures b == needle
  {
    assert text[q..q + |needle|] == (a + b)[q..] == b;
  }

  /** On a boundary the mapping is exact. */
  lemma MapsWhole(s: Bytes, q: nat, b: nat, nfkc: Bytes -> Bytes)
    requires KeepsText(nfkc) && Maps(s, q, b, nfkc) && CharBoundary(s, q, nfkc)
    ensures |NormRange(s, 0, b, nfkc)| == q
  {
    var c: nat :| c <= |s| && CharStart(s, 0, c) && |NormRange(s, 0, c, nfkc)| == q;
    if b < c {
      LaterStartIsFurther(s, b, c, nfkc);
    } else if c < b {
      LaterStartIsFurther(s, c, b, nfkc);
      CharKept(s, c, nfkc);
    }
  }

  /** Up to a later character's start at least one character more is normalized. */
  lemma LaterStartIsFurther(s: Bytes, b: nat, c: nat, nfkc: Bytes -> Bytes)
    requires b < c <= |s| && CharStart(s, 0, b) && CharStart(s, 0, c)
    ensures |NormRange(s, 0, c, nfkc)| >= |NormRange(s, 0, b, nfkc)| + |NormChar(s, b, nfkc)|
  {
    CharStartChain(s, 0, b, c);
    RangeSplits(s, 0, b, c, nfkc);
    assert NormRange(s, b, c, nfkc) == NormChar(s, b, nfkc) + NormRange(s, b + Step(s, b), c, nfkc);
  }

  lemma CharKept(s: Bytes, i: nat, nfkc: Bytes -> Bytes)
    requires KeepsText(nfkc) && i < |s|
    ensures NormChar(s, i, nfkc) != []
  {
  }

  /** A text cut at character starts normalizes part by part. */
  lemma CutParts(s: Bytes, pre: Bytes, mid: Bytes, post: Bytes, nfkc: Bytes -> Bytes)
    requires s == pre + mid + post && CharStart(s, 0, |pre|) && CharStart(s, 0, |pre + mid|)
    ensures NormText(pre, 0, nfkc) == NormRange(s, 0, |pre|, nfkc)
    ensures NormRange(s, 0, |pre + mid|, nfkc) == NormText(pre, 0, nfkc) + NormText(mid, 0, nfkc)
    ensures NormText(pre, 0, nfkc) + NormText(mid, 0, nfkc) <= NormText(s, 0, nfkc)
  {
    var lo, hi := |pre|, |pre + mid|;
    assert s[0..lo] == pre;
    assert s[lo..hi] == mid;
    CutNormalizes(s, 0, lo, 0, nfkc);
    CharStartChain(s, 0, lo, hi);
    CutNormalizes(s, lo, hi, lo, nfkc);
    RangeSplits(s, 0, lo, hi, nfkc);
    TextIsRange(s, 0, hi, nfkc);
  }
}
