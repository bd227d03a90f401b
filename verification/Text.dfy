/** Text as characters: trimming, role folding and the token estimate of app/agentcore/compact.go. */
module Text {

  predicate IsSpace(c: char) {
    '\t' <= c <= '\r' || c == ' ' || c == '\U{85}' || c == '\U{A0}' || c == '\U{1680}' || '\U{2000}' <= c <= '\U{200A}'
    || c == '\U{2028}' || c == '\U{2029}' || c == '\U{202F}' || c == '\U{205F}' || c == '\U{3000}'
  }

  function TrimLeft(s: string): string {
    if s != "" && IsSpace(s[0]) then TrimLeft(s[1..]) else s
  }

  function TrimRight(s: string): string {
    if s != "" && IsSpace(s[|s| - 1]) then TrimRight(s[..|s| - 1]) else s
  }

  function TrimSpace(s: string): string {
    TrimRight(TrimLeft(s))
  }

  /** Lower case as far as it reaches ASCII letters; other letters fold to non-ASCII and never match a role. */
  function LowerChar(c: char): char {
    if 'A' <= c <= 'Z' then c - 'A' + 'a'
    else if c == '\U{130}' then 'i'
    else if c == '\U{212A}' then 'k'
    else c
  }

  function ToLower(s: string): string {
    seq(|s|, i requires 0 <= i < |s| => LowerChar(s[i]))
  }

  /** ASCII letters lose their capitals, and other ASCII characters stay as they are. */
  lemma LowerFoldsAscii(s: string, i: nat)
    requires i < |s|
    ensures |ToLower(s)| == |s| && !('A' <= ToLower(s)[i] <= 'Z')
    ensures s[i] < '\U{80}' && !('A' <= s[i] <= 'Z') ==> ToLower(s)[i] == s[i]
    ensures 'A' <= s[i] <= 'Z' ==> ToLower(s)[i] as int == s[i] as int + 32
  {
  }

  function IsWide(c: char): nat {
    if c < '\U{80}' then 0 else 1
  }

  function Wide(s: string): nat {
    if s == "" then 0 else IsWide(s[0]) + Wide(s[1..])
  }

  /** ASCII counts four characters to the token, rounded up; every other character counts one. */
  function TextTokens(s: string): nat {
    Narrow(s); (|s| - Wide(s) + 3) / 4 + Wide(s)
  }

  lemma {:induction false} Narrow(s: string)
    ensures Wide(s) <= |s|
  {
    if s != "" {
      Narrow(s[1..]);
    }
  }

  /** Four ASCII characters to the token, rounded up; any other character is one. */
  lemma TokensOfOneKind(s: string)
    ensures (forall i :: 0 <= i < |s| ==> s[i] < '\U{80}') ==> TextTokens(s) == (|s| + 3) / 4
    ensures (forall i :: 0 <= i < |s| ==> s[i] >= '\U{80}') ==> TextTokens(s) == |s|
    ensures |s| <= 4 * TextTokens(s) && TextTokens(s) <= |s|
  {
    Narrow(s);
    WideOfOneKind(s);
  }

  lemma {:induction false} WideOfOneKind(s: string)
    ensures (forall i :: 0 <= i < |s| ==> s[i] < '\U{80}') ==> Wide(s) == 0
    ensures (forall i :: 0 <= i < |s| ==> s[i] >= '\U{80}') ==> Wide(s) == |s|
  {
    if s != "" {
      WideOfOneKind(s[1..]);
      assert forall i :: 0 <= i < |s| - 1 ==> s[1..][i] == s[i + 1];
    }
  }

  lemma {:induction false} WideConcat(a: string, b: string)
    ensures Wide(a + b) == Wide(a) + Wide(b)
  {
    if a == "" {
      assert a + b == b;
    } else {
      assert (a + b)[1..] == a[1..] + b;
      WideConcat(a[1..], b);
    }
  }

  /** The estimate is subadditive, monotone in both parts, and rounding loses at most one token. */
  lemma TokensConcat(a: string, b: string)
    ensures TextTokens(a + b) <= TextTokens(a) + TextTokens(b)
    ensures TextTokens(a) <= TextTokens(a + b) && TextTokens(b) <= TextTokens(a + b)
    ensures TextTokens(a) + TextTokens(b) <= TextTokens(a + b) + 1
  {
    WideConcat(a, b);
    Narrow(a);
    Narrow(b);
  }

  lemma {:induction false} TrimLeftIsDrop(s: string)
    ensures exists a: string :: s == a + TrimLeft(s)
  {
    if s != "" && IsSpace(s[0]) {
      TrimLeftIsDrop(s[1..]);
      var a: string :| s[1..] == a + TrimLeft(s[1..]);
      assert s == ([s[0]] + a) + TrimLeft(s);
    } else {
      assert s == "" + TrimLeft(s);
    }
  }

  lemma {:induction false} TrimRightIsTake(s: string)
    ensures exists b: string :: s == TrimRight(s) + b
  {
    if s != "" && IsSpace(s[|s| - 1]) {
      var t := s[..|s| - 1];
      TrimRightIsTake(t);
      var b: string :| t == TrimRight(t) + b;
      assert s == TrimRight(s) + (b + [s[|s| - 1]]);
    } else {
      assert s == TrimRight(s) + "";
    }
  }

  lemma TrimCostsNoMore(s: string)
    ensures TextTokens(TrimSpace(s)) <= TextTokens(s)
  {
    var l := TrimLeft(s);
    TrimLeftIsDrop(s);
    var a: string :| s == a + l;
    TokensConcat(a, l);
    TrimRightIsTake(l);
    var b: string :| l == TrimRight(l) + b;
    TokensConcat(TrimRight(l), b);
  }

  // ----- Parts of a text -----

  predicate PartAt(part: string, s: string, i: int) {
    0 <= i <= i + |part| <= |s| && s[i..i + |part|] == part
  }

  predicate Within(part: string, s: string) {
    exists i :: 0 <= i <= |s| && PartAt(part, s, i)
  }

  lemma WithinConcat(a: string, part: string, b: string)
    ensures Within(part, a + part + b)
  {
    var s := a + part + b;
    assert s[|a|..|a| + |part|] == part;
    assert PartAt(part, s, |a|);
  }

  /** A part splits the text around it. */
  lemma SplitAround(part: string, s: string) returns (a: string, b: string)
    requires Within(part, s)
    ensures s == a + part + b
  {
    var i :| 0 <= i <= |s| && PartAt(part, s, i);
    a, b := s[..i], s[i + |part|..];
  }

  lemma WithinWider(part: string, s: string, a: string, b: string)
    requires Within(part, s)
    ensures Within(part, a + s + b)
  {
    var c, d := SplitAround(part, s);
    assert a + s + b == (a + c) + part + (d + b);
    WithinConcat(a + c, part, d + b);
  }

  /** Text that neither begins nor ends in space. */
  predicate Solid(s: string) {
    s != "" && !IsSpace(s[0]) && !IsSpace(s[|s| - 1])
  }

  lemma {:induction false} TrimLeftBefore(a: string, s: string) returns (b: string)
    requires s != "" && !IsSpace(s[0])
    ensures TrimLeft(a + s) == b + s
  {
    if a == "" {
      b := "";
      assert a + s == s;
    } else if IsSpace(a[0]) {
      assert (a + s)[1..] == a[1..] + s;
      b := TrimLeftBefore(a[1..], s);
    } else {
      b := a;
    }
  }

  lemma {:induction false} TrimRightAfter(s: string, a: string) returns (b: string)
    requires s != "" && !IsSpace(s[|s| - 1])
    ensures TrimRight(s + a) == s + b
  {
    if a == "" {
      b := "";
      assert s + a == s;
    } else if IsSpace(a[|a| - 1]) {
      assert (s + a)[..|s + a| - 1] == s + a[..|a| - 1];
      b := TrimRightAfter(s, a[..|a| - 1]);
    } else {
      b := a;
    }
  }

  /** Trimming cuts nothing out of a part that neither begins nor ends in space. */
  lemma TrimKeepsPart(part: string, s: string)
    requires Solid(part) && Within(part, s)
    ensures Within(part, TrimSpace(s))
  {
    var a, b := SplitAround(part, s);
    assert s == a + (part + b);
    var c := TrimLeftBefore(a, part + b);
    assert TrimLeft(s) == (c + part) + b;
    var d := TrimRightAfter(c + part, b);
    WithinConcat(c, part, d);
  }

  lemma {:induction false} TrimLeftSolid(s: string)
    ensures TrimLeft(s) != "" ==> !IsSpace(TrimLeft(s)[0])
  {
    if s != "" && IsSpace(s[0]) {
      TrimLeftSolid(s[1..]);
    }
  }

  lemma {:induction false} TrimRightSolid(s: string)
    ensures TrimRight(s) != "" ==> !IsSpace(TrimRight(s)[|TrimRight(s)| - 1]) && TrimRight(s)[0] == s[0]
  {
    if s != "" && IsSpace(s[|s| - 1]) {
      TrimRightSolid(s[..|s| - 1]);
    }
  }

  /** What is left after trimming is nothing or solid, and trimming it again changes nothing. */
  lemma TrimmedIsSolid(s: string)
    ensures TrimSpace(s) != "" ==> Solid(TrimSpace(s))
    ensures TrimSpace(TrimSpace(s)) == TrimSpace(s)
  {
    TrimLeftSolid(s);
    TrimRightSolid(TrimLeft(s));
  }

  /** The estimating loop over characters. */
  method EstimateText(s: string) returns (tokens: nat)
    ensures tokens == TextTokens(s)
  {
    var ascii, wide := 0, 0;
    for i := 0 to |s|
      invariant wide + Wide(s[i..]) == Wide(s)
      invariant ascii + wide == i
    {
      assert s[i..][1..] == s[i + 1..];
      if s[i] < '\U{80}' {
        ascii := ascii + 1;
      } else {
        wide := wide + 1;
      }
    }
    tokens := (ascii + 3) / 4 + wide;
  }
}
