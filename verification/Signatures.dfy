/** When two turns' tool calls count as identical (app/agentcore/loop.go, toolCallSignature). */
module Signatures {
  import opened Messages
  import opened Agent

  /** Free of both separators, as every text that json.Marshal writes is. */
  predicate Plain(s: string) {
    UNIT_SEPARATOR !in s && RECORD_SEPARATOR !in s
  }

  /** A name in which a unit separator is followed, later on, by a record separator. */
  predicate Splittable(name: string) {
    exists i, j :: 0 <= i < j < |name| && name[i] == UNIT_SEPARATOR && name[j] == RECORD_SEPARATOR
  }

  predicate PlainInputs(uses: seq<Block>) {
    forall i :: 0 <= i < |uses| ==> Plain(uses[i].input)
  }

  predicate NoneSplittable(uses: seq<Block>) {
    forall i :: 0 <= i < |uses| ==> !Splittable(uses[i].name)
  }

  predicate SameCalls(a: seq<Block>, b: seq<Block>) {
    |a| == |b| && forall i :: 0 <= i < |a| ==> a[i].name == b[i].name && a[i].input == b[i].input
  }

  /** One call's part of a signature. */
  function CallRecord(name: string, input: string): string {
    name + [UNIT_SEPARATOR] + input + [RECORD_SEPARATOR]
  }

  lemma SignatureStep(uses: seq<Block>)
    requires uses != []
    ensures Signature(uses) == CallRecord(uses[0].name, uses[0].input) + Signature(uses[1..])
  {
  }

  /** Where a longer text begins with a record, the record's separators fall inside the longer text's name. */
  lemma ShorterRecordSplits(n: string, i: string, x: string, m: string, j: string, y: string)
    requires Plain(i) && Plain(j) && CallRecord(n, i) + x == CallRecord(m, j) + y
    requires |CallRecord(n, i)| < |CallRecord(m, j)|
    ensures Splittable(m)
  {
    var w := CallRecord(n, i) + x;
    var u, q := |n|, |n| + 1 + |i|;
    assert w[u] == UNIT_SEPARATOR && w[q] == RECORD_SEPARATOR;
    RecordAt(m, j, y, q);
    RecordAt(m, j, y, u);
    assert m[u] == UNIT_SEPARATOR && m[q] == RECORD_SEPARATOR;
  }

  /** A record separator inside a record, before its end, is in the name. */
  lemma RecordAt(m: string, j: string, y: string, q: nat)
    requires q < |CallRecord(m, j)|
    ensures (CallRecord(m, j) + y)[q]
         == if q < |m| then m[q]
            else if q == |m| then UNIT_SEPARATOR
            else if q <= |m| + |j| then j[q - |m| - 1]
            else RECORD_SEPARATOR
  {
  }

  /** A unit separator inside a record ends its name or is in it. */
  lemma UnitInRecord(m: string, j: string, q: nat)
    requires Plain(j) && q < |CallRecord(m, j)| && CallRecord(m, j)[q] == UNIT_SEPARATOR
    ensures q <= |m|
  {
    RecordAt(m, j, "", q);
    assert CallRecord(m, j) + "" == CallRecord(m, j);
  }

  lemma LongerUnits(n: string, i: string, m: string, j: string)
    requires Plain(i) && Plain(j) && CallRecord(n, i) == CallRecord(m, j)
    ensures |n| >= |m|
  {
    assert CallRecord(m, j)[|m|] == UNIT_SEPARATOR;
    UnitInRecord(n, i, |m|);
  }

  lemma SameRecord(n: string, i: string, m: string, j: string)
    requires Plain(i) && Plain(j) && CallRecord(n, i) == CallRecord(m, j)
    ensures n == m && i == j
  {
    LongerUnits(n, i, m, j);
    LongerUnits(m, j, n, i);
    assert CallRecord(n, i)[..|n|] == n && CallRecord(m, j)[..|m|] == m;
    assert CallRecord(n, i)[|n| + 1..|n| + 1 + |i|] == i && CallRecord(m, j)[|m| + 1..|m| + 1 + |j|] == j;
  }

  /** Two signatures that agree begin with the same call, unless a name on one side can be split. */
  lemma SameHead(n: string, i: string, x: string, m: string, j: string, y: string)
    requires Plain(i) && Plain(j) && CallRecord(n, i) + x == CallRecord(m, j) + y
    requires !Splittable(n) && !Splittable(m)
    ensures n == m && i == j && x == y
  {
    if |CallRecord(n, i)| < |CallRecord(m, j)| {
      ShorterRecordSplits(n, i, x, m, j, y);
    } else if |CallRecord(m, j)| < |CallRecord(n, i)| {
      ShorterRecordSplits(m, j, y, n, i, x);
    } else {
      var w, k := CallRecord(n, i) + x, |CallRecord(n, i)|;
      assert w[..k] == CallRecord(n, i) && w[k..] == x;
      assert (CallRecord(m, j) + y)[..k] == CallRecord(m, j) && (CallRecord(m, j) + y)[k..] == y;
      SameRecord(n, i, m, j);
    }
  }

  /** Among lists without a splittable name signatures agree exactly when the names and arguments do. */
  lemma {:induction false} SignatureIff(a: seq<Block>, b: seq<Block>)
    requires PlainInputs(a) && PlainInputs(b) && NoneSplittable(a) && NoneSplittable(b)
    ensures Signature(a) == Signature(b) <==> SameCalls(a, b)
  {
    if a == [] || b == [] {
      assert a != [] ==> |Signature(a)| > 0;
      assert b != [] ==> |Signature(b)| > 0;
    } else {
      SignatureIff(a[1..], b[1..]);
      SignatureStep(a);
      SignatureStep(b);
      if Signature(a) == Signature(b) {
        SameHead(a[0].name, a[0].input, Signature(a[1..]), b[0].name, b[0].input, Signature(b[1..]));
      }
      SameCallsStep(a, b);
    }
  }

  lemma SameCallsStep(a: seq<Block>, b: seq<Block>)
    requires a != [] && b != []
    ensures SameCalls(a, b) <==> a[0].name == b[0].name && a[0].input == b[0].input && SameCalls(a[1..], b[1..])
  {
    assert forall i :: 1 <= i < |a| ==> a[i] == a[1..][i - 1];
    assert forall i :: 1 <= i < |b| ==> b[i] == b[1..][i - 1];
    assert forall i :: 0 <= i < |a| - 1 ==> a[1..][i] == a[i + 1];
    assert forall i :: 0 <= i < |b| - 1 ==> b[1..][i] == b[i + 1];
  }

  /** Another list of calls, its arguments plain too, with the same signature. */
  ghost predicate HasTwin(a: seq<Block>) {
    exists b :: PlainInputs(b) && Signature(b) == Signature(a) && !SameCalls(b, a)
  }

  /** A list of calls can be confused with another exactly when it has more than one call, or its one call's name can
      be split. */
  lemma TwinIff(a: seq<Block>)
    requires PlainInputs(a)
    ensures HasTwin(a) <==> |a| > 1 || (|a| == 1 && Splittable(a[0].name))
  {
    if |a| > 1 {
      MergeNames(a);
    } else if |a| == 1 {
      assert a == [a[0]];
      OneTwinIff(a[0]);
    } else {
      forall b: seq<Block> | Signature(b) == "" ensures b == [] {
        EmptySignature(b);
      }
    }
  }

  /** One call whose name swallows the call before it. */
  function Merged(first: Block, second: Block): Block {
    second.(name := CallRecord(first.name, first.input) + second.name)
  }

  lemma MergeNames(a: seq<Block>)
    requires PlainInputs(a) && |a| > 1
    ensures HasTwin(a)
  {
    var m := Merged(a[0], a[1]);
    var b := [m] + a[2..];
    SignatureStep(a);
    SignatureStep(a[1..]);
    SignatureStep(b);
    assert a[1..][1..] == a[2..] && b[1..] == a[2..];
    RecordsJoin(a[0], a[1]);
    var x, y, z := CallRecord(a[0].name, a[0].input), CallRecord(a[1].name, a[1].input), Signature(a[2..]);
    assert (x + y) + z == x + (y + z);
    assert |b| != |a| && PlainInputs(b);
  }

  lemma RecordsJoin(first: Block, second: Block)
    ensures var m := Merged(first, second);
      CallRecord(m.name, m.input) == CallRecord(first.name, first.input) + CallRecord(second.name, second.input)
  {
  }

  lemma OneTwinIff(call: Block)
    requires Plain(call.input)
    ensures HasTwin([call]) <==> Splittable(call.name)
  {
    if Splittable(call.name) {
      SplitName(call);
    } else if HasTwin([call]) {
      var b :| PlainInputs(b) && Signature(b) == Signature([call]) && !SameCalls(b, [call]);
      OnlyOneReading(call, b);
    }
  }

  lemma OneSignature(call: Block)
    ensures Signature([call]) == CallRecord(call.name, call.input)
  {
    SignatureStep([call]);
    assert [call][1..] == [];
    assert Signature([]) == "" && CallRecord(call.name, call.input) + "" == CallRecord(call.name, call.input);
  }

  lemma EmptySignature(uses: seq<Block>)
    requires Signature(uses) == ""
    ensures uses == []
  {
  }

  lemma OnlyOneReading(call: Block, b: seq<Block>)
    requires Plain(call.input) && !Splittable(call.name) && PlainInputs(b) && Signature(b) == Signature([call])
    ensures SameCalls(b, [call])
  {
    OneSignature(call);
    var w := CallRecord(call.name, call.input);
    assert b != [] by {
      assert |w| > 0;
    }
    SignatureStep(b);
    var first, rest := CallRecord(b[0].name, b[0].input), Signature(b[1..]);
    assert first + rest == w + "";
    if |first| < |w| {
      ShorterRecordSplits(b[0].name, b[0].input, rest, call.name, call.input, "");
    }
    assert rest == "";
    EmptySignature(b[1..]);
    assert first + "" == first;
    SameRecord(b[0].name, b[0].input, call.name, call.input);
  }

  lemma {:induction false} PlainBetween(s: string, lo: nat, hi: nat)
    requires lo <= hi <= |s|
    requires forall k :: lo <= k < hi ==> s[k] != UNIT_SEPARATOR && s[k] != RECORD_SEPARATOR
    ensures Plain(s[lo..hi])
    decreases hi - lo
  {
    if lo < hi {
      PlainBetween(s, lo + 1, hi);
      assert s[lo..hi] == [s[lo]] + s[lo + 1..hi];
    }
  }

  /** The unit separator nearest before position j, with nothing but plain text between. */
  lemma {:induction false} NearestUnit(name: string, i: nat, j: nat) returns (u: nat, q: nat)
    requires i < j < |name| && name[i] == UNIT_SEPARATOR && name[j] == RECORD_SEPARATOR
    ensures u < q <= j && name[u] == UNIT_SEPARATOR && name[q] == RECORD_SEPARATOR && Plain(name[u + 1..q])
    decreases j - i
  {
    if k: nat :| i < k < j && name[k] == UNIT_SEPARATOR {
      u, q := NearestUnit(name, k, j);
    } else if k: nat :| i < k < j && name[k] == RECORD_SEPARATOR {
      u, q := NearestUnit(name, i, k);
    } else {
      u, q := i, j;
      PlainBetween(name, i + 1, j);
    }
  }

  /** Splitting the name there gives two calls with the one call's signature. */
  lemma SplitName(call: Block)
    requires Plain(call.input) && Splittable(call.name)
    ensures HasTwin([call])
  {
    var name := call.name;
    var i, j :| 0 <= i < j < |name| && name[i] == UNIT_SEPARATOR && name[j] == RECORD_SEPARATOR;
    var u, q := NearestUnit(name, i, j);
    var first := call.(name := name[..u], input := name[u + 1..q]);
    var second := call.(name := name[q + 1..]);
    var b := [first, second];
    OneSignature(call);
    OneSignature(second);
    SignatureStep(b);
    assert b[1..] == [second];
    assert name == name[..u] + [UNIT_SEPARATOR] + name[u + 1..q] + [RECORD_SEPARATOR] + name[q + 1..];
    assert Signature(b) == Signature([call]);
    assert |b| != |[call]|;
    assert PlainInputs(b);
  }

  /** So one call with separators in its name passes for two calls without any. */
  lemma SeparatorsConfuseSignatures()
    ensures var one := [Block(ToolUse, name := "a" + [UNIT_SEPARATOR] + "{}" + [RECORD_SEPARATOR] + "b", input := "{}")];
      var two := [Block(ToolUse, name := "a", input := "{}"), Block(ToolUse, name := "b", input := "{}")];
      PlainInputs(one) && PlainInputs(two) && Signature(one) == Signature(two) && !SameCalls(one, two)
  {
    var call := Block(ToolUse, name := "a" + [UNIT_SEPARATOR] + "{}" + [RECORD_SEPARATOR] + "b", input := "{}");
    var first, second := Block(ToolUse, name := "a", input := "{}"), Block(ToolUse, name := "b", input := "{}");
    OneSignature(call);
    OneSignature(second);
    SignatureStep([first, second]);
    assert [first, second][1..] == [second];
    assert CallRecord(call.name, call.input) == CallRecord("a", "{}") + CallRecord("b", "{}");
  }
}
