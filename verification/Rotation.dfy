/** One rotation of a log's files (app/agentruntime/log_rotate.go, rotateLocked). File 0 is the current file and file i
    its i-th backup; a larger number is older. */
module Rotation {
  import B = ByteStrings

  // ----- Directories of files -----

  /** os.Rename: a missing source fails and changes nothing, an existing target is replaced. */
  function Rename<T>(files: map<nat, T>, src: nat, dst: nat, fails: bool): map<nat, T> {
    if fails || src !in files then files else (files - {src})[dst := files[src]]
  }

  function FileAt<T>(files: map<nat, seq<T>>, k: nat): seq<T> {
    if k in files then files[k] else []
  }

  /** The files numbered n and below, read from the oldest to the newest. */
  function Read<T>(files: map<nat, seq<T>>, n: nat): seq<T> {
    FileAt(files, n) + if n == 0 then [] else Read(files, n - 1)
  }

  lemma {:induction false} ReadSame<T>(a: map<nat, seq<T>>, b: map<nat, seq<T>>, n: nat)
    requires forall k: nat :: k <= n ==> FileAt(a, k) == FileAt(b, k)
    ensures Read(a, n) == Read(b, n)
  {
    if n > 0 {
      ReadSame(a, b, n - 1);
    }
  }

  lemma {:induction false} ReadAppend<T>(files: map<nat, seq<T>>, n: nat, more: seq<T>)
    requires 0 in files
    ensures Read(files[0 := files[0] + more], n) == Read(files, n) + more
  {
    var longer := files[0 := files[0] + more];
    if n == 0 {
      assert Read(files, 0) == files[0];
    } else {
      ReadAppend(files, n - 1, more);
      B.Assoc(FileAt(files, n), Read(files, n - 1), more);
    }
  }

  // ----- One rotation -----

  /** The renames of a rotation, from file n - 1 to n down to file 0 to 1; `fails` tells which sources fail. */
  function Shifted<T>(files: map<nat, T>, n: nat, fails: nat -> bool): map<nat, T>
    decreases n
  {
    if n == 0 then files else Shifted(Rename(files, n - 1, n, fails(n - 1)), n - 1, fails)
  }

  /** O_CREATE and O_APPEND: a current file still there is kept. */
  function Reopened<T>(files: map<nat, seq<T>>, fails: bool): map<nat, seq<T>> {
    if fails || 0 in files then files else files[0 := []]
  }

  function Rotated<T>(files: map<nat, seq<T>>, backups: nat, fails: nat -> bool, openFails: bool): map<nat, seq<T>> {
    Reopened(Shifted(files, backups, fails), openFails)
  }

  predicate Moves<T>(files: map<nat, T>, k: nat, fails: nat -> bool) {
    k in files && !fails(k)
  }

  predicate Stays<T>(files: map<nat, T>, k: nat, top: nat, fails: nat -> bool) {
    k in files && (k == top || fails(k))
  }

  /** A file that stays where its predecessor moves to is gone. */
  predicate Replaced<T>(files: map<nat, T>, k: nat, top: nat, fails: nat -> bool) {
    k > 0 && Stays(files, k, top, fails) && Moves(files, k - 1, fails)
  }

  /** Where every file ends up. */
  lemma {:induction false} ShiftedAt<T>(files: map<nat, T>, n: nat, fails: nat -> bool, k: nat)
    ensures var s := Shifted(files, n, fails);
      if k > n then (k in s <==> k in files) && (k in s ==> s[k] == files[k])
      else if k > 0 && Moves(files, k - 1, fails) then k in s && s[k] == files[k - 1]
      else (k in s <==> Stays(files, k, n, fails)) && (k in s ==> s[k] == files[k])
    decreases n
  {
    if n > 0 {
      ShiftedAt(Rename(files, n - 1, n, fails(n - 1)), n - 1, fails, k);
    }
  }

  function KeptAt<T>(files: map<nat, seq<T>>, top: nat, fails: nat -> bool, k: nat): seq<T> {
    if Replaced(files, k, top, fails) then [] else FileAt(files, k)
  }

  /** The files numbered m and below that a rotation keeps, oldest first. */
  function Kept<T>(files: map<nat, seq<T>>, top: nat, fails: nat -> bool, m: nat): seq<T>
    decreases m
  {
    KeptAt(files, top, fails, m) + if m == 0 then [] else Kept(files, top, fails, m - 1)
  }

  /** Read up to m, the directory after the renames shows what was kept below m, and m itself only if it stayed. */
  lemma {:induction false} ShiftedRead<T>(files: map<nat, seq<T>>, top: nat, fails: nat -> bool, m: nat)
    requires m <= top
    ensures Read(Shifted(files, top, fails), m)
         == (if Stays(files, m, top, fails) && !Replaced(files, m, top, fails) then files[m] else [])
            + if m == 0 then [] else Kept(files, top, fails, m - 1)
    decreases m
  {
    ShiftedAt(files, top, fails, m);
    if m > 0 {
      ShiftedRead(files, top, fails, m - 1);
      var below := if m == 1 then [] else Kept(files, top, fails, m - 2);
      assert Kept(files, top, fails, m - 1) == KeptAt(files, top, fails, m - 1) + below;
    }
  }

  lemma RotatedRead<T>(files: map<nat, seq<T>>, backups: nat, fails: nat -> bool, openFails: bool)
    ensures Read(Rotated(files, backups, fails, openFails), backups) == Kept(files, backups, fails, backups)
  {
    ShiftedRead(files, backups, fails, backups);
    ReadSame(Shifted(files, backups, fails), Rotated(files, backups, fails, openFails), backups);
  }

  // ----- When a rotation keeps the order of the log -----

  predicate IsSuffix<T(==)>(s: seq<T>, whole: seq<T>) {
    |s| <= |whole| && whole[|whole| - |s|..] == s
  }

  /** All pieces can be told apart. */
  predicate Distinct<T(==)>(s: seq<T>) {
    forall i, j :: 0 <= i < j < |s| ==> s[i] != s[j]
  }

  /** A non-empty file numbered k is replaced while an older non-empty one is kept. */
  predicate LosesMiddle<T(==)>(files: map<nat, seq<T>>, top: nat, fails: nat -> bool, m: nat) {
    exists k, j :: 0 < k < j <= m && ReplacesSome(files, k, top, fails) && KeepsSome(files, j, top, fails)
  }

  predicate ReplacesSome<T(==)>(files: map<nat, seq<T>>, k: nat, top: nat, fails: nat -> bool) {
    Replaced(files, k, top, fails) && files[k] != []
  }

  predicate KeepsSome<T(==)>(files: map<nat, seq<T>>, k: nat, top: nat, fails: nat -> bool) {
    k in files && files[k] != [] && !Replaced(files, k, top, fails)
  }

  predicate ReplacesAny<T(==)>(files: map<nat, seq<T>>, top: nat, fails: nat -> bool, m: nat) {
    exists k :: 0 < k <= m && ReplacesSome(files, k, top, fails)
  }

  lemma {:induction false} KeptAllOrFewer<T>(files: map<nat, seq<T>>, top: nat, fails: nat -> bool, m: nat)
    ensures if ReplacesAny(files, top, fails, m) then |Kept(files, top, fails, m)| < |Read(files, m)|
            else Kept(files, top, fails, m) == Read(files, m)
    decreases m
  {
    if m > 0 {
      KeptAllOrFewer(files, top, fails, m - 1);
      assert ReplacesAny(files, top, fails, m) <==> ReplacesAny(files, top, fails, m - 1) || ReplacesSome(files, m, top, fails);
      assert !ReplacesSome(files, m, top, fails) ==> KeptAt(files, top, fails, m) == FileAt(files, m);
    }
  }

  lemma SuffixBehind<T>(s: seq<T>, front: seq<T>, whole: seq<T>)
    requires |s| <= |whole|
    ensures IsSuffix(s, front + whole) <==> IsSuffix(s, whole)
  {
    assert (front + whole)[|front + whole| - |s|..] == whole[|whole| - |s|..];
  }

  /** Distinct pieces show a shorter list with the same head to be no suffix. */
  lemma SameHeadNoSuffix<T>(block: seq<T>, s: seq<T>, rest: seq<T>)
    requires block != [] && Distinct(block + rest) && |s| < |rest|
    ensures !IsSuffix(block + s, block + rest)
  {
    var whole, c := block + rest, |rest| - |s|;
    assert whole[c] != whole[0];
    assert whole[c..][0] == whole[c];
  }

  lemma DistinctTail<T>(block: seq<T>, rest: seq<T>)
    requires Distinct(block + rest)
    ensures Distinct(rest)
  {
    forall i, j | 0 <= i < j < |rest| ensures rest[i] != rest[j] {
      assert (block + rest)[|block| + i] == rest[i] && (block + rest)[|block| + j] == rest[j];
    }
  }

  /** Step on file m: what it contributes, and what it means for those below. */
  lemma LosesStep<T>(files: map<nat, seq<T>>, top: nat, fails: nat -> bool, m: nat)
    requires m > 0
    ensures LosesMiddle(files, top, fails, m)
       <==> LosesMiddle(files, top, fails, m - 1)
            || (KeepsSome(files, m, top, fails) && ReplacesAny(files, top, fails, m - 1))
  {
  }

  lemma {:induction false} KeptSuffixIf<T>(files: map<nat, seq<T>>, top: nat, fails: nat -> bool, m: nat)
    requires !LosesMiddle(files, top, fails, m)
    ensures IsSuffix(Kept(files, top, fails, m), Read(files, m))
    decreases m
  {
    if m == 0 {
      KeptAllOrFewer(files, top, fails, m);
    } else {
      NothingLostAt(files, top, fails, m);
      KeptSuffixIf(files, top, fails, m - 1);
      SuffixGrows(KeptAt(files, top, fails, m), FileAt(files, m), Kept(files, top, fails, m - 1), Read(files, m - 1));
    }
  }

  lemma NothingLostAt<T>(files: map<nat, seq<T>>, top: nat, fails: nat -> bool, m: nat)
    requires m > 0 && !LosesMiddle(files, top, fails, m)
    ensures !LosesMiddle(files, top, fails, m - 1)
    ensures KeptAt(files, top, fails, m) == []
         || (KeptAt(files, top, fails, m) == FileAt(files, m) && Kept(files, top, fails, m - 1) == Read(files, m - 1))
  {
    LosesStep(files, top, fails, m);
    KeptAllOrFewer(files, top, fails, m - 1);
  }

  lemma SuffixGrows<T>(keptBlock: seq<T>, block: seq<T>, kept: seq<T>, read: seq<T>)
    requires keptBlock == [] || (keptBlock == block && kept == read)
    requires IsSuffix(kept, read)
    ensures IsSuffix(keptBlock + kept, block + read)
  {
    if keptBlock == [] {
      assert keptBlock + kept == kept;
      SuffixBehind(kept, block, read);
    }
  }

  lemma {:induction false} KeptSuffixOnlyIf<T>(files: map<nat, seq<T>>, top: nat, fails: nat -> bool, m: nat)
    requires Distinct(Read(files, m)) && IsSuffix(Kept(files, top, fails, m), Read(files, m))
    ensures !LosesMiddle(files, top, fails, m)
    decreases m
  {
    if m > 0 {
      SuffixBelow(files, top, fails, m);
      KeptSuffixOnlyIf(files, top, fails, m - 1);
      NothingLostBelow(files, top, fails, m);
    }
  }

  lemma SuffixBelow<T>(files: map<nat, seq<T>>, top: nat, fails: nat -> bool, m: nat)
    requires m > 0 && Distinct(Read(files, m)) && IsSuffix(Kept(files, top, fails, m), Read(files, m))
    ensures Distinct(Read(files, m - 1)) && IsSuffix(Kept(files, top, fails, m - 1), Read(files, m - 1))
    ensures KeptAt(files, top, fails, m) == [] || Kept(files, top, fails, m - 1) == Read(files, m - 1)
  {
    KeptAllOrFewer(files, top, fails, m - 1);
    DistinctTail(FileAt(files, m), Read(files, m - 1));
    SuffixStep(KeptAt(files, top, fails, m), FileAt(files, m), Kept(files, top, fails, m - 1), Read(files, m - 1));
  }

  lemma NothingLostBelow<T>(files: map<nat, seq<T>>, top: nat, fails: nat -> bool, m: nat)
    requires m > 0 && !LosesMiddle(files, top, fails, m - 1)
    requires KeptAt(files, top, fails, m) == [] || Kept(files, top, fails, m - 1) == Read(files, m - 1)
    ensures !LosesMiddle(files, top, fails, m)
  {
    LosesStep(files, top, fails, m);
    KeptAllOrFewer(files, top, fails, m - 1);
  }

  /** Either the block in front was kept, and then all behind it was, or it does not matter. */
  lemma SuffixStep<T>(keptBlock: seq<T>, block: seq<T>, kept: seq<T>, read: seq<T>)
    requires keptBlock == [] || keptBlock == block
    requires |kept| < |read| || kept == read
    requires Distinct(block + read) && IsSuffix(keptBlock + kept, block + read)
    ensures IsSuffix(kept, read) && (keptBlock != [] ==> kept == read)
  {
    if keptBlock == [] {
      assert keptBlock + kept == kept;
      SuffixBehind(kept, block, read);
    } else if |kept| < |read| {
      SameHeadNoSuffix(block, kept, read);
    }
  }

  /** After a rotation the files, read from the oldest to the newest, are the end of what they were exactly when no
      non-empty file was replaced while an older non-empty one was kept: that is, unless the rename of a file failed,
      the next rename put another in its place, and something older is still there. */
  lemma RotationKeepsSuffixIff<T>(files: map<nat, seq<T>>, backups: nat, fails: nat -> bool, openFails: bool)
    ensures var before, after := Read(files, backups), Read(Rotated(files, backups, fails, openFails), backups);
      && (!LosesMiddle(files, backups, fails, backups) ==> IsSuffix(after, before))
      && (Distinct(before) && IsSuffix(after, before) ==> !LosesMiddle(files, backups, fails, backups))
  {
    RotatedRead(files, backups, fails, openFails);
    if !LosesMiddle(files, backups, fails, backups) {
      KeptSuffixIf(files, backups, fails, backups);
    }
    if Distinct(Read(files, backups)) && IsSuffix(Kept(files, backups, fails, backups), Read(files, backups)) {
      KeptSuffixOnlyIf(files, backups, fails, backups);
    }
  }

  /** Only the rename of a file that is itself a backup, and not the last one, can lose a middle. */
  lemma LosingNeedsFailure<T>(files: map<nat, seq<T>>, backups: nat, fails: nat -> bool)
    requires LosesMiddle(files, backups, fails, backups)
    ensures exists k :: 0 < k < backups && k in files && files[k] != [] && fails(k) && k - 1 in files && !fails(k - 1)
  {
    var k, j :| 0 < k < j <= backups && ReplacesSome(files, k, backups, fails) && KeepsSome(files, j, backups, fails);
  }

  lemma MovingLosesNothing<T>(files: map<nat, seq<T>>, backups: nat, fails: nat -> bool)
    requires forall k :: 0 < k < backups ==> !fails(k)
    ensures !LosesMiddle(files, backups, fails, backups)
  {
  }

  predicate OnlyOne(k: nat) {
    k == 1
  }

  /** With two backups and only the rename of the first failing, the rotation drops its content from the middle. */
  lemma FailedRenameLosesMiddle()
    ensures var files: map<nat, seq<int>> := map[0 := [3], 1 := [2], 2 := [1]];
      && LosesMiddle(files, 2, OnlyOne, 2)
      && Read(files, 2) == [1, 2, 3] && Read(Rotated(files, 2, OnlyOne, false), 2) == [1, 3]
  {
    var files: map<nat, seq<int>> := map[0 := [3], 1 := [2], 2 := [1]];
    assert Read(files, 0) == [3] && Read(files, 1) == [2] + [3];
    assert ReplacesSome(files, 1, 2, OnlyOne) && KeepsSome(files, 2, 2, OnlyOne);
    RotatedRead(files, 2, OnlyOne, false);
    assert Kept(files, 2, OnlyOne, 0) == [3];
    assert Kept(files, 2, OnlyOne, 1) == [] + [3];
  }

  /** Numbers above the last backup are never touched. */
  lemma OlderUntouched<T>(files: map<nat, seq<T>>, backups: nat, fails: nat -> bool, openFails: bool, k: nat)
    requires k > backups
    ensures var s := Rotated(files, backups, fails, openFails);
      (k in s <==> k in files) && (k in s ==> s[k] == files[k])
  {
    ShiftedAt(files, backups, fails, k);
  }

  /** Numbers up to n leave room for at most n + 1 files. */
  lemma {:induction false} FewFiles(keys: set<nat>, n: nat)
    requires forall k :: k in keys ==> k <= n
    ensures |keys| <= n + 1
  {
    if n == 0 {
      assert keys <= {0};
      SubsetSmaller(keys, {0});
    } else {
      FewFiles(keys - {n}, n - 1);
      assert |keys| <= |keys - {n}| + 1;
    }
  }

  lemma {:induction false} SubsetSmaller(a: set<nat>, b: set<nat>)
    requires a <= b
    ensures |a| <= |b|
    decreases a
  {
    if x :| x in a {
      SubsetSmaller(a - {x}, b - {x});
    }
  }

  /** A log that starts without files numbered above its last backup never has more files than one more than backups. */
  lemma RotationKeepsFewFiles<T>(files: map<nat, seq<T>>, backups: nat, fails: nat -> bool, openFails: bool)
    requires forall k :: k in files ==> k <= backups
    ensures var s := Rotated(files, backups, fails, openFails);
      (forall k :: k in s ==> k <= backups) && |s| <= backups + 1
  {
    var s := Rotated(files, backups, fails, openFails);
    forall k | k in s ensures k <= backups {
      if k > backups {
        OlderUntouched(files, backups, fails, openFails, k);
      }
    }
    FewFiles(s.Keys, backups);
  }

  // ----- Numbered writes -----

  /** The numbers from lo up to hi. */
  function Span(lo: nat, hi: nat): seq<nat>
    requires lo <= hi
  {
    seq(hi - lo, i requires 0 <= i => lo + i)
  }

  predicate Ascending(ids: seq<nat>) {
    forall i, j :: 0 <= i < j < |ids| ==> ids[i] < ids[j]
  }

  predicate Below(ids: seq<nat>, n: nat) {
    forall i :: 0 <= i < |ids| ==> ids[i] < n
  }

  /** How many numbers at the end of ids are the last ones below n, without a gap. */
  function GaplessTail(ids: seq<nat>, n: nat): (size: nat)
    ensures size <= n && size <= |ids|
  {
    if ids == [] || n == 0 || ids[|ids| - 1] != n - 1 then 0 else 1 + GaplessTail(ids[..|ids| - 1], n - 1)
  }

  /** Where the numbers before the last gap end. */
  function TailBegin(ids: seq<nat>, n: nat): nat {
    n - GaplessTail(ids, n)
  }

  lemma AscendingIsDistinct(ids: seq<nat>)
    requires Ascending(ids)
    ensures Distinct(ids)
  {
  }

  /** A suffix of ids is the end of all numbers exactly when it lies within the gapless tail. */
  lemma {:induction false} TailIff(s: seq<nat>, ids: seq<nat>, n: nat)
    requires IsSuffix(s, ids) && Ascending(ids) && Below(ids, n)
    ensures IsSuffix(s, Span(0, n)) <==> |s| <= GaplessTail(ids, n)
    decreases |s|
  {
    if s != [] {
      var k := |s| - 1;
      assert ids[|ids| - |s|..][k] == s[k] && s[k] == ids[|ids| - 1];
      if s[k] == n - 1 {
        assert ids[..|ids| - 1][|ids| - 1 - k..] == s[..k];
        TailIff(s[..k], ids[..|ids| - 1], n - 1);
        SpanStep(s, n);
      } else if IsSuffix(s, Span(0, n)) {
        SpanEnd(s, n);
      }
    }
  }

  lemma SpanEnd(s: seq<nat>, n: nat)
    requires s != [] && IsSuffix(s, Span(0, n))
    ensures n > 0 && s[|s| - 1] == n - 1
  {
    assert Span(0, n)[n - |s|..][|s| - 1] == n - 1;
  }

  lemma SpanStep(s: seq<nat>, n: nat)
    requires s != [] && n > 0 && s[|s| - 1] == n - 1
    ensures IsSuffix(s, Span(0, n)) <==> IsSuffix(s[..|s| - 1], Span(0, n - 1))
  {
    var k := |s| - 1;
    if IsSuffix(s, Span(0, n)) {
      assert Span(0, n - 1)[n - 1 - k..] == Span(0, n)[n - |s|..][..k];
    }
    if IsSuffix(s[..k], Span(0, n - 1)) {
      assert Span(0, n)[n - |s|..] == Span(0, n - 1)[n - 1 - k..] + [n - 1];
      assert s == s[..k] + [n - 1];
    }
  }

  /** Numbers taken from ids that are the last of all are the last of ids. */
  lemma {:induction false} LastOfAll(s: seq<nat>, ids: seq<nat>, n: nat)
    requires Ascending(ids) && Below(ids, n) && Within(s, ids) && IsSuffix(s, Span(0, n))
    ensures IsSuffix(s, ids)
    decreases |s|
  {
    if s != [] {
      LastIsLast(s, ids, n);
      LastOfAll(s[..|s| - 1], ids[..|ids| - 1], n - 1);
      SuffixPlusOne(s, ids);
    }
  }

  lemma LastIsLast(s: seq<nat>, ids: seq<nat>, n: nat)
    requires s != [] && Ascending(ids) && Below(ids, n) && Within(s, ids) && IsSuffix(s, Span(0, n))
    ensures n > 0 && ids != [] && ids[|ids| - 1] == s[|s| - 1] == n - 1
    ensures var s', ids' := s[..|s| - 1], ids[..|ids| - 1];
      Ascending(ids') && Below(ids', n - 1) && Within(s', ids') && IsSuffix(s', Span(0, n - 1))
  {
    var k := |s| - 1;
    SpanEnd(s, n);
    SpanStep(s, n);
    assert s[k] in ids;
    assert ids[|ids| - 1] == n - 1;
    assert ids == ids[..|ids| - 1] + [n - 1];
    FrontWithin(s[..k], ids[..|ids| - 1], n - 1);
  }

  lemma SuffixPlusOne(s: seq<nat>, ids: seq<nat>)
    requires s != [] && ids != [] && s[|s| - 1] == ids[|ids| - 1] && IsSuffix(s[..|s| - 1], ids[..|ids| - 1])
    ensures IsSuffix(s, ids)
  {
    var k := |s| - 1;
    assert ids[|ids| - |s|..] == ids[..|ids| - 1][|ids| - 1 - k..] + [ids[|ids| - 1]];
    assert s == s[..k] + [s[k]];
  }

  lemma FrontWithin(s: seq<nat>, front: seq<nat>, n: nat)
    requires Within(s, front + [n]) && IsSuffix(s, Span(0, n))
    ensures Within(s, front)
  {
    forall i | 0 <= i < |s| ensures s[i] in front {
      SpanBelow(s, n, i);
    }
  }

  lemma SpanBelow(s: seq<nat>, n: nat, i: nat)
    requires IsSuffix(s, Span(0, n)) && i < |s|
    ensures s[i] < n
  {
    assert s[i] == Span(0, n)[n - |s|..][i];
  }

  predicate Before(a: seq<nat>, b: seq<nat>) {
    forall i, j :: 0 <= i < |a| && 0 <= j < |b| ==> a[i] < b[j]
  }

  predicate Within(a: seq<nat>, b: seq<nat>) {
    forall i :: 0 <= i < |a| ==> a[i] in b
  }

  lemma AscendingSplit(a: seq<nat>, b: seq<nat>)
    requires Ascending(a + b)
    ensures Ascending(a) && Ascending(b) && Before(a, b)
  {
    var c := a + b;
    assert forall i :: 0 <= i < |a| ==> c[i] == a[i];
    assert forall i :: 0 <= i < |b| ==> c[|a| + i] == b[i];
  }

  lemma AscendingJoin(a: seq<nat>, b: seq<nat>)
    requires Ascending(a) && Ascending(b) && Before(a, b)
    ensures Ascending(a + b)
  {
  }

  lemma BeforeWithin(a: seq<nat>, b: seq<nat>, c: seq<nat>)
    requires Before(a, b) && Within(c, b)
    ensures Before(a, c)
  {
  }

  lemma AscendingRest(a: seq<nat>, b: seq<nat>, all: seq<nat>)
    requires all == a + b && Ascending(all)
    ensures Ascending(b)
  {
    AscendingSplit(a, b);
  }

  /** A block that is kept or dropped, before others of which some are kept. */
  lemma KeptBlock(block: seq<nat>, keptBlock: seq<nat>, read: seq<nat>, kept: seq<nat>, allRead: seq<nat>, allKept: seq<nat>)
    requires allRead == block + read && allKept == keptBlock + kept && (keptBlock == [] || keptBlock == block)
    requires Ascending(allRead) && Ascending(kept) && Within(kept, read)
    ensures Ascending(allKept) && Within(allKept, allRead)
  {
    AscendingSplit(block, read);
    BeforeWithin(block, read, kept);
    AscendingJoin(keptBlock, kept);
  }

  /** kept is a selection of read, in order. */
  predicate Selects(kept: seq<nat>, read: seq<nat>) {
    Ascending(kept) && Within(kept, read)
  }

  /** What a rotation keeps of ascending numbers is a selection of them. */
  predicate KeptSelects(layout: map<nat, seq<nat>>, top: nat, fails: nat -> bool, m: nat) {
    Ascending(Read(layout, m)) ==> Selects(Kept(layout, top, fails, m), Read(layout, m))
  }

  lemma KeptFirst(layout: map<nat, seq<nat>>, top: nat, fails: nat -> bool)
    ensures KeptSelects(layout, top, fails, 0)
  {
    if Ascending(Read(layout, 0)) {
      KeptBlock(FileAt(layout, 0), KeptAt(layout, top, fails, 0), [], [], Read(layout, 0), Kept(layout, top, fails, 0));
    }
  }

  lemma KeptNext(layout: map<nat, seq<nat>>, top: nat, fails: nat -> bool, m: nat)
    requires m > 0 && KeptSelects(layout, top, fails, m - 1)
    ensures KeptSelects(layout, top, fails, m)
  {
    if Ascending(Read(layout, m)) {
      AscendingRest(FileAt(layout, m), Read(layout, m - 1), Read(layout, m));
      KeptBlock(FileAt(layout, m), KeptAt(layout, top, fails, m), Read(layout, m - 1), Kept(layout, top, fails, m - 1),
                Read(layout, m), Kept(layout, top, fails, m));
    }
  }

  lemma {:induction false} KeptAscending(layout: map<nat, seq<nat>>, top: nat, fails: nat -> bool, m: nat)
    ensures KeptSelects(layout, top, fails, m)
    decreases m
  {
    if m == 0 {
      KeptFirst(layout, top, fails);
    } else {
      KeptAscending(layout, top, fails, m - 1);
      KeptNext(layout, top, fails, m);
    }
  }

  predicate AllFrom(ids: seq<nat>, bound: nat) {
    forall i :: 0 <= i < |ids| ==> ids[i] >= bound
  }

  /** Every file that holds a number below the bound is replaced. */
  predicate OldGone(layout: map<nat, seq<nat>>, top: nat, fails: nat -> bool, m: nat, bound: nat) {
    forall k :: 0 <= k <= m && !AllFrom(FileAt(layout, k), bound) ==> Replaced(layout, k, top, fails)
  }

  lemma AllFromConcat(a: seq<nat>, b: seq<nat>, bound: nat)
    ensures AllFrom(a + b, bound) <==> AllFrom(a, bound) && AllFrom(b, bound)
  {
    var c := a + b;
    assert forall i :: 0 <= i < |a| ==> c[i] == a[i];
    assert forall i :: 0 <= i < |b| ==> c[|a| + i] == b[i];
  }

  predicate FromDecided(layout: map<nat, seq<nat>>, top: nat, fails: nat -> bool, m: nat, bound: nat) {
    AllFrom(Kept(layout, top, fails, m), bound) <==> OldGone(layout, top, fails, m, bound)
  }

  lemma FromFirst(layout: map<nat, seq<nat>>, top: nat, fails: nat -> bool, bound: nat)
    ensures FromDecided(layout, top, fails, 0, bound)
  {
    KeptFromStep(layout, top, fails, 0, bound);
    OldGoneStep(layout, top, fails, 0, bound);
  }

  lemma FromNext(layout: map<nat, seq<nat>>, top: nat, fails: nat -> bool, m: nat, bound: nat)
    requires m > 0 && FromDecided(layout, top, fails, m - 1, bound)
    ensures FromDecided(layout, top, fails, m, bound)
  {
    KeptFromStep(layout, top, fails, m, bound);
    OldGoneStep(layout, top, fails, m, bound);
  }

  lemma {:induction false} KeptFromIff(layout: map<nat, seq<nat>>, top: nat, fails: nat -> bool, m: nat, bound: nat)
    ensures FromDecided(layout, top, fails, m, bound)
    decreases m
  {
    if m == 0 {
      FromFirst(layout, top, fails, bound);
    } else {
      KeptFromIff(layout, top, fails, m - 1, bound);
      FromNext(layout, top, fails, m, bound);
    }
  }

  lemma KeptFromStep(layout: map<nat, seq<nat>>, top: nat, fails: nat -> bool, m: nat, bound: nat)
    ensures AllFrom(Kept(layout, top, fails, m), bound)
       <==> AllFrom(KeptAt(layout, top, fails, m), bound) && (m > 0 ==> AllFrom(Kept(layout, top, fails, m - 1), bound))
  {
    AllFromConcat(KeptAt(layout, top, fails, m), if m == 0 then [] else Kept(layout, top, fails, m - 1), bound);
  }

  lemma OldGoneStep(layout: map<nat, seq<nat>>, top: nat, fails: nat -> bool, m: nat, bound: nat)
    ensures OldGone(layout, top, fails, m, bound)
       <==> AllFrom(KeptAt(layout, top, fails, m), bound) && (m > 0 ==> OldGone(layout, top, fails, m - 1, bound))
  {
  }

  /** The gapless tail counts up to n, and what stands before it is below its start. */
  lemma TailNumbers(ids: seq<nat>, n: nat)
    requires Ascending(ids) && Below(ids, n)
    ensures var g := GaplessTail(ids, n);
      && AllFrom(ids[|ids| - g..], n - g)
      && (|ids| > g ==> ids[|ids| - g - 1] < n - g)
  {
    var g := GaplessTail(ids, n);
    var tail := ids[|ids| - g..];
    TailIff(tail, ids, n);
    assert forall i :: 0 <= i < g ==> tail[i] == Span(0, n)[n - g..][i] == n - g + i;
    assert g > 0 ==> ids[|ids| - g] == tail[0] == n - g;
  }

  /** A suffix lies within the gapless tail exactly when it holds nothing from before the last gap. */
  lemma WithinTailIff(s: seq<nat>, ids: seq<nat>, n: nat)
    requires IsSuffix(s, ids) && Ascending(ids) && Below(ids, n)
    ensures |s| <= GaplessTail(ids, n) <==> AllFrom(s, TailBegin(ids, n))
  {
    TailNumbers(ids, n);
    LongerOrWithin(s, ids, GaplessTail(ids, n), TailBegin(ids, n));
  }

  lemma LongerOrWithin(s: seq<nat>, ids: seq<nat>, g: nat, bound: nat)
    requires IsSuffix(s, ids) && g <= |ids| && AllFrom(ids[|ids| - g..], bound)
    requires |ids| > g ==> ids[|ids| - g - 1] < bound
    ensures |s| <= g <==> AllFrom(s, bound)
  {
    var tail := ids[|ids| - g..];
    if |s| <= g {
      assert forall i :: 0 <= i < |s| ==> s[i] == tail[g - |s| + i];
    } else {
      assert s[|s| - g - 1] == ids[|ids| - g - 1];
    }
  }

  lemma SuffixOfSuffix<T>(a: seq<T>, b: seq<T>, c: seq<T>)
    requires IsSuffix(a, b) && IsSuffix(b, c)
    ensures IsSuffix(a, c)
  {
    assert c[|c| - |a|..] == c[|c| - |b|..][|b| - |a|..];
  }

  lemma RotatedSuffixIff(layout: map<nat, seq<nat>>, backups: nat, fails: nat -> bool, openFails: bool)
    requires Ascending(Read(layout, backups))
    ensures var before, after := Read(layout, backups), Read(Rotated(layout, backups, fails, openFails), backups);
      Selects(after, before) && (IsSuffix(after, before) <==> !LosesMiddle(layout, backups, fails, backups))
  {
    RotatedRead(layout, backups, fails, openFails);
    KeptAscending(layout, backups, fails, backups);
    AscendingIsDistinct(Read(layout, backups));
    RotationKeepsSuffixIff(layout, backups, fails, openFails);
  }

  lemma RotatedFromIff(layout: map<nat, seq<nat>>, backups: nat, fails: nat -> bool, openFails: bool, bound: nat)
    ensures AllFrom(Read(Rotated(layout, backups, fails, openFails), backups), bound)
       <==> OldGone(layout, backups, fails, backups, bound)
  {
    RotatedRead(layout, backups, fails, openFails);
    KeptFromIff(layout, backups, fails, backups, bound);
  }

  lemma KeptTailIff(after: seq<nat>, before: seq<nat>, n: nat)
    requires Ascending(before) && Below(before, n) && Within(after, before)
    ensures IsSuffix(after, Span(0, n)) <==> IsSuffix(after, before) && AllFrom(after, TailBegin(before, n))
    ensures IsSuffix(before, Span(0, n)) ==> (IsSuffix(after, Span(0, n)) <==> IsSuffix(after, before))
  {
    if IsSuffix(after, Span(0, n)) {
      LastOfAll(after, before, n);
    }
    if IsSuffix(after, before) {
      TailIff(after, before, n);
      WithinTailIff(after, before, n);
      if IsSuffix(before, Span(0, n)) {
        SuffixOfSuffix(after, before, Span(0, n));
      }
    }
  }

  lemma TailDecided(after: seq<nat>, before: seq<nat>, n: nat, loses: bool, gone: bool)
    requires Ascending(before) && Below(before, n) && Selects(after, before)
    requires IsSuffix(after, before) <==> !loses
    requires AllFrom(after, TailBegin(before, n)) <==> gone
    ensures IsSuffix(after, Span(0, n)) <==> !loses && gone
    ensures IsSuffix(before, Span(0, n)) ==> (IsSuffix(after, Span(0, n)) <==> !loses)
  {
    KeptTailIff(after, before, n);
  }

  /** After a rotation the numbers kept are the last of all exactly when it loses no middle and replaces every file that
      holds one from before the last gap. If there was no gap, losing no middle is enough. */
  lemma RotatedTailIff(layout: map<nat, seq<nat>>, backups: nat, fails: nat -> bool, openFails: bool, n: nat)
    requires Ascending(Read(layout, backups)) && Below(Read(layout, backups), n)
    ensures var before, after := Read(layout, backups), Read(Rotated(layout, backups, fails, openFails), backups);
      var loses := LosesMiddle(layout, backups, fails, backups);
      && Selects(after, before)
      && (IsSuffix(after, Span(0, n)) <==> !loses && OldGone(layout, backups, fails, backups, TailBegin(before, n)))
      && (IsSuffix(before, Span(0, n)) ==> (IsSuffix(after, Span(0, n)) <==> !loses))
  {
    var before, after := Read(layout, backups), Read(Rotated(layout, backups, fails, openFails), backups);
    RotatedSuffixIff(layout, backups, fails, openFails);
    RotatedFromIff(layout, backups, fails, openFails, TailBegin(before, n));
    TailDecided(after, before, n, LosesMiddle(layout, backups, fails, backups),
                OldGone(layout, backups, fails, backups, TailBegin(before, n)));
  }

  predicate Never(k: nat) {
    false
  }

  /** Write 1 of three is missing; one rotation that drops write 0 makes the disk the end of the log again. */
  lemma GapRotatesOut()
    ensures var layout: map<nat, seq<nat>> := map[0 := [], 1 := [2], 2 := [0]];
      && Read(layout, 2) == [0, 2] && !IsSuffix([0, 2], Span(0, 3))
      && Read(Rotated(layout, 2, Never, false), 2) == [2] && IsSuffix([2], Span(0, 3))
  {
    var layout: map<nat, seq<nat>> := map[0 := [], 1 := [2], 2 := [0]];
    assert Read(layout, 0) == [] && Read(layout, 1) == [2] + [];
    assert Span(0, 3)[1..][0] == 1;
    RotatedRead(layout, 2, Never, false);
    assert Kept(layout, 2, Never, 0) == [] && Kept(layout, 2, Never, 1) == [2] + [];
  }
}
