/** A size-capped log file with numbered backups: the writer and what its files hold (app/agentruntime/log_rotate.go). */
module LogRotate {
  import opened Wrappers
  import opened Rotation
  import B = ByteStrings

  type Bytes = B.Bytes

  // ----- Files as lists of writes -----

  /** The writes of these numbers, put together. */
  function Texts(log: seq<Bytes>, ids: seq<nat>): Bytes
    requires Below(ids, |log|)
  {
    if ids == [] then [] else log[ids[0]] + Texts(log, ids[1..])
  }

  lemma {:induction false} TextsConcat(log: seq<Bytes>, a: seq<nat>, b: seq<nat>)
    requires Below(a, |log|) && Below(b, |log|)
    ensures Texts(log, a + b) == Texts(log, a) + Texts(log, b)
  {
    if a == [] {
      assert a + b == b;
    } else {
      assert (a + b)[1..] == a[1..] + b;
      TextsConcat(log, a[1..], b);
      B.Assoc(log[a[0]], Texts(log, a[1..]), Texts(log, b));
    }
  }

  lemma {:induction false} TextsLonger(log: seq<Bytes>, more: seq<Bytes>, ids: seq<nat>)
    requires Below(ids, |log|)
    ensures Texts(log + more, ids) == Texts(log, ids)
  {
    if ids != [] {
      TextsLonger(log, more, ids[1..]);
    }
  }

  function Flat(chunks: seq<Bytes>): Bytes {
    if chunks == [] then [] else chunks[0] + Flat(chunks[1..])
  }

  lemma {:induction false} TextsOfSpan(log: seq<Bytes>, lo: nat)
    requires lo <= |log|
    ensures Texts(log, Span(lo, |log|)) == Flat(log[lo..])
    decreases |log| - lo
  {
    if lo < |log| {
      assert Span(lo, |log|)[1..] == Span(lo + 1, |log|);
      assert log[lo..][1..] == log[lo + 1..];
      TextsOfSpan(log, lo + 1);
    }
  }

  predicate NoneEmpty(chunks: seq<Bytes>) {
    forall i :: 0 <= i < |chunks| ==> chunks[i] != []
  }

  lemma TextsEmpty(log: seq<Bytes>, ids: seq<nat>)
    requires NoneEmpty(log) && Below(ids, |log|)
    ensures Texts(log, ids) == [] <==> ids == []
  {
  }

  /** Non-empty content as a list of writes. */
  function Chunk(p: Bytes): seq<Bytes> {
    if p == [] then [] else [p]
  }

  /** Each of the files numbered n and below is put together from whole writes. */
  ghost predicate Laid(files: map<nat, Bytes>, layout: map<nat, seq<nat>>, log: seq<Bytes>, n: nat) {
    forall k :: 0 <= k <= n ==>
      (k in files <==> k in layout) && (k in files ==> Below(layout[k], |log|) && files[k] == Texts(log, layout[k]))
  }

  lemma LaidAppend(files: map<nat, Bytes>, layout: map<nat, seq<nat>>, log: seq<Bytes>, n: nat, p: Bytes)
    requires Laid(files, layout, log, n) && 0 in files
    ensures var more := log + Chunk(p);
      Laid(files[0 := files[0] + p], layout[0 := layout[0] + Span(|log|, |more|)], more, n)
  {
    var more := log + Chunk(p);
    var added := Span(|log|, |more|);
    forall k | 0 <= k <= n && k in files ensures Below(layout[k], |more|) && Texts(more, layout[k]) == files[k] {
      TextsLonger(log, Chunk(p), layout[k]);
    }
    AppendedText(log, layout[0], p);
  }

  lemma AppendedText(log: seq<Bytes>, ids: seq<nat>, p: Bytes)
    requires Below(ids, |log|)
    ensures var more := log + Chunk(p);
      var longer := ids + Span(|log|, |more|);
      Below(longer, |more|) && Texts(more, longer) == Texts(log, ids) + p
  {
    var more := log + Chunk(p);
    var added := Span(|log|, |more|);
    TextsLonger(log, Chunk(p), ids);
    TextsConcat(more, ids, added);
    if p != [] {
      assert added == [|log|] && added[1..] == [] && more[|log|] == p;
      assert Texts(more, added) == p + [];
    }
  }

  lemma RenameLaid(files: map<nat, Bytes>, layout: map<nat, seq<nat>>, log: seq<Bytes>, n: nat, src: nat, dst: nat, fails: bool)
    requires Laid(files, layout, log, n) && src <= n && dst <= n
    ensures Laid(Rename(files, src, dst, fails), Rename(layout, src, dst, fails), log, n)
  {
  }

  lemma {:induction false} ShiftedLaid(files: map<nat, Bytes>, layout: map<nat, seq<nat>>, log: seq<Bytes>, n: nat, m: nat,
                                       fails: nat -> bool)
    requires Laid(files, layout, log, n) && m <= n
    ensures Laid(Shifted(files, m, fails), Shifted(layout, m, fails), log, n)
    decreases m
  {
    if m > 0 {
      RenameLaid(files, layout, log, n, m - 1, m, fails(m - 1));
      ShiftedLaid(Rename(files, m - 1, m, fails(m - 1)), Rename(layout, m - 1, m, fails(m - 1)), log, n, m - 1, fails);
    }
  }

  lemma RotatedLaid(files: map<nat, Bytes>, layout: map<nat, seq<nat>>, log: seq<Bytes>, backups: nat, fails: nat -> bool,
                    openFails: bool)
    requires Laid(files, layout, log, backups)
    ensures Laid(Rotated(files, backups, fails, openFails), Rotated(layout, backups, fails, openFails), log, backups)
  {
    ShiftedLaid(files, layout, log, backups, backups, fails);
  }

  /** Bytes and writes agree on what a rotation loses. */
  lemma LosesAlike(files: map<nat, Bytes>, layout: map<nat, seq<nat>>, log: seq<Bytes>, top: nat, fails: nat -> bool)
    requires Laid(files, layout, log, top) && NoneEmpty(log)
    ensures LosesMiddle(files, top, fails, top) <==> LosesMiddle(layout, top, fails, top)
  {
    forall k: nat | k <= top
      ensures ReplacesSome(files, k, top, fails) <==> ReplacesSome(layout, k, top, fails)
      ensures KeepsSome(files, k, top, fails) <==> KeepsSome(layout, k, top, fails)
    {
      if k in files {
        TextsEmpty(log, layout[k]);
      }
    }
  }

  lemma BelowWithin(a: seq<nat>, b: seq<nat>, n: nat)
    requires Within(a, b) && Below(b, n)
    ensures Below(a, n)
  {
  }

  // ----- The files an earlier log left -----

  function Contents(files: map<nat, Bytes>, n: nat): seq<Bytes> {
    Chunk(FileAt(files, n)) + if n == 0 then [] else Contents(files, n - 1)
  }

  lemma {:induction false} ContentsNotEmpty(files: map<nat, Bytes>, n: nat)
    ensures NoneEmpty(Contents(files, n))
  {
    if n > 0 {
      ContentsNotEmpty(files, n - 1);
    }
  }

  lemma {:induction false} ContentsTail(files: map<nat, Bytes>, n: nat, m: nat)
    requires m <= n
    ensures IsSuffix(Contents(files, m), Contents(files, n))
  {
    if m < n {
      ContentsTail(files, n - 1, m);
      SuffixBehind(Contents(files, m), Chunk(FileAt(files, n)), Contents(files, n - 1));
    }
  }

  /** Every non-empty file counts as one write; the oldest comes first. */
  function Numbering(files: map<nat, Bytes>, n: nat): map<nat, seq<nat>> {
    map k: nat | k in files && k <= n :: NumberOf(files, n, k)
  }

  function NumberOf(files: map<nat, Bytes>, n: nat, k: nat): seq<nat>
    requires k <= n
  {
    ContentsTail(files, n, k);
    if FileAt(files, k) == [] then [] else [|Contents(files, n)| - |Contents(files, k)|]
  }

  lemma NumberingLaid(files: map<nat, Bytes>, n: nat)
    ensures Laid(files, Numbering(files, n), Contents(files, n), n)
  {
    var log, layout := Contents(files, n), Numbering(files, n);
    forall k | 0 <= k <= n && k in files ensures Below(layout[k], |log|) && files[k] == Texts(log, layout[k]) {
      NumberTells(files, n, k);
    }
  }

  lemma NumberTells(files: map<nat, Bytes>, n: nat, k: nat)
    requires k <= n
    ensures var log, ids := Contents(files, n), NumberOf(files, n, k);
      Below(ids, |log|) && FileAt(files, k) == Texts(log, ids)
  {
    var log, c := Contents(files, n), Contents(files, k);
    ContentsTail(files, n, k);
    if FileAt(files, k) != [] {
      assert c[0] == FileAt(files, k) && log[|log| - |c|..][0] == c[0];
      OneText(log, |log| - |c|);
    }
  }

  lemma OneText(log: seq<Bytes>, i: nat)
    requires i < |log|
    ensures Below([i], |log|) && Texts(log, [i]) == log[i]
  {
    assert [i][1..] == [];
    assert Texts(log, [i]) == log[i] + [];
  }

  lemma SpanJoin(lo: nat, mid: nat, hi: nat)
    requires lo <= mid <= hi
    ensures Span(lo, mid) + Span(mid, hi) == Span(lo, hi)
  {
  }

  function SizeBelow(files: map<nat, Bytes>, k: nat): nat {
    if k == 0 then 0 else |Contents(files, k - 1)|
  }

  /** File k holds the numbers of its place, counted from the end. */
  predicate Numbered(layout: map<nat, seq<nat>>, files: map<nat, Bytes>, n: nat, k: nat) {
    FileSpans(layout, k, SizeBelow(files, k), |Contents(files, k)|, |Contents(files, n)|)
  }

  predicate FileSpans(layout: map<nat, seq<nat>>, k: nat, below: nat, upTo: nat, size: nat) {
    below <= upTo <= size && FileAt(layout, k) == Span(size - upTo, size - below)
  }

  predicate FilesSpan(layout: map<nat, seq<nat>>, k: nat, upTo: nat, size: nat) {
    upTo <= size && Read(layout, k) == Span(size - upTo, size)
  }

  lemma NumberAt(files: map<nat, Bytes>, n: nat, k: nat)
    requires k <= n
    ensures Numbered(Numbering(files, n), files, n, k)
  {
    ContentsTail(files, n, k);
  }

  lemma SpansFirst(layout: map<nat, seq<nat>>, upTo: nat, size: nat)
    requires FileSpans(layout, 0, 0, upTo, size)
    ensures FilesSpan(layout, 0, upTo, size)
  {
    assert Read(layout, 0) == FileAt(layout, 0) + [];
  }

  lemma SpansNext(layout: map<nat, seq<nat>>, k: nat, below: nat, upTo: nat, size: nat)
    requires k > 0 && FileSpans(layout, k, below, upTo, size) && FilesSpan(layout, k - 1, below, size)
    ensures FilesSpan(layout, k, upTo, size)
  {
    SpanJoin(size - upTo, size - below, size);
  }

  lemma {:induction false} NumberedReads(layout: map<nat, seq<nat>>, files: map<nat, Bytes>, n: nat, m: nat)
    requires forall k :: 0 <= k <= m ==> Numbered(layout, files, n, k)
    ensures FilesSpan(layout, m, |Contents(files, m)|, |Contents(files, n)|)
    decreases m
  {
    assert Numbered(layout, files, n, m);
    if m == 0 {
      SpansFirst(layout, |Contents(files, 0)|, |Contents(files, n)|);
    } else {
      NumberedReads(layout, files, n, m - 1);
      SpansNext(layout, m, SizeBelow(files, m), |Contents(files, m)|, |Contents(files, n)|);
    }
  }

  lemma NumberingIsSpan(files: map<nat, Bytes>, n: nat)
    ensures Read(Numbering(files, n), n) == Span(0, |Contents(files, n)|)
  {
    forall k | 0 <= k <= n ensures Numbered(Numbering(files, n), files, n, k) {
      NumberAt(files, n, k);
    }
    NumberedReads(Numbering(files, n), files, n, n);
  }

  lemma NumberingIsValid(files: map<nat, Bytes>, n: nat)
    ensures var log, layout := Contents(files, n), Numbering(files, n);
      var ids := Read(layout, n);
      && NoneEmpty(log) && Laid(files, layout, log, n)
      && ids == Span(0, |log|) && Ascending(ids) && Below(ids, |log|) && IsSuffix(ids, Span(0, |log|))
  {
    ContentsNotEmpty(files, n);
    NumberingLaid(files, n);
    NumberingIsSpan(files, n);
    SpanAscends(|Contents(files, n)|);
  }

  lemma SpanAscends(n: nat)
    ensures Ascending(Span(0, n)) && Below(Span(0, n), n) && IsSuffix(Span(0, n), Span(0, n))
  {
    assert Span(0, n)[0..] == Span(0, n);
  }

  /** Appending the next numbers keeps the order, and closes or opens no gap. */
  lemma NumberAppended(ids: seq<nat>, n: nat, m: nat)
    requires Ascending(ids) && Below(ids, n) && n <= m <= n + 1
    ensures var longer := ids + Span(n, m);
      && Ascending(longer) && Below(longer, m)
      && (IsSuffix(longer, Span(0, m)) <==> IsSuffix(ids, Span(0, n)))
  {
    var longer := ids + Span(n, m);
    if m == n {
      assert longer == ids;
    } else {
      SpanStep(longer, m);
      assert longer[..|longer| - 1] == ids;
    }
  }

  // ----- The log and its steps -----

  /** How the operating system behaves during one Write: bytes taken, whether it reports an error, which renames
      (by source) fail, whether reopening fails. */
  datatype Io = Io(taken: nat, writeFails: bool, renameFails: nat -> bool, openFails: bool)

  datatype Limits = Limits(maxSize: int, backups: nat)

  /** The files of a log, the writer's state, every write ever handed to the log, and the numbers of those that each
      file holds. */
  datatype Log = Log(files: map<nat, Bytes>, open: bool, written: nat, writes: seq<Bytes>, layout: map<nat, seq<nat>>)

  /** The numbers of the writes on disk, from the oldest file to the newest. */
  function OnDisk(lim: Limits, s: Log): seq<nat> {
    Read(s.layout, lim.backups)
  }

  /** Whatever failed, the files hold whole writes, none twice, in the order they were made; and all of them if there
      are no backups. */
  ghost predicate Sound(lim: Limits, s: Log) {
    && NoneEmpty(s.writes) && Laid(s.files, s.layout, s.writes, lim.backups)
    && Ascending(OnDisk(lim, s)) && Below(OnDisk(lim, s), |s.writes|)
    && (s.open ==> 0 in s.files)
    && (lim.backups == 0 ==> OnDisk(lim, s) == Span(0, |s.writes|))
  }

  /** The writes on disk are the last ones, with none missing in between. */
  predicate Gapless(lim: Limits, s: Log) {
    IsSuffix(OnDisk(lim, s), Span(0, |s.writes|))
  }

  /** The size counter is right. */
  predicate Counted(s: Log) {
    s.open && 0 in s.files && s.written == |s.files[0]|
  }

  function Appended(s: Log, p: Bytes): Log {
    var more := s.writes + Chunk(p);
    s.(files := s.files[0 := FileAt(s.files, 0) + p], written := s.written + |p|, writes := more,
       layout := s.layout[0 := FileAt(s.layout, 0) + Span(|s.writes|, |more|)])
  }

  function RotatedLog(lim: Limits, s: Log, io: Io): Log {
    s.(files := Rotated(s.files, lim.backups, io.renameFails, io.openFails),
       layout := Rotated(s.layout, lim.backups, io.renameFails, io.openFails),
       open := !io.openFails, written := if io.openFails then s.written else 0)
  }

  predicate Legal(p: Bytes, io: Io) {
    io.taken <= |p| && (!io.writeFails ==> io.taken == |p|)
  }

  /** Whether a write makes the log rotate. */
  predicate Rotates(lim: Limits, s: Log, p: Bytes, io: Io) {
    s.open && !io.writeFails && lim.maxSize > 0 && s.written + io.taken >= lim.maxSize
  }

  function AfterWrite(lim: Limits, s: Log, p: Bytes, io: Io): Log
    requires Legal(p, io)
  {
    if !s.open then s
    else if Rotates(lim, s, p, io) then RotatedLog(lim, Appended(s, p[..io.taken]), io)
    else Appended(s, p[..io.taken])
  }

  /** Whether a write makes the log lose a file out of the middle. */
  predicate WriteLoses(lim: Limits, s: Log, p: Bytes, io: Io)
    requires Legal(p, io)
  {
    Rotates(lim, s, p, io)
    && LosesMiddle(Appended(s, p[..io.taken]).files, lim.backups, io.renameFails, lim.backups)
  }

  lemma AppendKeeps(lim: Limits, s: Log, p: Bytes)
    requires Sound(lim, s) && s.open
    ensures var t := Appended(s, p);
      && Sound(lim, t) && OnDisk(lim, t) == OnDisk(lim, s) + Span(|s.writes|, |t.writes|)
      && (Gapless(lim, t) <==> Gapless(lim, s))
  {
    var more := s.writes + Chunk(p);
    ReadAppend(s.layout, lim.backups, Span(|s.writes|, |more|));
    LaidAppend(s.files, s.layout, s.writes, lim.backups, p);
    NumberAppended(OnDisk(lim, s), |s.writes|, |more|);
    if lim.backups == 0 {
      SpanJoin(0, |s.writes|, |more|);
    }
  }

  /** A rotation that loses no middle and replaces every file that holds a write from before the last gap. */
  predicate Heals(lim: Limits, s: Log, io: Io) {
    && !LosesMiddle(s.files, lim.backups, io.renameFails, lim.backups)
    && OldGone(s.layout, lim.backups, io.renameFails, lim.backups, TailBegin(OnDisk(lim, s), |s.writes|))
  }

  /** After a rotation the disk is the end of the log exactly when it loses no middle and replaces every file that holds
      a write from before the last gap; if there was no gap, when it loses no middle. */
  lemma RotationKeeps(lim: Limits, s: Log, io: Io)
    requires Sound(lim, s)
    ensures var t := RotatedLog(lim, s, io);
      && Sound(lim, t) && (Gapless(lim, t) <==> Heals(lim, s, io))
      && (Gapless(lim, s) ==> (Gapless(lim, t) <==> !LosesMiddle(s.files, lim.backups, io.renameFails, lim.backups)))
  {
    RotatedLaid(s.files, s.layout, s.writes, lim.backups, io.renameFails, io.openFails);
    LosesAlike(s.files, s.layout, s.writes, lim.backups, io.renameFails);
    RotatedTailIff(s.layout, lim.backups, io.renameFails, io.openFails, |s.writes|);
    BelowWithin(OnDisk(lim, RotatedLog(lim, s, io)), OnDisk(lim, s), |s.writes|);
    if lim.backups == 0 {
      RotatedRead(s.layout, 0, io.renameFails, io.openFails);
    }
  }

  /** A write keeps the log sound, and a gapless disk gapless exactly unless it loses a middle. */
  lemma WriteKeeps(lim: Limits, s: Log, p: Bytes, io: Io)
    requires Sound(lim, s) && Legal(p, io)
    ensures var t := AfterWrite(lim, s, p, io);
      && Sound(lim, t) && t.writes == s.writes + (if s.open then Chunk(p[..io.taken]) else [])
      && (Gapless(lim, s) ==> (Gapless(lim, t) <==> !WriteLoses(lim, s, p, io)))
  {
    if s.open {
      AppendKeeps(lim, s, p[..io.taken]);
      RotationKeeps(lim, Appended(s, p[..io.taken]), io);
    }
  }

  /** When the current file can be moved away the size counter stays right; and when it is right after a successful
      write, the current file is below the limit. */
  lemma WriteStaysSmall(lim: Limits, s: Log, p: Bytes, io: Io)
    requires Legal(p, io)
    ensures var t := AfterWrite(lim, s, p, io);
      && (Counted(s) && (Rotates(lim, s, p, io) ==> lim.backups >= 1 && !io.renameFails(0)) && t.open ==> Counted(t))
      && (s.open && !io.writeFails && lim.maxSize > 0 && Counted(t) ==> |t.files[0]| < lim.maxSize)
  {
    if Rotates(lim, s, p, io) {
      ShiftedAt(Appended(s, p[..io.taken]).files, lim.backups, io.renameFails, 0);
    }
  }

  // ----- The writer -----

  class RotatingLogWriter {
    /** Content of the files in the log directory that belong to this log. */
    var files: map<nat, Bytes>
    var open: bool
    var written: nat
    const maxSize: int
    const backups: nat

    /** Everything ever handed to the log, write by write, and the numbers of the writes each file holds. */
    ghost var writes: seq<Bytes>
    ghost var layout: map<nat, seq<nat>>

    ghost function View(): Log
      reads this
    {
      Log(files, open, written, writes, layout)
    }

    ghost function Bounds(): Limits {
      Limits(maxSize, backups)
    }

    ghost predicate Valid()
      reads this
    {
      Sound(Bounds(), View())
    }

    ghost predicate Intact()
      reads this
    {
      Gapless(Bounds(), View())
    }

    /** A log over whatever files an earlier one left. The size counter starts at the size of the current file, or at
        zero when that cannot be read. */
    constructor (existing: map<nat, Bytes>, maxSize: int, backups: nat, statFails: bool)
      ensures Valid() && Intact() && open && this.maxSize == maxSize && this.backups == backups
      ensures files == existing[0 := FileAt(existing, 0)] && written == if statFails then 0 else |files[0]|
    {
      var all := existing[0 := FileAt(existing, 0)];
      this.maxSize, this.backups, open, files := maxSize, backups, true, all;
      written := if statFails then 0 else |all[0]|;
      writes, layout := Contents(all, backups), Numbering(all, backups);
      NumberingIsValid(all, backups);
    }

    /** Appends p, and rotates once the file has reached the limit. The files stay the end of the log exactly unless a
        rotation loses a middle. */
    method Write(p: Bytes, io: Io) returns (n: nat, failed: bool)
      requires Valid() && Legal(p, io)
      modifies this
      ensures Valid() && View() == AfterWrite(Bounds(), old(View()), p, io)
      ensures if old(open) then n == io.taken && failed == io.writeFails else n == 0 && failed
      ensures writes == old(writes) + if old(open) then Chunk(p[..n]) else []
      ensures old(Intact()) ==> (Intact() <==> !WriteLoses(Bounds(), old(View()), p, io))
    {
      WriteKeeps(Bounds(), View(), p, io);
      if !open {
        return 0, true;
      }
      n, failed := io.taken, io.writeFails;
      AppendToCurrent(p[..n]);
      if failed {
        return;
      }
      if maxSize > 0 && written >= maxSize {
        Rotate(io);
      }
    }

    method AppendToCurrent(chunk: Bytes)
      requires Valid() && open
      modifies this`files, this`written, this`layout, this`writes
      ensures Valid() && View() == Appended(old(View()), chunk) && Intact() == old(Intact())
    {
      AppendKeeps(Bounds(), View(), chunk);
      layout := layout[0 := FileAt(layout, 0) + Span(|writes|, |writes + Chunk(chunk)|)];
      writes := writes + Chunk(chunk);
      files := files[0 := files[0] + chunk];
      written := written + |chunk|;
    }

    method Rotate(io: Io)
      requires Valid() && open
      modifies this
      ensures Valid() && View() == RotatedLog(Bounds(), old(View()), io)
      ensures old(Intact()) ==> (Intact() <==> !LosesMiddle(old(files), backups, io.renameFails, backups))
      ensures Intact() <==> Heals(Bounds(), old(View()), io)
    {
      RotationKeeps(Bounds(), View(), io);
      layout := Rotated(layout, backups, io.renameFails, io.openFails);
      open := false;
      ShiftBackups(io);
      if io.openFails {
        return;
      }
      Reopen();
    }

    method Reopen()
      modifies this`files, this`open, this`written
      ensures files == Reopened(old(files), false) && open && written == 0
    {
      if 0 !in files {
        files := files[0 := []];
      }
      open := true;
      written := 0;
    }

    method ShiftBackups(io: Io)
      modifies this`files
      ensures files == Shifted(old(files), backups, io.renameFails)
    {
      var i := backups;
      while i > 1
        invariant 0 <= i <= backups && (backups >= 1 ==> i >= 1)
        invariant Shifted(files, i, io.renameFails) == Shifted(old(files), backups, io.renameFails)
      {
        files := Rename(files, i - 1, i, io.renameFails(i - 1));
        i := i - 1;
      }
      if backups >= 1 {
        files := Rename(files, 0, 1, io.renameFails(0));
      }
    }

    method Close()
      modifies this`open
      requires Valid()
      ensures Valid() && View() == old(View()).(open := false)
    {
      open := false;
    }
  }

  /** Opening a log: no writer when the current file cannot be opened. */
  method NewRotatingLogWriter(existing: map<nat, Bytes>, maxSize: int, backups: nat, openFails: bool, statFails: bool)
      returns (w: Option<RotatingLogWriter>)
    ensures w.None? <==> openFails
    ensures w.Some? ==> fresh(w.value) && w.value.Valid() && w.value.Intact() && w.value.open
    ensures w.Some? ==> w.value.Bounds() == Limits(maxSize, backups) && w.value.files == existing[0 := FileAt(existing, 0)]
    ensures w.Some? ==> (Counted(w.value.View()) <==> !statFails || FileAt(existing, 0) == [])
  {
    if openFails {
      return None;
    }
    var log := new RotatingLogWriter(existing, maxSize, backups, statFails);
    w := Some(log);
  }

  lemma {:induction false} ReadIsTexts(files: map<nat, Bytes>, layout: map<nat, seq<nat>>, log: seq<Bytes>, n: nat)
    requires Laid(files, layout, log, n)
    ensures Below(Read(layout, n), |log|) && Read(files, n) == Texts(log, Read(layout, n))
  {
    if n > 0 {
      ReadIsTexts(files, layout, log, n - 1);
    }
    TextsConcat(log, FileAt(layout, n), if n == 0 then [] else Read(layout, n - 1));
  }

  /** Whatever fails, the bytes on disk, oldest file first, are whole writes in the order they were made. */
  lemma DiskIsOrdered(lim: Limits, s: Log)
    requires Sound(lim, s)
    ensures Ascending(OnDisk(lim, s)) && Below(OnDisk(lim, s), |s.writes|)
    ensures Read(s.files, lim.backups) == Texts(s.writes, OnDisk(lim, s))
  {
    ReadIsTexts(s.files, s.layout, s.writes, lim.backups);
  }

  /** While no write is missing in between, they are the end of all bytes ever handed to the log. */
  lemma DiskIsSuffix(lim: Limits, s: Log)
    requires Sound(lim, s) && Gapless(lim, s)
    ensures IsSuffix(Read(s.files, lim.backups), Flat(s.writes))
    ensures var n := |s.writes| - |OnDisk(lim, s)|; 0 <= n && Read(s.files, lim.backups) == Flat(s.writes[n..])
  {
    var n := |s.writes| - |OnDisk(lim, s)|;
    DiskIsOrdered(lim, s);
    TextsOfTail(s.writes, OnDisk(lim, s));
    assert s.writes == s.writes[..n] + s.writes[n..];
    FlatConcat(s.writes[..n], s.writes[n..]);
    SuffixOfConcat(Flat(s.writes[..n]), Flat(s.writes[n..]));
  }

  lemma SuffixOfConcat<T>(a: seq<T>, b: seq<T>)
    ensures IsSuffix(b, a + b)
  {
  }

  lemma {:induction false} FlatConcat(a: seq<Bytes>, b: seq<Bytes>)
    ensures Flat(a + b) == Flat(a) + Flat(b)
  {
    if a == [] {
      assert a + b == b;
    } else {
      assert (a + b)[1..] == a[1..] + b;
      FlatConcat(a[1..], b);
      B.Assoc(a[0], Flat(a[1..]), Flat(b));
    }
  }

  lemma TextsOfTail(log: seq<Bytes>, ids: seq<nat>)
    requires Below(ids, |log|) && IsSuffix(ids, Span(0, |log|))
    ensures |ids| <= |log| && Texts(log, ids) == Flat(log[|log| - |ids|..])
  {
    var n := |log| - |ids|;
    assert Span(0, |log|)[n..] == Span(n, |log|);
    TextsOfSpan(log, n);
  }

  /** Without backups rotating reopens the same file for appending, so the limit has no effect: the current file
      holds every byte of the log, and is below the limit only while the whole log is. */
  lemma ZeroBackupsNeverCut(lim: Limits, s: Log)
    requires Sound(lim, s) && s.open && lim.backups == 0
    ensures s.files[0] == Flat(s.writes)
  {
    DiskIsSuffix(lim, s);
    assert Read(s.files, 0) == s.files[0] + [];
    assert s.writes[0..] == s.writes;
  }
}
