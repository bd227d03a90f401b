/** Whole lives of a log: any list of writes, whatever the operating system does (app/agentruntime/log_rotate.go). */
module LogRuns {
  import opened Rotation
  import opened LogRotate

  /** One call of Write and what the operating system does during it. */
  datatype Call = Call(data: Bytes, io: Io)

  predicate AllLegal(calls: seq<Call>) {
    forall k :: 0 <= k < |calls| ==> Legal(calls[k].data, calls[k].io)
  }

  /** The log after these writes. */
  function After(lim: Limits, s: Log, calls: seq<Call>): Log
    requires AllLegal(calls)
  {
    if calls == [] then s
    else
      var c := calls[|calls| - 1];
      AfterWrite(lim, After(lim, s, calls[..|calls| - 1]), c.data, c.io)
  }

  lemma AfterStep(lim: Limits, s: Log, calls: seq<Call>, k: nat)
    requires AllLegal(calls) && k < |calls|
    ensures After(lim, s, calls[..k + 1]) == AfterWrite(lim, After(lim, s, calls[..k]), calls[k].data, calls[k].io)
  {
    assert calls[..k + 1][..k] == calls[..k] && calls[..k + 1][k] == calls[k];
  }

  // ----- What holds after every write -----

  lemma {:induction false} RunKeeps(lim: Limits, s: Log, calls: seq<Call>, k: nat)
    requires Sound(lim, s) && AllLegal(calls) && k <= |calls|
    ensures Sound(lim, After(lim, s, calls[..k]))
  {
    if k > 0 {
      RunKeeps(lim, s, calls, k - 1);
      StepKeeps(lim, s, calls, k - 1);
    } else {
      assert calls[..0] == [];
    }
  }

  lemma StepKeeps(lim: Limits, s: Log, calls: seq<Call>, k: nat)
    requires AllLegal(calls) && k < |calls| && Sound(lim, After(lim, s, calls[..k]))
    ensures Sound(lim, After(lim, s, calls[..k + 1]))
  {
    AfterStep(lim, s, calls, k);
    WriteKeeps(lim, After(lim, s, calls[..k]), calls[k].data, calls[k].io);
  }

  /** What the log took in: of every write made while it was open the bytes that were written. */
  function Taken(lim: Limits, s: Log, calls: seq<Call>): Bytes
    requires AllLegal(calls)
  {
    if calls == [] then []
    else
      var before, c := calls[..|calls| - 1], calls[|calls| - 1];
      Taken(lim, s, before) + if After(lim, s, before).open then c.data[..c.io.taken] else []
  }

  lemma {:induction false} WritesAreTaken(lim: Limits, s: Log, calls: seq<Call>)
    requires Sound(lim, s) && AllLegal(calls)
    ensures Flat(After(lim, s, calls).writes) == Flat(s.writes) + Taken(lim, s, calls)
    decreases |calls|
  {
    if calls != [] {
      var before, c := calls[..|calls| - 1], calls[|calls| - 1];
      WritesAreTaken(lim, s, before);
      RunKeeps(lim, s, before, |before|);
      assert before[..|before|] == before;
      OneMoreTaken(lim, After(lim, s, before), c, Flat(s.writes), Taken(lim, s, before));
    }
  }

  lemma OneMoreTaken(lim: Limits, t: Log, c: Call, first: Bytes, taken: Bytes)
    requires Sound(lim, t) && Legal(c.data, c.io) && Flat(t.writes) == first + taken
    ensures Flat(AfterWrite(lim, t, c.data, c.io).writes) == first + (taken + if t.open then c.data[..c.io.taken] else [])
  {
    var p := if t.open then c.data[..c.io.taken] else [];
    WriteKeeps(lim, t, c.data, c.io);
    OneMoreFlat(t.writes, p);
    assert (first + taken) + p == first + (taken + p);
  }

  lemma OneMoreFlat(writes: seq<Bytes>, p: Bytes)
    ensures Flat(writes + Chunk(p)) == Flat(writes) + p
  {
    FlatConcat(writes, Chunk(p));
    assert [p][1..] == [];
    assert Flat([p]) == p + Flat([]);
  }

  // ----- When the disk stays the end of the log -----

  /** Whether write k of a run loses a file out of the middle. */
  predicate LosesAt(lim: Limits, s: Log, calls: seq<Call>, k: nat)
    requires AllLegal(calls) && k < |calls|
  {
    WriteLoses(lim, After(lim, s, calls[..k]), calls[k].data, calls[k].io)
  }

  ghost predicate NoneLoses(lim: Limits, s: Log, calls: seq<Call>, n: nat)
    requires AllLegal(calls) && n <= |calls|
  {
    forall k {:trigger LosesAt(lim, s, calls, k)} :: 0 <= k < n ==> !LosesAt(lim, s, calls, k)
  }

  ghost predicate AlwaysGapless(lim: Limits, s: Log, calls: seq<Call>, n: nat)
    requires AllLegal(calls) && n <= |calls|
  {
    forall k :: 0 <= k <= n ==> Gapless(lim, After(lim, s, calls[..k]))
  }

  lemma GaplessStep(lim: Limits, s: Log, calls: seq<Call>, k: nat)
    requires Sound(lim, s) && AllLegal(calls) && k < |calls| && Gapless(lim, After(lim, s, calls[..k]))
    ensures Gapless(lim, After(lim, s, calls[..k + 1])) <==> !LosesAt(lim, s, calls, k)
  {
    RunKeeps(lim, s, calls, k);
    AfterStep(lim, s, calls, k);
    WriteKeeps(lim, After(lim, s, calls[..k]), calls[k].data, calls[k].io);
  }

  /** From a disk without gaps the disk is the end of the log after every write exactly when none loses a middle. */
  lemma {:induction false} AlwaysGaplessIff(lim: Limits, s: Log, calls: seq<Call>, n: nat)
    requires Sound(lim, s) && Gapless(lim, s) && AllLegal(calls) && n <= |calls|
    ensures AlwaysGapless(lim, s, calls, n) <==> NoneLoses(lim, s, calls, n)
  {
    if n == 0 {
      assert calls[..0] == [];
    } else {
      AlwaysGaplessIff(lim, s, calls, n - 1);
      if AlwaysGapless(lim, s, calls, n - 1) {
        assert Gapless(lim, After(lim, s, calls[..n - 1]));
        GaplessStep(lim, s, calls, n - 1);
      }
    }
  }

  /** No rename of a backup fails but, perhaps, that of the last one, which none needs. */
  ghost predicate BackupsMove(lim: Limits, calls: seq<Call>) {
    forall j, k :: 0 <= j < |calls| && 0 < k < lim.backups ==> !calls[j].io.renameFails(k)
  }

  lemma NothingLost(lim: Limits, s: Log, calls: seq<Call>, k: nat)
    requires AllLegal(calls) && BackupsMove(lim, calls) && k < |calls|
    ensures !LosesAt(lim, s, calls, k)
  {
    var t := Appended(After(lim, s, calls[..k]), calls[k].data[..calls[k].io.taken]);
    MovingLosesNothing(t.files, lim.backups, calls[k].io.renameFails);
  }

  /** While the backups can be moved, and whatever else fails, the bytes on disk are after every write the end of all
      bytes the log has taken in, and of what was there before. */
  lemma DiskStaysSuffix(lim: Limits, s: Log, calls: seq<Call>)
    requires Sound(lim, s) && Gapless(lim, s) && AllLegal(calls) && BackupsMove(lim, calls)
    ensures IsSuffix(Read(After(lim, s, calls).files, lim.backups), Flat(s.writes) + Taken(lim, s, calls))
  {
    var n := |calls|;
    forall k | 0 <= k < n ensures !LosesAt(lim, s, calls, k) {
      NothingLost(lim, s, calls, k);
    }
    AlwaysGaplessIff(lim, s, calls, n);
    assert calls[..n] == calls;
    RunKeeps(lim, s, calls, n);
    DiskIsSuffix(lim, After(lim, s, calls));
    WritesAreTaken(lim, s, calls);
  }

  // ----- The size of the current file -----

  predicate CurrentMoves(c: Call) {
    !c.io.renameFails(0) && !c.io.openFails && !c.io.writeFails
  }

  /** While the current file can be written, moved away and opened again, it is below the limit after every write. */
  lemma {:induction false} CurrentStaysSmall(lim: Limits, s: Log, calls: seq<Call>, k: nat)
    requires AllLegal(calls) && k <= |calls| && Counted(s) && lim.maxSize > 0 && lim.backups >= 1
    requires forall j :: 0 <= j < |calls| ==> CurrentMoves(calls[j])
    ensures var t := After(lim, s, calls[..k]); Counted(t) && (k > 0 ==> |t.files[0]| < lim.maxSize)
  {
    if k > 0 {
      CurrentStaysSmall(lim, s, calls, k - 1);
      AfterStep(lim, s, calls, k - 1);
      assert CurrentMoves(calls[k - 1]);
      WriteStaysSmall(lim, After(lim, s, calls[..k - 1]), calls[k - 1].data, calls[k - 1].io);
    } else {
      assert calls[..0] == [];
    }
  }
}
