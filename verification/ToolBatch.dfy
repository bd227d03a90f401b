/** Executing a turn's tool calls: batches of parallelizable calls run concurrently, everything else in turn
    (app/agentcore/loop.go, executeTools and executeParallelBatch). */
module ToolBatch {
  import opened Messages

  const MAX_PARALLEL: nat := 4

  datatype ToolOutcome = ToolOutcome(content: Content, isError: bool)

  datatype Record = Record(id: string, name: string, input: string, outcome: ToolOutcome)

  function ResultBlock(call: Block, out: ToolOutcome): Block {
    Block(ToolResult, useId := call.id, content := out.content, isError := out.isError)
  }

  const CANCELLED := "运行已取消，工具未执行"

  function CancelledBlock(call: Block): Block {
    Block(ToolResult, useId := call.id, content := Str(CANCELLED), isError := true)
  }

  function RecordOf(call: Block, out: ToolOutcome): Record {
    Record(call.id, call.name, call.input, out)
  }

  // ----- The sequential meaning -----

  /** One block per call in call order; the calls before `ran` were executed, the rest cancelled. */
  function SequentialBlocks(calls: seq<Block>, outs: nat -> ToolOutcome, ran: nat): seq<Block> {
    seq(|calls|, i requires 0 <= i < |calls| => if i < ran then ResultBlock(calls[i], outs(i)) else CancelledBlock(calls[i]))
  }

  /** The accounting entries, which are also the hook calls: executed calls only, in call order. */
  function SequentialRecords(calls: seq<Block>, outs: nat -> ToolOutcome, ran: nat): seq<Record>
    requires ran <= |calls|
  {
    seq(ran, i requires 0 <= i < ran => RecordOf(calls[i], outs(i)))
  }

  // ----- What the calls get to see -----

  /** The block that tells the model what its call brought. */
  predicate Carries(b: Block, call: Block, content: Content, isError: bool) {
    b.typ == ToolResult && b.useId == call.id && b.content == content && b.isError == isError && !b.cached
  }

  /** Every call has one block, in call order: with its tool's own output and error flag if it ran, and with a failure
      that says so if it did not. */
  predicate Delivered(results: seq<Block>, calls: seq<Block>, outs: nat -> ToolOutcome, ran: nat) {
    |results| == |calls|
    && (forall k :: 0 <= k < |results| && k < ran ==> Carries(results[k], calls[k], outs(k).content, outs(k).isError))
    && (forall k :: ran <= k < |results| ==> Carries(results[k], calls[k], Str(CANCELLED), true))
  }

  /** Every call that ran is booked once, in call order, with what it was asked and what it brought. */
  predicate Booked(records: seq<Record>, calls: seq<Block>, outs: nat -> ToolOutcome, ran: nat) {
    |records| == ran <= |calls|
    && forall k :: 0 <= k < |records| ==>
      records[k].id == calls[k].id && records[k].name == calls[k].name && records[k].input == calls[k].input
      && records[k].outcome == outs(k)
  }

  lemma SequentialDelivers(calls: seq<Block>, outs: nat -> ToolOutcome, ran: nat)
    ensures Delivered(SequentialBlocks(calls, outs, ran), calls, outs, ran)
    ensures ran <= |calls| ==> Booked(SequentialRecords(calls, outs, ran), calls, outs, ran)
  {
    var results := SequentialBlocks(calls, outs, ran);
    assert forall k :: 0 <= k < |results| ==>
      results[k] == if k < ran then ResultBlock(calls[k], outs(k)) else CancelledBlock(calls[k]);
  }

  // ----- The concurrent protocol -----

  /** A call's life: blocked on the semaphore, in its goroutine, result stored, semaphore returned, group left. */
  datatype Slot = Idle | Waiting | Flying | Written(out: ToolOutcome) | Released(out: ToolOutcome)
    | Finished(out: ToolOutcome) | Refused

  /** `settled` calls are accounted for; the current segment runs up to SegmentEnd and is launched up to `next`. */
  datatype Machine = Machine(
    slots: seq<Slot>, settled: nat, next: nat, sem: nat, group: nat, cancelled: bool,
    results: seq<Block>, records: seq<Record>)

  /** End of the segment starting at i: a maximal run of parallelizable calls, or one call alone. */
  function SegmentEnd(par: seq<bool>, i: nat): (e: nat)
    requires i < |par|
    ensures i < e <= |par|
    ensures e > i + 1 ==> forall k :: i <= k < e ==> par[k]
    ensures par[i] && e < |par| ==> !par[e]
    decreases |par| - i
  {
    if par[i] && i + 1 < |par| && par[i + 1] then SegmentEnd(par, i + 1) else i + 1
  }

  function Init(n: nat): Machine {
    Machine(seq(n, _ => Idle), 0, 0, 0, 0, false, [], [])
  }

  predicate Open(m: Machine, par: seq<bool>) {
    |m.slots| == |par| && m.settled < |par| && m.next < SegmentEnd(par, m.settled) && m.next < |m.slots|
  }

  predicate Cancel(m: Machine, m': Machine) {
    m' == m.(cancelled := true)
  }

  /** The context is checked before a call takes off; a cancelled one gets its placeholder at once. */
  predicate Refuse(m: Machine, par: seq<bool>, m': Machine) {
    Open(m, par) && m.slots[m.next] == Idle && m.cancelled
    && m' == m.(slots := m.slots[m.next := Refused], next := m.next + 1)
  }

  predicate Admit(m: Machine, par: seq<bool>, m': Machine) {
    Open(m, par) && m.slots[m.next] == Idle && !m.cancelled
    && m' == m.(slots := m.slots[m.next := Waiting], group := m.group + 1)
  }

  predicate Launch(m: Machine, par: seq<bool>, m': Machine) {
    Open(m, par) && m.slots[m.next] == Waiting && m.sem < MAX_PARALLEL
    && m' == m.(slots := m.slots[m.next := Flying], next := m.next + 1, sem := m.sem + 1)
  }

  predicate Write(m: Machine, k: nat, out: ToolOutcome, m': Machine) {
    k < |m.slots| && m.slots[k] == Flying && m' == m.(slots := m.slots[k := Written(out)])
  }

  predicate Release(m: Machine, k: nat, m': Machine) {
    k < |m.slots| && m.slots[k].Written? && m.sem > 0
    && m' == m.(slots := m.slots[k := Released(m.slots[k].out)], sem := m.sem - 1)
  }

  predicate Leave(m: Machine, k: nat, m': Machine) {
    k < |m.slots| && m.slots[k].Released? && m.group > 0
    && m' == m.(slots := m.slots[k := Finished(m.slots[k].out)], group := m.group - 1)
  }

  /** The block in a call's slot of the shared result slice. */
  function SlotBlock(call: Block, s: Slot): Block {
    match s
    case Written(out) => ResultBlock(call, out)
    case Released(out) => ResultBlock(call, out)
    case Finished(out) => ResultBlock(call, out)
    case _ => CancelledBlock(call)
  }

  function SlotRecord(call: Block, s: Slot): seq<Record> {
    if s.Finished? then [RecordOf(call, s.out)] else []
  }

  function SegmentBlocks(calls: seq<Block>, slots: seq<Slot>, i: nat, e: nat): seq<Block>
    requires i <= e <= |calls| == |slots|
  {
    if i == e then [] else SegmentBlocks(calls, slots, i, e - 1) + [SlotBlock(calls[e - 1], slots[e - 1])]
  }

  function SegmentRecords(calls: seq<Block>, slots: seq<Slot>, i: nat, e: nat): seq<Record>
    requires i <= e <= |calls| == |slots|
  {
    if i == e then [] else SegmentRecords(calls, slots, i, e - 1) + SlotRecord(calls[e - 1], slots[e - 1])
  }

  /** After the group has drained the segment is accounted for in call order. */
  predicate JoinGroup(m: Machine, calls: seq<Block>, par: seq<bool>, m': Machine) {
    |m.slots| == |par| == |calls| && m.settled < |par| && m.next == SegmentEnd(par, m.settled) && m.group == 0
    && m' == m.(settled := m.next,
                results := m.results + SegmentBlocks(calls, m.slots, m.settled, m.next),
                records := m.records + SegmentRecords(calls, m.slots, m.settled, m.next))
  }

  /** Any one of the goroutines or the main loop moves. */
  ghost predicate Step(m: Machine, calls: seq<Block>, par: seq<bool>, m': Machine) {
    Cancel(m, m') || Progress(m, calls, par, m')
  }

  ghost predicate Progress(m: Machine, calls: seq<Block>, par: seq<bool>, m': Machine) {
    || Refuse(m, par, m') || Admit(m, par, m') || Launch(m, par, m') || JoinGroup(m, calls, par, m')
    || (exists k: nat, out :: Write(m, k, out, m'))
    || (exists k: nat :: Release(m, k, m')) || (exists k: nat :: Leave(m, k, m'))
  }

  // ----- Counting -----

  predicate InFlight(s: Slot) {
    s.Flying? || s.Written?
  }

  predicate InGroup(s: Slot) {
    s.Waiting? || s.Flying? || s.Written? || s.Released?
  }

  function Count(slots: seq<Slot>, p: Slot -> bool): nat {
    if slots == [] then 0 else (if p(slots[0]) then 1 else 0) + Count(slots[1..], p)
  }

  lemma {:induction false} CountUpdate(slots: seq<Slot>, p: Slot -> bool, k: nat, s: Slot)
    requires k < |slots|
    ensures Count(slots[k := s], p) + (if p(slots[k]) then 1 else 0) == Count(slots, p) + (if p(s) then 1 else 0)
  {
    var g := slots[k := s];
    if k > 0 {
      CountUpdate(slots[1..], p, k - 1, s);
      assert g[1..] == slots[1..][k - 1 := s];
    }
  }

  lemma {:induction false} CountZero(slots: seq<Slot>, p: Slot -> bool)
    ensures Count(slots, p) == 0 <==> forall k :: 0 <= k < |slots| ==> !p(slots[k])
  {
    if slots != [] {
      CountZero(slots[1..], p);
      assert forall k :: 1 <= k < |slots| ==> slots[k] == slots[1..][k - 1];
      assert forall k :: 0 <= k < |slots[1..]| ==> slots[1..][k] == slots[k + 1];
    }
  }

  // ----- What every interleaving keeps -----

  /** Where the slots may stand: settled ones are over, launched ones may be anywhere, later ones untouched. */
  predicate Shape(m: Machine, par: seq<bool>) {
    && |m.slots| == |par| && m.settled <= m.next <= |par|
    && (m.settled < |par| ==> m.next <= SegmentEnd(par, m.settled))
    && (m.settled == |par| ==> m.next == |par|)
    && (forall k :: 0 <= k < m.settled ==> m.slots[k].Finished? || m.slots[k].Refused?)
    && (forall k :: m.settled <= k < m.next ==> !m.slots[k].Idle? && !m.slots[k].Waiting?)
    && (m.next < |par| ==> m.slots[m.next].Idle? || m.slots[m.next].Waiting?)
    && (m.next < |par| && m.slots[m.next].Waiting? ==> Open(m, par))
    && (forall k :: m.next < k < |par| ==> m.slots[k].Idle?)
  }

  /** Once a call has been refused the context is cancelled for good and no later call takes off. */
  predicate RefusedIsSuffix(m: Machine) {
    forall j, k :: 0 <= j < k < |m.slots| && m.slots[j].Refused? ==> m.cancelled && (m.slots[k].Refused? || m.slots[k].Idle?)
  }

  predicate RefusedOnlyCancelled(m: Machine) {
    forall j :: 0 <= j < |m.slots| && m.slots[j].Refused? ==> m.cancelled
  }

  predicate Standing(m: Machine, par: seq<bool>) {
    Shape(m, par) && RefusedIsSuffix(m) && RefusedOnlyCancelled(m)
  }

  ghost predicate Inv(m: Machine, calls: seq<Block>, par: seq<bool>) {
    && |calls| == |par| && Standing(m, par)
    && m.sem == Count(m.slots, InFlight) <= MAX_PARALLEL
    && m.group == Count(m.slots, InGroup)
    && m.results == SegmentBlocks(calls, m.slots, 0, m.settled)
    && m.records == SegmentRecords(calls, m.slots, 0, m.settled)
  }

  lemma {:induction false} CountIdle(n: nat, p: Slot -> bool)
    requires !p(Idle)
    ensures Count(seq(n, _ => Idle), p) == 0
  {
    CountZero(seq(n, _ => Idle), p);
  }

  lemma InitInv(calls: seq<Block>, par: seq<bool>)
    requires |calls| == |par|
    ensures Inv(Init(|calls|), calls, par)
  {
    CountIdle(|calls|, InFlight);
    CountIdle(|calls|, InGroup);
  }

  lemma {:induction false} SegmentUnaffected(calls: seq<Block>, a: seq<Slot>, b: seq<Slot>, i: nat, e: nat)
    requires i <= e <= |calls| == |a| == |b|
    requires forall k :: i <= k < e ==> a[k] == b[k]
    ensures SegmentBlocks(calls, a, i, e) == SegmentBlocks(calls, b, i, e)
    ensures SegmentRecords(calls, a, i, e) == SegmentRecords(calls, b, i, e)
  {
    if i < e {
      SegmentUnaffected(calls, a, b, i, e - 1);
    }
  }

  lemma {:induction false} SegmentsJoin(calls: seq<Block>, slots: seq<Slot>, i: nat, e: nat)
    requires i <= e <= |calls| == |slots|
    ensures SegmentBlocks(calls, slots, 0, e) == SegmentBlocks(calls, slots, 0, i) + SegmentBlocks(calls, slots, i, e)
    ensures SegmentRecords(calls, slots, 0, e) == SegmentRecords(calls, slots, 0, i) + SegmentRecords(calls, slots, i, e)
  {
    if i < e {
      SegmentsJoin(calls, slots, i, e - 1);
    }
  }

  lemma SlotMoveInv(m: Machine, calls: seq<Block>, par: seq<bool>, k: nat, s: Slot, m': Machine)
    requires Inv(m, calls, par) && k < |m.slots|
    requires m'.slots == m.slots[k := s] && m'.settled == m.settled && m'.cancelled == m.cancelled
    requires m'.results == m.results && m'.records == m.records
    requires m.settled <= k
    ensures m'.results == SegmentBlocks(calls, m'.slots, 0, m'.settled)
    ensures m'.records == SegmentRecords(calls, m'.slots, 0, m'.settled)
    ensures Count(m'.slots, InFlight) + (if InFlight(m.slots[k]) then 1 else 0) == m.sem + (if InFlight(s) then 1 else 0)
    ensures Count(m'.slots, InGroup) + (if InGroup(m.slots[k]) then 1 else 0) == m.group + (if InGroup(s) then 1 else 0)
  {
    CountUpdate(m.slots, InFlight, k, s);
    CountUpdate(m.slots, InGroup, k, s);
    SegmentUnaffected(calls, m.slots, m'.slots, 0, m.settled);
  }

  lemma RefuseStanding(m: Machine, par: seq<bool>, m': Machine)
    requires Standing(m, par) && Refuse(m, par, m')
    ensures Standing(m', par)
  {
  }

  lemma AdmitStanding(m: Machine, par: seq<bool>, m': Machine)
    requires Standing(m, par) && (Admit(m, par, m') || Launch(m, par, m'))
    ensures Standing(m', par)
  {
  }

  lemma WorkerStanding(m: Machine, par: seq<bool>, k: nat, s: Slot, m': Machine)
    requires Standing(m, par) && k < |m.slots|
    requires m.slots[k].Flying? || m.slots[k].Written? || m.slots[k].Released?
    requires s.Written? || s.Released? || s.Finished?
    requires m'.slots == m.slots[k := s]
    requires m'.settled == m.settled && m'.next == m.next && m'.cancelled == m.cancelled
    ensures Standing(m', par) && m.settled <= k
  {
  }

  lemma LaunchSideInv(m: Machine, calls: seq<Block>, par: seq<bool>, m': Machine)
    requires Inv(m, calls, par)
    requires Refuse(m, par, m') || Admit(m, par, m') || Launch(m, par, m')
    ensures Inv(m', calls, par)
  {
    if Refuse(m, par, m') {
      RefuseStanding(m, par, m');
    } else {
      AdmitStanding(m, par, m');
    }
    SlotMoveInv(m, calls, par, m.next, m'.slots[m.next], m');
  }

  lemma WorkerSideInv(m: Machine, calls: seq<Block>, par: seq<bool>, k: nat, out: ToolOutcome, m': Machine)
    requires Inv(m, calls, par)
    requires Write(m, k, out, m') || Release(m, k, m') || Leave(m, k, m')
    ensures Inv(m', calls, par)
  {
    WorkerStanding(m, par, k, m'.slots[k], m');
    SlotMoveInv(m, calls, par, k, m'.slots[k], m');
  }

  lemma JoinInv(m: Machine, calls: seq<Block>, par: seq<bool>, m': Machine)
    requires Inv(m, calls, par) && JoinGroup(m, calls, par, m')
    ensures Inv(m', calls, par)
  {
    CountZero(m.slots, InGroup);
    SegmentsJoin(calls, m.slots, m.settled, m.next);
  }

  /** Every step of every interleaving keeps the invariant. */
  lemma StepInv(m: Machine, calls: seq<Block>, par: seq<bool>, m': Machine)
    requires Inv(m, calls, par) && Step(m, calls, par, m')
    ensures Inv(m', calls, par)
  {
    if Cancel(m, m') {
    } else if Refuse(m, par, m') || Admit(m, par, m') || Launch(m, par, m') {
      LaunchSideInv(m, calls, par, m');
    } else if JoinGroup(m, calls, par, m') {
      JoinInv(m, calls, par, m');
    } else if k: nat, out :| Write(m, k, out, m') {
      WorkerSideInv(m, calls, par, k, out, m');
    } else if k: nat :| Release(m, k, m') {
      WorkerSideInv(m, calls, par, k, ToolOutcome(Nil, false), m');
    } else {
      var k: nat :| Leave(m, k, m');
      WorkerSideInv(m, calls, par, k, ToolOutcome(Nil, false), m');
    }
  }

  /** A run: a sequence of machines from the initial one, each a step from the last. */
  ghost predicate IsRun(run: seq<Machine>, calls: seq<Block>, par: seq<bool>) {
    && run != [] && |calls| == |par| && run[0] == Init(|calls|)
    && forall i :: 0 <= i < |run| - 1 ==> Step(run[i], calls, par, run[i + 1])
  }

  lemma {:induction false} RunInv(run: seq<Machine>, calls: seq<Block>, par: seq<bool>, i: nat)
    requires IsRun(run, calls, par) && i < |run|
    ensures Inv(run[i], calls, par)
  {
    if i == 0 {
      InitInv(calls, par);
    } else {
      RunInv(run, calls, par, i - 1);
      assert Step(run[i - 1], calls, par, run[i - 1 + 1]);
      StepInv(run[i - 1], calls, par, run[i]);
    }
  }

  /** In every state at most four tools are in flight, and whatever is in flight belongs to the current segment,
      so no two segments overlap. */
  lemma NoOverlap(run: seq<Machine>, calls: seq<Block>, par: seq<bool>, i: nat)
    requires IsRun(run, calls, par) && i < |run|
    ensures var m := run[i];
      && |m.slots| == |par|
      && Count(m.slots, InFlight) <= 4
      && forall k :: 0 <= k < |m.slots| && InGroup(m.slots[k]) ==>
           m.settled <= k && m.settled < |par| && k < SegmentEnd(par, m.settled)
  {
    RunInv(run, calls, par, i);
    ActiveInSegment(run[i], par);
  }

  lemma ActiveInSegment(m: Machine, par: seq<bool>)
    requires Shape(m, par)
    ensures forall k :: 0 <= k < |m.slots| && InGroup(m.slots[k]) ==>
      m.settled <= k && m.settled < |par| && k < SegmentEnd(par, m.settled)
  {
    forall k | 0 <= k < |m.slots| && InGroup(m.slots[k])
      ensures m.settled <= k && m.settled < |par| && k < SegmentEnd(par, m.settled)
    {
      assert k >= m.settled;
      assert k <= m.next;
    }
  }

  function RanCount(slots: seq<Slot>): (n: nat)
    ensures n <= |slots|
  {
    if slots == [] || slots[0].Refused? then 0 else 1 + RanCount(slots[1..])
  }

  lemma {:induction false} RanIsPrefix(slots: seq<Slot>)
    requires forall k :: 0 <= k < |slots| ==> slots[k].Finished? || slots[k].Refused?
    requires forall j, k :: 0 <= j < k < |slots| && slots[j].Refused? ==> slots[k].Refused?
    ensures forall k :: 0 <= k < |slots| ==> (k < RanCount(slots) <==> slots[k].Finished?)
  {
    if slots != [] && !slots[0].Refused? {
      var t := slots[1..];
      assert forall k :: 0 <= k < |t| ==> t[k] == slots[k + 1];
      RanIsPrefix(t);
      forall k | 0 <= k < |slots| ensures k < RanCount(slots) <==> slots[k].Finished? {
        if k > 0 {
          assert slots[k] == t[k - 1];
        }
      }
    }
  }

  lemma {:induction false} SegmentIsSequential(calls: seq<Block>, slots: seq<Slot>, outs: nat -> ToolOutcome, ran: nat, e: nat)
    requires |calls| == |slots| && ran <= |calls| && e <= |calls|
    requires forall k :: 0 <= k < |slots| ==> if k < ran then slots[k] == Finished(outs(k)) else slots[k].Refused?
    ensures SegmentBlocks(calls, slots, 0, e) == SequentialBlocks(calls, outs, ran)[..e]
    ensures SegmentRecords(calls, slots, 0, e) == SequentialRecords(calls, outs, ran)[..if e < ran then e else ran]
  {
    if e > 0 {
      SegmentIsSequential(calls, slots, outs, ran, e - 1);
    }
  }

  // ----- Whose result a slot holds -----

  predicate HoldsOut(s: Slot, out: ToolOutcome) {
    (s.Written? || s.Released? || s.Finished?) && s.out == out
  }

  /** A slot comes to hold a result only by its own call's goroutine writing it. */
  lemma ResultComesByWrite(m: Machine, calls: seq<Block>, par: seq<bool>, m': Machine, k: nat, out: ToolOutcome)
    requires Step(m, calls, par, m') && k < |m'.slots| && HoldsOut(m'.slots[k], out)
    ensures |m.slots| == |m'.slots|
    ensures HoldsOut(m.slots[k], out) || Write(m, k, out, m')
  {
    if Cancel(m, m') || Refuse(m, par, m') || Admit(m, par, m') || Launch(m, par, m') || JoinGroup(m, calls, par, m') {
    } else if j: nat, o :| Write(m, j, o, m') {
    } else if j: nat :| Release(m, j, m') {
    } else {
      var j: nat :| Leave(m, j, m');
    }
  }

  ghost predicate WrittenBefore(run: seq<Machine>, i: int, k: nat, out: ToolOutcome) {
    exists j :: 0 <= j < i && j + 1 < |run| && Write(run[j], k, out, run[j + 1])
  }

  lemma {:induction false} ResultWasWritten(run: seq<Machine>, calls: seq<Block>, par: seq<bool>, i: nat, k: nat, out: ToolOutcome)
    requires IsRun(run, calls, par) && i < |run| && k < |run[i].slots| && HoldsOut(run[i].slots[k], out)
    ensures WrittenBefore(run, i, k, out)
  {
    if i > 0 {
      var m, m' := run[i - 1], run[i - 1 + 1];
      assert Step(m, calls, par, m');
      ResultComesByWrite(m, calls, par, m', k, out);
      if HoldsOut(m.slots[k], out) {
        ResultWasWritten(run, calls, par, i - 1, k, out);
      }
    }
  }

  function OutsOf(slots: seq<Slot>): nat -> ToolOutcome {
    (k: nat) => if k < |slots| && slots[k].Finished? then slots[k].out else ToolOutcome(Nil, false)
  }

  lemma SettledIsSequential(m: Machine, calls: seq<Block>, par: seq<bool>)
    requires Inv(m, calls, par) && m.settled == |calls|
    ensures var outs, ran := OutsOf(m.slots), RanCount(m.slots);
      && ran <= |calls| == |m.slots|
      && m.results == SequentialBlocks(calls, outs, ran) && m.records == SequentialRecords(calls, outs, ran)
      && (ran < |calls| ==> m.cancelled)
      && (forall k :: 0 <= k < ran ==> HoldsOut(m.slots[k], outs(k)))
  {
    var outs, ran := OutsOf(m.slots), RanCount(m.slots);
    RanIsPrefix(m.slots);
    SegmentIsSequential(calls, m.slots, outs, ran, |calls|);
    assert SequentialBlocks(calls, outs, ran)[..|calls|] == SequentialBlocks(calls, outs, ran);
    assert SequentialRecords(calls, outs, ran)[..ran] == SequentialRecords(calls, outs, ran);
  }

  /** Every finished run, whatever the interleaving, ends as a sequential execution would: results one per call
      in call order, each the one its own call's goroutine wrote, records in call order, and the calls that ran are
      a prefix. */
  lemma BatchIsSequential(run: seq<Machine>, calls: seq<Block>, par: seq<bool>) returns (outs: nat -> ToolOutcome, ran: nat)
    requires IsRun(run, calls, par) && run[|run| - 1].settled == |calls|
    ensures ran <= |calls|
    ensures forall k :: 0 <= k < ran ==> WrittenBefore(run, |run| - 1, k, outs(k))
    ensures run[|run| - 1].results == SequentialBlocks(calls, outs, ran)
    ensures run[|run| - 1].records == SequentialRecords(calls, outs, ran)
    ensures Delivered(run[|run| - 1].results, calls, outs, ran) && Booked(run[|run| - 1].records, calls, outs, ran)
    ensures ran < |calls| ==> run[|run| - 1].cancelled
  {
    var last := |run| - 1;
    RunInv(run, calls, par, last);
    SettledIsSequential(run[last], calls, par);
    outs, ran := OutsOf(run[last].slots), RanCount(run[last].slots);
    SequentialDelivers(calls, outs, ran);
    forall k | 0 <= k < ran ensures WrittenBefore(run, last, k, outs(k)) {
      ResultWasWritten(run, calls, par, last, k, outs(k));
    }
  }

  // ----- No interleaving gets stuck -----

  function Rank(s: Slot): nat {
    match s
    case Idle => 5
    case Waiting => 4
    case Flying => 3
    case Written(_) => 2
    case Released(_) => 1
    case _ => 0
  }

  function Ranks(slots: seq<Slot>): nat {
    if slots == [] then 0 else Rank(slots[0]) + Ranks(slots[1..])
  }

  function Work(m: Machine): int {
    Ranks(m.slots) + |m.slots| - m.settled
  }

  lemma {:induction false} RanksUpdate(slots: seq<Slot>, k: nat, s: Slot)
    requires k < |slots|
    ensures Ranks(slots[k := s]) + Rank(slots[k]) == Ranks(slots) + Rank(s)
  {
    var g := slots[k := s];
    if k > 0 {
      RanksUpdate(slots[1..], k - 1, s);
      assert g[1..] == slots[1..][k - 1 := s];
    }
  }

  /** Each move other than the outside cancellation uses up work, so every run is finite. */
  lemma ProgressUsesWork(m: Machine, calls: seq<Block>, par: seq<bool>, m': Machine)
    requires Inv(m, calls, par) && Progress(m, calls, par, m')
    ensures 0 <= Work(m') < Work(m)
  {
    if Refuse(m, par, m') || Admit(m, par, m') || Launch(m, par, m') {
      SlotUsesWork(m, m.next, m'.slots[m.next], m');
    } else if !JoinGroup(m, calls, par, m') {
      WorkerUsesWork(m, m');
    }
  }

  lemma WorkerUsesWork(m: Machine, m': Machine)
    requires m.settled <= |m.slots|
    requires (exists k: nat, out :: Write(m, k, out, m'))
          || (exists k: nat :: Release(m, k, m')) || (exists k: nat :: Leave(m, k, m'))
    ensures 0 <= Work(m') < Work(m)
  {
    if k: nat, out :| Write(m, k, out, m') {
      SlotUsesWork(m, k, m'.slots[k], m');
    } else if k: nat :| Release(m, k, m') {
      SlotUsesWork(m, k, m'.slots[k], m');
    } else {
      var k: nat :| Leave(m, k, m');
      SlotUsesWork(m, k, m'.slots[k], m');
    }
  }

  lemma SlotUsesWork(m: Machine, k: nat, s: Slot, m': Machine)
    requires k < |m.slots| && m'.slots == m.slots[k := s] && m'.settled == m.settled <= |m.slots|
    requires Rank(s) < Rank(m.slots[k])
    ensures 0 <= Work(m') < Work(m)
  {
    RanksUpdate(m.slots, k, s);
  }

  /** Until all calls are settled some goroutine can move: the semaphore and the wait group never deadlock. */
  lemma NeverStuck(m: Machine, calls: seq<Block>, par: seq<bool>) returns (m': Machine)
    requires Inv(m, calls, par) && m.settled < |calls|
    ensures Progress(m, calls, par, m')
  {
    CountZero(m.slots, InGroup);
    CountZero(m.slots, InFlight);
    if m.next < SegmentEnd(par, m.settled) && (m.slots[m.next].Idle? || m.sem < MAX_PARALLEL) {
      if m.slots[m.next].Idle? {
        if m.cancelled {
          m' := m.(slots := m.slots[m.next := Refused], next := m.next + 1);
          assert Refuse(m, par, m');
        } else {
          m' := m.(slots := m.slots[m.next := Waiting], group := m.group + 1);
          assert Admit(m, par, m');
        }
      } else {
        m' := m.(slots := m.slots[m.next := Flying], next := m.next + 1, sem := m.sem + 1);
        assert Launch(m, par, m');
      }
    } else if m.next == SegmentEnd(par, m.settled) && m.group == 0 {
      m' := m.(settled := m.next,
               results := m.results + SegmentBlocks(calls, m.slots, m.settled, m.next),
               records := m.records + SegmentRecords(calls, m.slots, m.settled, m.next));
      assert JoinGroup(m, calls, par, m');
    } else {
      var k: nat :| k < |m.slots| && InGroup(m.slots[k]) && !m.slots[k].Waiting?;
      m' := WorkerMove(m, calls, par, k);
    }
  }

  lemma WorkerMove(m: Machine, calls: seq<Block>, par: seq<bool>, k: nat) returns (m': Machine)
    requires Inv(m, calls, par) && k < |m.slots| && InGroup(m.slots[k]) && !m.slots[k].Waiting?
    ensures Progress(m, calls, par, m')
  {
    CountZero(m.slots, InGroup);
    CountZero(m.slots, InFlight);
    match m.slots[k] {
      case Flying =>
        m' := m.(slots := m.slots[k := Written(ToolOutcome(Nil, false))]);
        assert Write(m, k, ToolOutcome(Nil, false), m');
      case Written(out) =>
        m' := m.(slots := m.slots[k := Released(out)], sem := m.sem - 1);
        assert Release(m, k, m');
      case Released(out) =>
        m' := m.(slots := m.slots[k := Finished(out)], group := m.group - 1);
        assert Leave(m, k, m');
    }
  }
}
