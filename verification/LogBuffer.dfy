/** The ring of recent log entries and its observers (common/logger/buffer.go). */
module LogBuffer {
  import opened Wrappers

  const DEFAULT_LOG_BUFFER_SIZE: nat := 1000

  datatype Entry = Entry(level: int, source: string, message: string)

  /** `tag` stands for the function that is called. */
  datatype Observer = Observer(tag: nat, id: nat)

  // ----- What the buffer means -----

  /** The last n of a list, all of it when there are fewer. */
  function LastN<T>(n: nat, s: seq<T>): (r: seq<T>)
    ensures |r| == if |s| < n then |s| else n
  {
    if |s| > n then s[|s| - n..] else s
  }

  predicate Matches(e: Entry, level: int, source: string) {
    (level == 0 || e.level == level) && (source == "" || e.source == source)
  }

  function Matching(es: seq<Entry>, level: int, source: string): seq<Entry> {
    if es == [] then [] else (if Matches(es[0], level, source) then [es[0]] else []) + Matching(es[1..], level, source)
  }

  function Limited(limit: int, es: seq<Entry>): seq<Entry> {
    if limit > 0 then LastN(limit, es) else es
  }

  lemma {:induction false} MatchingAppend(a: seq<Entry>, b: seq<Entry>, level: int, source: string)
    ensures Matching(a + b, level, source) == Matching(a, level, source) + Matching(b, level, source)
  {
    if a == [] {
      assert a + b == b;
    } else {
      assert (a + b)[1..] == a[1..] + b;
      MatchingAppend(a[1..], b, level, source);
    }
  }

  /** Entry k is among the matching ones, behind those before it, exactly when its level and its source are asked for;
      zero and "" ask for all. */
  lemma MatchingIff(es: seq<Entry>, k: nat, level: int, source: string)
    requires k < |es|
    ensures var n := |Matching(es[..k], level, source)|;
      var asked := (level == 0 || level == es[k].level) && (source == "" || source == es[k].source);
      && |Matching(es[..k + 1], level, source)| == n + (if asked then 1 else 0)
      && (asked ==> n < |Matching(es, level, source)| && Matching(es, level, source)[n] == es[k])
  {
    var one := [es[k]];
    assert one[1..] == [];
    assert es[..k + 1] == es[..k] + one && es == es[..k + 1] + es[k + 1..];
    MatchingAppend(es[..k], one, level, source);
    MatchingAppend(es[..k + 1], es[k + 1..], level, source);
  }

  /** Reading the ring is reading the end of everything ever appended: when enough matching entries are still in it,
      the answer is the same as if nothing had ever been dropped. */
  lemma WindowShowsTheEnd(history: seq<Entry>, size: nat, limit: nat, level: int, source: string)
    requires 0 < limit <= |Matching(LastN(size, history), level, source)|
    ensures Limited(limit, Matching(LastN(size, history), level, source)) == Limited(limit, Matching(history, level, source))
  {
    var window := LastN(size, history);
    var dropped := history[..|history| - |window|];
    assert history == dropped + window;
    MatchingAppend(dropped, window, level, source);
    LastNOfEnd(limit, Matching(dropped, level, source), Matching(window, level, source));
  }

  lemma LastNOfEnd<T>(n: nat, a: seq<T>, b: seq<T>)
    requires n <= |b|
    ensures LastN(n, a + b) == LastN(n, b)
  {
    assert (a + b)[|a| + |b| - n..] == b[|b| - n..];
  }

  /** The last of a list after one more entry. */
  lemma LastNAppend<T>(n: nat, s: seq<T>, x: T)
    requires n > 0
    ensures LastN(n, s + [x]) == if |s| < n then s + [x] else LastN(n, s)[1..] + [x]
  {
    var all := s + [x];
    if |s| < n {
      assert LastN(n, all) == all;
    } else {
      var from := |s| + 1 - n;
      assert LastN(n, all) == all[from..] == s[from..] + [x];
      assert LastN(n, s) == s[from - 1..];
      assert s[from - 1..][1..] == s[from..];
    }
  }

  // ----- Observers -----

  predicate DistinctIds(os: seq<Observer>, next: nat) {
    && (forall i :: 0 <= i < |os| ==> os[i].id < next)
    && (forall i, j :: 0 <= i < j < |os| ==> os[i].id != os[j].id)
  }

  function Without(os: seq<Observer>, id: nat): seq<Observer> {
    if os == [] then [] else (if os[0].id == id then [] else [os[0]]) + Without(os[1..], id)
  }

  function Tags(os: seq<Observer>): seq<nat> {
    seq(|os|, i requires 0 <= i < |os| => os[i].tag)
  }

  lemma {:induction false} WithoutAbsent(os: seq<Observer>, id: nat)
    requires forall i :: 0 <= i < |os| ==> os[i].id != id
    ensures Without(os, id) == os
  {
    if os != [] {
      WithoutAbsent(os[1..], id);
    }
  }

  lemma {:induction false} WithoutAt(os: seq<Observer>, k: nat, next: nat)
    requires DistinctIds(os, next) && k < |os|
    ensures Without(os, os[k].id) == os[..k] + os[k + 1..]
  {
    if k == 0 {
      WithoutAbsent(os[1..], os[0].id);
    } else {
      WithoutAt(os[1..], k - 1, next);
      assert os[1..][..k - 1] == os[1..k] && os[1..][k..] == os[k + 1..];
      assert os[..k] == [os[0]] + os[1..k];
    }
  }

  lemma {:induction false} WithoutHasNone(os: seq<Observer>, id: nat)
    ensures forall i :: 0 <= i < |Without(os, id)| ==> Without(os, id)[i].id != id
  {
    if os != [] {
      WithoutHasNone(os[1..], id);
    }
  }

  /** Unsubscribing twice is unsubscribing once, and two unsubscriptions can come in either order. */
  lemma {:induction false} UnsubscribeAgain(os: seq<Observer>, a: nat, b: nat)
    ensures Without(Without(os, a), a) == Without(os, a)
    ensures Without(Without(os, a), b) == Without(Without(os, b), a)
  {
    WithoutHasNone(os, a);
    WithoutAbsent(Without(os, a), a);
    if os != [] {
      UnsubscribeAgain(os[1..], a, b);
      var restA, restB := Without(os[1..], a), Without(os[1..], b);
      WithoutSplit(os[0], restA, b);
      WithoutSplit(os[0], restB, a);
      assert Without(os, a) == if os[0].id == a then restA else [os[0]] + restA;
      assert Without(os, b) == if os[0].id == b then restB else [os[0]] + restB;
    }
  }

  lemma WithoutSplit(o: Observer, os: seq<Observer>, id: nat)
    ensures Without([o] + os, id) == (if o.id == id then [] else [o]) + Without(os, id)
  {
    assert ([o] + os)[1..] == os;
  }

  // ----- The ring -----

  function Wrap(i: nat, size: nat): nat {
    if i < size then i else i - size
  }

  lemma ModIsWrap(i: nat, size: nat)
    requires 0 < size && i < 2 * size
    ensures i % size == Wrap(i, size)
  {
    if i >= size {
      assert i == size * 1 + (i - size);
    }
  }

  /** The slots from `head` on hold the window, oldest first. */
  predicate Holds(slots: seq<Option<Entry>>, head: nat, window: seq<Entry>) {
    && |window| <= |slots|
    && forall i :: 0 <= i < |window| ==> head + i < 2 * |slots| && slots[Wrap(head + i, |slots|)] == Some(window[i])
  }

  lemma StoreWithRoom(slots: seq<Option<Entry>>, window: seq<Entry>, e: Entry)
    requires |window| < |slots| && Holds(slots, 0, window)
    ensures Holds(slots[|window| := Some(e)], 0, window + [e])
  {
  }

  lemma StoreOverOldest(slots: seq<Option<Entry>>, head: nat, window: seq<Entry>, e: Entry)
    requires |window| == |slots| && head < |slots| && Holds(slots, head, window)
    ensures Holds(slots[head := Some(e)], Wrap(head + 1, |slots|), window[1..] + [e])
  {
    var n := |slots|;
    var slots', head', window' := slots[head := Some(e)], Wrap(head + 1, n), window[1..] + [e];
    forall i | 0 <= i < n ensures head' + i < 2 * n && slots'[Wrap(head' + i, n)] == Some(window'[i]) {
      if i < n - 1 {
        assert window'[i] == window[i + 1];
        assert Wrap(head' + i, n) == Wrap(head + (i + 1), n) != head;
      } else {
        assert Wrap(head' + i, n) == head;
      }
    }
  }

  /** A ring of slots holds the end of a history: from its head on when full, from slot 0 on while there is room. */
  predicate Ring(slots: seq<Option<Entry>>, head: nat, tail: nat, full: bool, history: seq<Entry>) {
    && head < |slots| && tail < |slots|
    && (if full then head == tail && |history| >= |slots| else head == 0 && tail == |history| < |slots|)
    && Holds(slots, head, LastN(|slots|, history))
  }

  lemma RingWithRoom(slots: seq<Option<Entry>>, tail: nat, history: seq<Entry>, e: Entry)
    requires Ring(slots, 0, tail, false, history)
    ensures var next := Wrap(tail + 1, |slots|);
      Ring(slots[tail := Some(e)], 0, next, next == 0, history + [e])
  {
    LastNAppend(|slots|, history, e);
    StoreWithRoom(slots, LastN(|slots|, history), e);
  }

  lemma RingWhenFull(slots: seq<Option<Entry>>, head: nat, history: seq<Entry>, e: Entry)
    requires Ring(slots, head, head, true, history)
    ensures var next := Wrap(head + 1, |slots|);
      Ring(slots[head := Some(e)], next, next, true, history + [e])
  {
    LastNAppend(|slots|, history, e);
    StoreOverOldest(slots, head, LastN(|slots|, history), e);
  }

  lemma DropKeepsDistinct(os: seq<Observer>, k: nat, next: nat)
    requires DistinctIds(os, next) && k < |os|
    ensures DistinctIds(os[..k] + os[k + 1..], next)
  {
    var rest := os[..k] + os[k + 1..];
    assert forall i :: 0 <= i < |rest| ==> rest[i] == os[if i < k then i else i + 1];
  }

  class Buffer {
    var entries: array<Option<Entry>>
    var head: nat
    var tail: nat
    var isFull: bool
    const maxSize: nat
    var observers: seq<Observer>
    var nextObsId: nat

    /** Everything appended since the start or the last Clear. */
    ghost var history: seq<Entry>

    ghost predicate Valid()
      reads this, entries
    {
      && entries.Length == maxSize && Ring(entries[..], head, tail, isFull, history)
      && DistinctIds(observers, nextObsId)
    }

    ghost function Window(): seq<Entry>
      reads this
    {
      LastN(maxSize, history)
    }

    constructor (size: int)
      ensures Valid() && fresh(entries) && history == [] && observers == []
      ensures maxSize == if size <= 0 then DEFAULT_LOG_BUFFER_SIZE else size
    {
      var n := if size <= 0 then DEFAULT_LOG_BUFFER_SIZE else size;
      maxSize := n;
      entries := new Option<Entry>[n](_ => None);
      head, tail, isFull := 0, 0, false;
      observers, nextObsId, history := [], 0, [];
    }

    /** Appends and returns the observers notified, in order; nothing happens for an absent entry. */
    method Append(entry: Option<Entry>) returns (notified: seq<nat>)
      requires Valid()
      modifies this`head, this`tail, this`isFull, this`history, entries
      ensures Valid() && history == old(history) + (if entry.Some? then [entry.value] else [])
      ensures notified == if entry.Some? then Tags(observers) else []
    {
      if entry.None? {
        return [];
      }
      Store(entry.value);
      notified := Notify();
    }

    method Store(entry: Entry)
      requires Valid()
      modifies this`head, this`tail, this`isFull, this`history, entries
      ensures Valid() && history == old(history) + [entry]
    {
      if isFull {
        RingWhenFull(entries[..], head, history, entry);
      } else {
        RingWithRoom(entries[..], tail, history, entry);
      }
      ghost var slots := entries[..][tail := Some(entry)];
      ModIsWrap(tail + 1, maxSize);
      ModIsWrap(head + 1, maxSize);
      entries[tail] := Some(entry);
      assert entries[..] == slots;
      tail := (tail + 1) % maxSize;
      if isFull {
        head := (head + 1) % maxSize;
      } else if tail == head {
        isFull := true;
      }
      history := history + [entry];
    }

    method Notify() returns (notified: seq<nat>)
      ensures notified == Tags(observers)
    {
      notified := [];
      for i := 0 to |observers|
        invariant notified == Tags(observers)[..i]
      {
        notified := notified + [observers[i].tag];
      }
    }

    /** The last `limit` matching entries still held, oldest first; a limit of 0 or less means all. */
    method Get(limit: int, level: int, source: string) returns (result: seq<Entry>)
      requires Valid()
      ensures result == Limited(limit, Matching(Window(), level, source))
    {
      result := [];
      var n := if isFull then maxSize else tail;
      assert n == |Window()|;
      for i := 0 to n
        invariant result == Matching(Window()[..i], level, source)
      {
        ModIsWrap(head + i, maxSize);
        var idx := if isFull then (head + i) % maxSize else i;
        var entry := entries[idx];
        assert entry == entries[..][Wrap(head + i, maxSize)];
        assert entry == Some(Window()[i]);
        assert Window()[..i + 1] == Window()[..i] + [Window()[i]];
        MatchingAppend(Window()[..i], [Window()[i]], level, source);
        assert [Window()[i]][1..] == [];
        if entry.Some? && Matches(entry.value, level, source) {
          result := result + [entry.value];
        }
      }
      assert Window()[..n] == Window();
      if limit > 0 && |result| > limit {
        result := result[|result| - limit..];
      }
    }

    method Size() returns (n: nat)
      requires Valid()
      ensures n == if |history| < maxSize then |history| else maxSize
    {
      n := if isFull then maxSize else tail;
    }

    method Clear()
      requires Valid()
      modifies this`entries, this`head, this`tail, this`isFull, this`history
      ensures Valid() && fresh(entries) && history == []
    {
      entries := new Option<Entry>[maxSize](_ => None);
      head, tail, isFull, history := 0, 0, false, [];
    }

    /** Registers an observer; the id is what the returned unsubscribe function remembers. */
    method Subscribe(tag: nat) returns (id: nat)
      requires Valid()
      modifies this`observers, this`nextObsId
      ensures Valid() && observers == old(observers) + [Observer(tag, id)]
      ensures forall i :: 0 <= i < |old(observers)| ==> old(observers)[i].id != id
    {
      id := nextObsId;
      nextObsId := nextObsId + 1;
      observers := observers + [Observer(tag, id)];
    }

    /** Removes the observer with this id, if it is still there, and no other; the rest keep their order. */
    method Unsubscribe(id: nat)
      requires Valid()
      modifies this`observers
      ensures Valid() && observers == Without(old(observers), id)
    {
      for i := 0 to |observers|
        invariant observers == old(observers) && forall k :: 0 <= k < i ==> observers[k].id != id
      {
        if observers[i].id == id {
          WithoutAt(observers, i, nextObsId);
          DropKeepsDistinct(observers, i, nextObsId);
          observers := observers[..i] + observers[i + 1..];
          return;
        }
      }
      WithoutAbsent(observers, id);
    }
  }
}
