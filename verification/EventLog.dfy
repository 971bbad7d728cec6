/** The gateway's durable per-session event log (server/src/gatewayStore.ts):
    JSONL files behind an asynchronous write queue, a bounded LRU cache of
    timeline tails, and repair of damaged files on read. */
module EventLog {
  import opened OrderedMaps

  type Sid = string

  const CACHE_MAX_SESSIONS: nat := 64
  const CACHE_MAX_ENTRIES: nat := 512
  const MAX_SAFE_INTEGER: int := 0x1F_FFFF_FFFF_FFFF

  datatype Entry = Entry(eventSeq: int, body: string)

  /** One line of an events file. A line that is not JSON is `Garbage`. */
  datatype Line = Garbage | Record(sessionId: Sid, eventSeq: Option<int>, body: string)

  datatype Cached = Cached(entries: seq<Entry>, complete: bool)

  ghost predicate Ascending(es: seq<Entry>, lo: int)
  {
    && (forall i :: 0 <= i < |es| ==> lo < es[i].eventSeq)
    && (forall i, j :: 0 <= i < j < |es| ==> es[i].eventSeq < es[j].eventSeq)
  }

  function LastSeq(es: seq<Entry>, otherwise: int): int
  {
    if es == [] then otherwise else es[|es| - 1].eventSeq
  }

  // ---- Repairing a file ----

  /** Numbers the session's readable lines: a number above the running counter
      is kept, anything else is replaced by the next one. */
  function Repair(lines: seq<Line>, s: Sid, fallback: int): seq<Entry>
  {
    if lines == [] then []
    else if lines[0].Garbage? || lines[0].sessionId != s then Repair(lines[1..], s, fallback)
    else
      var n := RepairedSeq(lines[0].eventSeq, fallback);
      [Entry(n, lines[0].body)] + Repair(lines[1..], s, n)
  }

  function RepairedSeq(explicit: Option<int>, fallback: int): (n: int)
    ensures n > fallback && (n == fallback + 1 || explicit == Some(n))
    ensures explicit.Some? && explicit.value > fallback ==> n == explicit.value
  {
    if explicit.Some? && explicit.value > fallback then explicit.value else fallback + 1
  }

  function ToLines(es: seq<Entry>, s: Sid): (r: seq<Line>)
    ensures |r| == |es|
  {
    seq(|es|, i requires 0 <= i < |es| => Record(s, Some(es[i].eventSeq), es[i].body))
  }

  /** Whatever is in the file, the repaired numbers are positive and strictly increasing. */
  lemma {:induction false} RepairAscends(lines: seq<Line>, s: Sid, fallback: int)
    ensures Ascending(Repair(lines, s, fallback), fallback)
  {
    if lines == [] {
    } else if lines[0].Garbage? || lines[0].sessionId != s {
      RepairAscends(lines[1..], s, fallback);
    } else {
      RepairAscends(lines[1..], s, RepairedSeq(lines[0].eventSeq, fallback));
    }
  }

  lemma {:induction false} RepairOfConcat(a: seq<Line>, b: seq<Line>, s: Sid, fallback: int)
    ensures Repair(a + b, s, fallback) ==
            Repair(a, s, fallback) + Repair(b, s, LastSeq(Repair(a, s, fallback), fallback))
  {
    if a == [] {
      assert a + b == b;
    } else {
      assert (a + b)[1..] == a[1..] + b;
      if a[0].Garbage? || a[0].sessionId != s {
        RepairOfConcat(a[1..], b, s, fallback);
      } else {
        var n := RepairedSeq(a[0].eventSeq, fallback);
        RepairOfConcat(a[1..], b, s, n);
        var rest := Repair(a[1..], s, n);
        assert Repair(a, s, fallback) == [Entry(n, a[0].body)] + rest;
        assert LastSeq(Repair(a, s, fallback), fallback) == LastSeq(rest, n);
      }
    }
  }

  /** Repair leaves a healthy file alone. */
  lemma {:induction false} RepairKeepsHealthy(es: seq<Entry>, s: Sid, fallback: int)
    requires Ascending(es, fallback)
    ensures Repair(ToLines(es, s), s, fallback) == es
  {
    if es == [] {
    } else {
      assert ToLines(es, s)[1..] == ToLines(es[1..], s);
      RepairKeepsHealthy(es[1..], s, es[0].eventSeq);
    }
  }

  /** The bodies of the session's readable lines, in order. */
  function BodiesOf(lines: seq<Line>, s: Sid): seq<string>
  {
    if lines == [] then []
    else (if lines[0].Garbage? || lines[0].sessionId != s then [] else [lines[0].body]) + BodiesOf(lines[1..], s)
  }

  function Bodies(es: seq<Entry>): seq<string>
  {
    if es == [] then [] else [es[0].body] + Bodies(es[1..])
  }

  /** Whatever happens to the numbers, repair keeps every readable event of the session
      with its body, in order. */
  lemma {:induction false} RepairKeepsBodies(lines: seq<Line>, s: Sid, fallback: int)
    ensures Bodies(Repair(lines, s, fallback)) == BodiesOf(lines, s)
  {
    if lines == [] {
    } else if lines[0].Garbage? || lines[0].sessionId != s {
      RepairKeepsBodies(lines[1..], s, fallback);
    } else {
      var n := RepairedSeq(lines[0].eventSeq, fallback);
      RepairKeepsBodies(lines[1..], s, n);
      var rest := Repair(lines[1..], s, n);
      assert ([Entry(n, lines[0].body)] + rest)[1..] == rest;
    }
  }

  /** Lines appended later with increasing numbers do not disturb an earlier repair. */
  lemma RepairStableUnderAppend(lines: seq<Line>, more: seq<Entry>, s: Sid)
    requires Ascending(more, LastSeq(Repair(lines, s, 0), 0))
    ensures Repair(lines + ToLines(more, s), s, 0) == Repair(lines, s, 0) + more
  {
    RepairOfConcat(lines, ToLines(more, s), s, 0);
    RepairKeepsHealthy(more, s, LastSeq(Repair(lines, s, 0), 0));
  }

  /** readEventsFromDisk: the renumbering pass over the lines of a file. */
  method ReadEventsFromDisk(lines: seq<Line>, s: Sid) returns (entries: seq<Entry>)
    ensures entries == Repair(lines, s, 0)
    ensures Ascending(entries, 0)
  {
    var fallback := 0;
    entries := [];
    for i := 0 to |lines|
      invariant fallback == LastSeq(entries, 0)
      invariant Repair(lines, s, 0) == entries + Repair(lines[i..], s, fallback)
    {
      if lines[i].Record? && lines[i].sessionId == s {
        fallback := RepairedSeq(lines[i].eventSeq, fallback);
        entries := entries + [Entry(fallback, lines[i].body)];
      }
    }
    RepairAscends(lines, s, 0);
  }

  // ---- Merging a file with a cached tail ----

  /** Sets the entry of one sequence number in a listing kept in sequence order. */
  function Put(es: seq<Entry>, e: Entry): seq<Entry>
  {
    if es == [] || es[|es| - 1].eventSeq < e.eventSeq then es + [e]
    else if es[|es| - 1].eventSeq == e.eventSeq then es[..|es| - 1] + [e]
    else Put(es[..|es| - 1], e) + [es[|es| - 1]]
  }

  function PutAll(es: seq<Entry>, more: seq<Entry>): seq<Entry>
  {
    if more == [] then es else Put(PutAll(es, more[..|more| - 1]), more[|more| - 1])
  }

  function Merge(disk: seq<Entry>, cached: seq<Entry>): seq<Entry>
  {
    if cached == [] then disk else PutAll(PutAll([], disk), cached)
  }

  /** mergeEvents: one entry per sequence number, the cached one winning, in sequence order. */
  method MergeEvents(disk: seq<Entry>, cached: seq<Entry>) returns (merged: seq<Entry>)
    ensures merged == Merge(disk, cached)
  {
    if cached == [] { return disk; }
    merged := [];
    for i := 0 to |disk|
      invariant merged == PutAll([], disk[..i])
    {
      merged := Put(merged, disk[i]);
      assert disk[..i + 1][..i] == disk[..i];
    }
    assert disk[..|disk|] == disk;
    for i := 0 to |cached|
      invariant merged == PutAll(PutAll([], disk), cached[..i])
    {
      merged := Put(merged, cached[i]);
      assert cached[..i + 1][..i] == cached[..i];
    }
    assert cached[..|cached|] == cached;
  }

  lemma {:induction false} PutPresent(es: seq<Entry>, e: Entry)
    requires Ascending(es, 0) && e in es
    ensures Put(es, e) == es
  {
    var init, last := es[..|es| - 1], es[|es| - 1];
    assert es == init + [last];
    if e != last { PutPresent(init, e); }
  }

  /** Putting back entries that are already there changes nothing. */
  lemma {:induction false} PutAllKnown(es: seq<Entry>, known: seq<Entry>)
    requires Ascending(es, 0)
    requires forall e :: e in known ==> e in es
    ensures PutAll(es, known) == es
  {
    if known == [] {
    } else {
      PutAllKnown(es, known[..|known| - 1]);
      PutPresent(es, known[|known| - 1]);
    }
  }

  /** Putting later entries appends them. */
  lemma {:induction false} PutAllFresh(es: seq<Entry>, added: seq<Entry>)
    requires Ascending(es + added, 0)
    ensures PutAll(es, added) == es + added
  {
    if added == [] {
      assert es + added == es;
    } else {
      var init, last := added[..|added| - 1], added[|added| - 1];
      assert es + added == (es + init) + [last];
      AscendingParts(es + init, [last]);
      PutAllFresh(es, init);
      assert [last][0] == last;
      PutAtEnd(es + init, last);
    }
  }

  lemma AscendingParts(a: seq<Entry>, b: seq<Entry>)
    requires Ascending(a + b, 0)
    ensures Ascending(a, 0) && Ascending(b, 0)
    ensures forall i, j :: 0 <= i < |a| && 0 <= j < |b| ==> a[i].eventSeq < b[j].eventSeq
  {
    assert forall i :: 0 <= i < |a| ==> (a + b)[i] == a[i];
    assert forall j :: 0 <= j < |b| ==> (a + b)[|a| + j] == b[j];
  }

  lemma PutAtEnd(es: seq<Entry>, e: Entry)
    requires forall i :: 0 <= i < |es| ==> es[i].eventSeq < e.eventSeq
    ensures Put(es, e) == es + [e]
  {
  }

  lemma {:induction false} PutAllConcat(es: seq<Entry>, a: seq<Entry>, b: seq<Entry>)
    ensures PutAll(es, a + b) == PutAll(PutAll(es, a), b)
  {
    if b == [] {
      assert a + b == a;
    } else {
      assert (a + b)[..|a + b| - 1] == a + b[..|b| - 1];
      PutAllConcat(es, a, b[..|b| - 1]);
    }
  }

  /** A file and a cached tail that overlaps it, or just meets it, make the log. */
  lemma MergeOverlapping(written: seq<Entry>, common: seq<Entry>, added: seq<Entry>)
    requires Ascending(written + added, 0)
    requires forall e :: e in common ==> e in written
    requires common + added != []
    ensures Merge(written, common + added) == written + added
  {
    AscendingParts(written, added);
    assert [] + written == written;
    PutAllFresh([], written);
    PutAllConcat(written, common, added);
    PutAllKnown(written, common);
    PutAllFresh(written, added);
  }

  lemma SliceWithin(log: seq<Entry>, b: nat, a: nat)
    requires b <= a <= |log|
    ensures forall e :: e in log[b..a] ==> e in log[..a]
  {
    forall e | e in log[b..a] ensures e in log[..a] {
      var i :| 0 <= i < |log[b..a]| && log[b..a][i] == e;
      assert log[..a][b + i] == e;
    }
  }

  /** With the last `unwritten` entries missing from the file, file and cached
      tail still rebuild the log exactly when the tail reaches back that far. */
  lemma MergeRebuildsIff(log: seq<Entry>, unwritten: nat, tail: nat)
    requires Ascending(log, 0)
    requires unwritten <= |log| && 0 < tail <= |log|
    ensures Merge(log[..|log| - unwritten], log[|log| - tail..]) == log <==> unwritten <= tail
  {
    var a, b := |log| - unwritten, |log| - tail;
    if b <= a { TailReaches(log, a, b); } else { TailFallsShort(log, a, b); }
  }

  lemma TailReaches(log: seq<Entry>, a: nat, b: nat)
    requires Ascending(log, 0) && b <= a <= |log| && b < |log|
    ensures Merge(log[..a], log[b..]) == log
  {
    var written, common, added := log[..a], log[b..a], log[a..];
    assert written + added == log && common + added == log[b..];
    SliceWithin(log, b, a);
    MergeOverlapping(written, common, added);
  }

  lemma TailFallsShort(log: seq<Entry>, a: nat, b: nat)
    requires Ascending(log, 0) && a < b < |log|
    ensures Merge(log[..a], log[b..]) == log[..a] + log[b..]
    ensures |Merge(log[..a], log[b..])| < |log|
  {
    var written, cached := log[..a], log[b..];
    var both := written + cached;
    assert forall i :: 0 <= i < |both| ==> both[i] == log[if i < a then i else i - a + b];
    assert [] + cached == cached;
    MergeOverlapping(written, [], cached);
  }

  /** Whatever the file lacks, file and cached tail end where the log ends. */
  lemma TailEndsTheLog(log: seq<Entry>, a: nat, b: nat)
    requires Ascending(log, 0) && a <= |log| && b < |log|
    ensures LastSeq(Merge(log[..a], log[b..]), 0) == LastSeq(log, 0)
  {
    if b <= a {
      TailReaches(log, a, b);
    } else {
      TailFallsShort(log, a, b);
    }
    hide Merge;
  }

  // ---- The store ----

  datatype Store = Store(
    disk: map<Sid, seq<Line>>,
    queue: map<Sid, seq<Entry>>,
    cache: OrderedMap<Sid, Cached>,
    latest: map<Sid, int>)

  function LinesOf(st: Store, s: Sid): seq<Line> { if s in st.disk then st.disk[s] else [] }

  function QueueOf(st: Store, s: Sid): seq<Entry> { if s in st.queue then st.queue[s] else [] }

  function OnDisk(st: Store, s: Sid): seq<Entry> { Repair(LinesOf(st, s), s, 0) }

  /** getCachedEvents: a hit becomes the newest key. */
  function Lookup(cache: OrderedMap<Sid, Cached>, s: Sid): OrderedMap<Sid, Cached>
  {
    if cache.Has(s) then cache.Touch(s, cache.vals[s]) else cache
  }

  /** cacheEvents: keep a bounded tail, newest, and evict beyond 64 sessions. */
  function Remember(cache: OrderedMap<Sid, Cached>, s: Sid, entries: seq<Entry>, complete: bool)
    : OrderedMap<Sid, Cached>
  {
    var bounded := TakeLast(entries, CACHE_MAX_ENTRIES);
    cache.Touch(s, Cached(bounded, complete && |bounded| == |entries|)).Trim(CACHE_MAX_SESSIONS)
  }

  function Listing(st: Store, s: Sid): seq<Entry>
  {
    if !st.cache.Has(s) then Merge(OnDisk(st, s), [])
    else if st.cache.vals[s].complete then st.cache.vals[s].entries
    else Merge(OnDisk(st, s), st.cache.vals[s].entries)
  }

  /** listEvents: what the store looks like after a read of `s`. */
  function AfterList(st: Store, s: Sid): Store
  {
    var entries := Listing(st, s);
    var complete := !st.cache.Has(s) || st.cache.vals[s].complete;
    var last := LastSeq(entries, 0);
    st.(cache := Remember(Lookup(st.cache, s), s, entries, complete),
        latest := Counted(st.latest, s, last))
  }

  /** The counter follows a listing only when the listing ends in a number. */
  function Counted(latest: map<Sid, int>, s: Sid, last: int): map<Sid, int>
  {
    if last != 0 then latest[s := last] else latest
  }

  function AssignedSeq(current: int, supplied: Option<int>): (n: int)
    ensures n > current && (n == current + 1 || supplied == Some(n))
    ensures supplied.Some? && current < supplied.value <= MAX_SAFE_INTEGER && -MAX_SAFE_INTEGER <= supplied.value ==>
      n == supplied.value
  {
    if supplied.Some? && -MAX_SAFE_INTEGER <= supplied.value <= MAX_SAFE_INTEGER && supplied.value > current
    then supplied.value else current + 1
  }

  /** The second half of appendEvent: cache, queue and count a numbered entry. */
  function Push(st: Store, s: Sid, e: Entry): Store
  {
    var hit := st.cache.Has(s);
    var entries := (if hit then st.cache.vals[s].entries else OnDisk(st, s)) + [e];
    st.(cache := Remember(Lookup(st.cache, s), s, entries, !hit || st.cache.vals[s].complete),
        queue := st.queue[s := QueueOf(st, s) + [e]],
        latest := st.latest[s := e.eventSeq])
  }

  /** appendEvent on a session: the new store and the stored entry. */
  function Append(st: Store, s: Sid, body: string, supplied: Option<int>): (Store, Entry)
  {
    var known := s in st.latest;
    var current := if known then st.latest[s] else LastSeq(Listing(st, s), 0);
    var entry := Entry(AssignedSeq(current, supplied), body);
    (Push(if known then st else AfterList(st, s), s, entry), entry)
  }

  /** The oldest queued write of `s` reaches the file. */
  function Flush(st: Store, s: Sid): Store
  {
    var q := QueueOf(st, s);
    if q == [] then st
    else st.(disk := st.disk[s := LinesOf(st, s) + ToLines(q[..1], s)], queue := st.queue[s := q[1..]])
  }

  /** A process that has just started over whatever files exist. */
  function Started(disk: map<Sid, seq<Line>>): Store
  {
    Store(disk, map[], Empty(), map[])
  }

  /** The same operations as a class over the source's mutable Maps. */
  class GatewayStore {
    var disk: map<Sid, seq<Line>>
    var queue: map<Sid, seq<Entry>>
    var cache: OrderedMap<Sid, Cached>
    var latest: map<Sid, int>

    constructor (files: map<Sid, seq<Line>>)
      ensures View() == Started(files)
    {
      disk, queue, cache, latest := files, map[], Empty(), map[];
    }

    function View(): Store
      reads this
    {
      Store(disk, queue, cache, latest)
    }

    method CacheEvents(s: Sid, entries: seq<Entry>, complete: bool)
      modifies this`cache
      ensures cache == Remember(old(cache), s, entries, complete)
    {
      var bounded := if |entries| > CACHE_MAX_ENTRIES then entries[|entries| - CACHE_MAX_ENTRIES..] else entries;
      cache := cache.Delete(s);
      cache := cache.Set(s, Cached(bounded, complete && |bounded| == |entries|));
      cache := EvictOldest(cache, CACHE_MAX_SESSIONS);
    }

    method GetCachedEvents(s: Sid) returns (found: Option<Cached>)
      modifies this`cache
      ensures cache == Lookup(old(cache), s)
      ensures found == if old(cache).Has(s) then Some(old(cache).vals[s]) else None
    {
      if !cache.Has(s) { return None; }
      found := Some(cache.vals[s]);
      cache := cache.Delete(s);
      cache := cache.Set(s, found.value);
    }

    method ListEvents(s: Sid) returns (entries: seq<Entry>)
      modifies this
      ensures View() == AfterList(old(View()), s)
      ensures entries == Listing(old(View()), s)
    {
      var cached := GetCachedEvents(s);
      if cached.Some? && cached.value.complete {
        entries := cached.value.entries;
      } else {
        var stored := ReadEventsFromDisk(if s in disk then disk[s] else [], s);
        entries := MergeEvents(stored, if cached.Some? then cached.value.entries else []);
      }
      CacheEvents(s, entries, if cached.Some? then cached.value.complete else true);
      var last := LastSeq(entries, 0);
      if last != 0 { latest := latest[s := last]; }
    }

    /** appendEvent; an event without a session id is not stored. */
    method AppendEvent(s: Sid, body: string, supplied: Option<int>) returns (stored: Option<Entry>)
      modifies this
      ensures s == "" ==> stored == None && View() == old(View())
      ensures s != "" ==>
        View() == Append(old(View()), s, body, supplied).0 &&
        stored == Some(Append(old(View()), s, body, supplied).1)
    {
      if s == "" { return None; }
      var current;
      if s in latest {
        current := latest[s];
      } else {
        var listed := ListEvents(s);
        current := LastSeq(listed, 0);
      }
      var entry := Entry(AssignedSeq(current, supplied), body);
      PushEntry(s, entry);
      stored := Some(entry);
    }

    method PushEntry(s: Sid, entry: Entry)
      modifies this
      ensures View() == Push(old(View()), s, entry)
    {
      var cached := GetCachedEvents(s);
      var entries;
      if cached.Some? {
        entries := cached.value.entries + [entry];
      } else {
        var onDisk := ReadEventsFromDisk(if s in disk then disk[s] else [], s);
        entries := onDisk + [entry];
      }
      CacheEvents(s, entries, if cached.Some? then cached.value.complete else true);
      queue := queue[s := (if s in queue then queue[s] else []) + [entry]];
      latest := latest[s := entry.eventSeq];
    }

    method CompleteWrite(s: Sid)
      modifies this`disk, this`queue
      ensures View() == Flush(old(View()), s)
    {
      var q := if s in queue then queue[s] else [];
      if q != [] {
        disk := disk[s := (if s in disk then disk[s] else []) + ToLines(q[..1], s)];
        queue := queue[s := q[1..]];
      }
    }
  }

  lemma RememberValid(cache: OrderedMap<Sid, Cached>, s: Sid, entries: seq<Entry>, complete: bool)
    returns (after: OrderedMap<Sid, Cached>)
    requires cache.Valid()
    ensures after == Remember(cache, s, entries, complete) && after.Valid()
    ensures after.keys == TakeLast(Without(cache.keys, s) + [s], CACHE_MAX_SESSIONS)
    ensures after.Has(s) &&
      after.vals[s] == Cached(TakeLast(entries, CACHE_MAX_ENTRIES), complete && |entries| <= CACHE_MAX_ENTRIES)
    ensures forall t :: t != s && after.Has(t) ==> cache.Has(t) && after.vals[t] == cache.vals[t]
  {
    var bounded := TakeLast(entries, CACHE_MAX_ENTRIES);
    var c := Cached(bounded, complete && |bounded| == |entries|);
    var touched := cache.Touch(s, c);
    TouchMovesToEnd(cache, s, c);
    TrimKeepsNewest(touched, CACHE_MAX_SESSIONS);
    after := touched.Trim(CACHE_MAX_SESSIONS);
    assert after.keys[|after.keys| - 1] == s;
  }
}
