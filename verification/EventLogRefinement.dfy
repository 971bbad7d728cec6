/** The event store refines a plain append-only sequence per session: in every
    run that respects the quiescence condition, each read returns exactly what
    was appended, and a read that breaks the condition does not. */
module EventLogRefinement {
  import opened OrderedMaps
  import opened EventLog

  /** The specification: one append-only sequence of entries per session. */
  type Log = map<Sid, seq<Entry>>

  function LogOf(log: Log, s: Sid): seq<Entry> { if s in log then log[s] else [] }

  datatype Operation =
    | AppendTo(s: Sid, body: string, supplied: Option<int>)
    | Read(s: Sid)
    | WriteDone(s: Sid)

  datatype Output = Silent | Stored(entry: Entry) | Listed(entries: seq<Entry>)

  // ---- Concrete and abstract steps ----

  function Step(st: Store, op: Operation): (Store, Output)
  {
    match op
    case AppendTo(s, body, supplied) =>
      if s == "" then (st, Silent) else
      var (st', e) := Append(st, s, body, supplied);
      (st', Stored(e))
    case Read(s) => (AfterList(st, s), Listed(Listing(st, s)))
    case WriteDone(s) => (Flush(st, s), Silent)
  }

  function AbstractStep(log: Log, op: Operation): (Log, Output)
  {
    match op
    case AppendTo(s, body, supplied) =>
      if s == "" then (log, Silent) else
      var e := Entry(AssignedSeq(LastSeq(LogOf(log, s), 0), supplied), body);
      (log[s := LogOf(log, s) + [e]], Stored(e))
    case Read(s) => (log, Listed(LogOf(log, s)))
    case WriteDone(_) => (log, Silent)
  }

  function Run(st: Store, ops: seq<Operation>): (Store, seq<Output>)
  {
    if ops == [] then (st, []) else
    var (st1, outs) := Run(st, ops[..|ops| - 1]);
    var (st2, out) := Step(st1, ops[|ops| - 1]);
    (st2, outs + [out])
  }

  function AbstractRun(log: Log, ops: seq<Operation>): (Log, seq<Output>)
  {
    if ops == [] then (log, []) else
    var (log1, outs) := AbstractRun(log, ops[..|ops| - 1]);
    var (log2, out) := AbstractStep(log1, ops[|ops| - 1]);
    (log2, outs + [out])
  }

  // ---- The quiescence condition ----

  /** A read of `s` is quiescent when a cache miss finds no queued write and an
      incomplete tail covers every queued write. */
  predicate ReadQuiescent(st: Store, s: Sid)
  {
    if !st.cache.Has(s) then QueueOf(st, s) == []
    else st.cache.vals[s].complete || |QueueOf(st, s)| <= CACHE_MAX_ENTRIES
  }

  predicate Quiescent(st: Store, op: Operation)
  {
    match op
    case AppendTo(s, _, _) => s == "" || st.cache.Has(s) || QueueOf(st, s) == []
    case Read(s) => ReadQuiescent(st, s)
    case WriteDone(_) => true
  }

  predicate QuiescentRun(st: Store, ops: seq<Operation>)
  {
    ops == [] ||
    (QuiescentRun(st, ops[..|ops| - 1]) && Quiescent(Run(st, ops[..|ops| - 1]).0, ops[|ops| - 1]))
  }

  // ---- Representation ----

  ghost predicate TailOk(c: Cached, log: seq<Entry>)
  {
    if c.complete then c.entries == log && |log| <= CACHE_MAX_ENTRIES
    else c.entries == TakeLast(log, CACHE_MAX_ENTRIES) && |log| > CACHE_MAX_ENTRIES
  }

  ghost predicate SessionOk(st: Store, s: Sid, log: seq<Entry>)
  {
    && Ascending(log, 0)
    && OnDisk(st, s) + QueueOf(st, s) == log
    && (st.cache.Has(s) ==> TailOk(st.cache.vals[s], log) && (log != [] ==> s in st.latest))
    && (s in st.latest ==> log != [] && st.latest[s] == LastSeq(log, 0))
  }

  ghost predicate Represents(st: Store, log: Log)
  {
    && st.cache.Valid()
    && forall s :: SessionOk(st, s, LogOf(log, s))
  }

  /** In a state that represents the log, the read result is the whole log exactly
      when the read is quiescent. */
  lemma ListingExactIff(st: Store, s: Sid, log: seq<Entry>)
    requires SessionOk(st, s, log)
    ensures Listing(st, s) == log <==> ReadQuiescent(st, s)
  {
    ListingOfParts(OnDisk(st, s), QueueOf(st, s), log);
  }

  lemma ListingOfParts(disk: seq<Entry>, queue: seq<Entry>, log: seq<Entry>)
    requires disk + queue == log && Ascending(log, 0)
    ensures Merge(disk, []) == log <==> queue == []
    ensures |log| > CACHE_MAX_ENTRIES ==>
      (Merge(disk, TakeLast(log, CACHE_MAX_ENTRIES)) == log <==> |queue| <= CACHE_MAX_ENTRIES)
  {
    assert disk == log[..|log| - |queue|];
    if |log| > CACHE_MAX_ENTRIES {
      MergeRebuildsIff(log, |queue|, CACHE_MAX_ENTRIES);
    }
    if queue == [] { assert disk == log; }
  }

  // ---- The next number after a read ----

  /** A session with queued writes was appended to in this process, so it has a counter. */
  ghost predicate Tracked(st: Store, s: Sid) { QueueOf(st, s) != [] ==> s in st.latest }

  /** A read of `s` knows where the log ends: the cache holds its tail, or the file
      holds all of it, or the file is empty and the read leaves the counter alone. */
  predicate EndInSight(st: Store, s: Sid)
  {
    st.cache.Has(s) || QueueOf(st, s) == [] || OnDisk(st, s) == []
  }

  predicate SuppliedBeyond(supplied: Option<int>, last: int)
  {
    supplied.Some? && last < supplied.value <= MAX_SAFE_INTEGER
  }

  lemma MergeWithNothing(disk: seq<Entry>)
    ensures Merge(disk, []) == disk
  {
  }

  lemma ListingEnds(st: Store, s: Sid, log: seq<Entry>)
    requires SessionOk(st, s, log)
    ensures st.cache.Has(s) ==> LastSeq(Listing(st, s), 0) == LastSeq(log, 0)
    ensures !st.cache.Has(s) ==> Listing(st, s) == OnDisk(st, s)
  {
    hide Repair;
    MergeWithNothing(OnDisk(st, s));
    hide Merge;
    if st.cache.Has(s) && !st.cache.vals[s].complete {
      var a := |log| - |QueueOf(st, s)|;
      assert OnDisk(st, s) == log[..a];
      TailEndsTheLog(log, a, |log| - CACHE_MAX_ENTRIES);
    }
  }

  /** The counter after a read: the end of the log if it is in sight, the end of the
      file otherwise. */
  lemma CounterAfterRead(st: Store, s: Sid, log: seq<Entry>)
    requires st.cache.Valid() && SessionOk(st, s, log) && Tracked(st, s)
    ensures var st' := AfterList(st, s);
      (if s in st'.latest then st'.latest[s] else LastSeq(Listing(st', s), 0)) ==
      (if EndInSight(st, s) then LastSeq(log, 0) else LastSeq(OnDisk(st, s), 0))
  {
    hide Merge;
    hide Repair;
    ListingEnds(st, s, log);
    var last := LastSeq(Listing(st, s), 0);
    EndsPositive(log);
    EndsPositive(OnDisk(st, s));
    assert AfterList(st, s).latest == Counted(st.latest, s, last);
    RepairAscends(LinesOf(st, s), s, 0);
    if last == 0 { ReadOfNothing(st, s); }
  }

  lemma EndsPositive(log: seq<Entry>)
    ensures Ascending(log, 0) ==> (LastSeq(log, 0) == 0 <==> log == []) && LastSeq(log, 0) >= 0
  {
  }

  lemma ReadOfNothing(st: Store, s: Sid)
    requires st.cache.Valid() && Ascending(OnDisk(st, s), 0) && LastSeq(Listing(st, s), 0) == 0
    requires st.cache.Has(s) ==> st.cache.vals[s].complete
    requires Ascending(Listing(st, s), 0)
    ensures LastSeq(Listing(AfterList(st, s), s), 0) == 0
  {
    EndsPositive(Listing(st, s));
    ReadTouches(st, s);
  }

  /** After a read, the next assigned number is beyond everything in the log if and
      only if the end of the log was in sight or the caller supplied a number beyond
      it. The condition can be checked before the read. */
  lemma ReadThenAppendFreshIff(st: Store, s: Sid, log: seq<Entry>, body: string, supplied: Option<int>)
    requires st.cache.Valid() && SessionOk(st, s, log) && Tracked(st, s)
    ensures Append(AfterList(st, s), s, body, supplied).1.eventSeq > LastSeq(log, 0) <==>
      EndInSight(st, s) || SuppliedBeyond(supplied, LastSeq(log, 0))
  {
    CounterAfterRead(st, s, log);
    if !EndInSight(st, s) {
      DiskEndsEarlier(st, s, log);
    }
  }

  lemma DiskEndsEarlier(st: Store, s: Sid, log: seq<Entry>)
    requires SessionOk(st, s, log) && QueueOf(st, s) != [] && OnDisk(st, s) != []
    ensures 0 < LastSeq(OnDisk(st, s), 0) < QueueOf(st, s)[0].eventSeq <= LastSeq(log, 0)
  {
    var d, q := OnDisk(st, s), QueueOf(st, s);
    assert log[|d| - 1] == d[|d| - 1] && log[|d|] == q[0] && log[|log| - 1] == q[|q| - 1];
  }

  /** When the end is not in sight, the next number is the one after the file; it was
      handed out before if and only if the first queued write carries it. */
  lemma StaleNumberRepeatsIff(st: Store, s: Sid, log: seq<Entry>, body: string)
    requires st.cache.Valid() && SessionOk(st, s, log) && Tracked(st, s) && !EndInSight(st, s)
    ensures var e := Append(AfterList(st, s), s, body, None).1;
      && e.eventSeq == LastSeq(OnDisk(st, s), 0) + 1
      && ((exists taken :: taken in log && taken.eventSeq == e.eventSeq) <==> QueueOf(st, s)[0].eventSeq == e.eventSeq)
  {
    CounterAfterRead(st, s, log);
    DiskEndsEarlier(st, s, log);
    var d, q := OnDisk(st, s), QueueOf(st, s);
    var n := LastSeq(d, 0) + 1;
    assert log[|d|] == q[0] && log[|d| - 1] == d[|d| - 1];
    assert q[0] in log;
    if x :| x in log && x.eventSeq == n {
      var i :| 0 <= i < |log| && log[i] == x;
      assert i >= |d|;
      assert i == |d|;
    }
  }

  // ---- Each operation keeps the representation ----

  /** What remembering a timeline does to the cache. */
  lemma RememberedCache(cache: OrderedMap<Sid, Cached>, s: Sid, entries: seq<Entry>, complete: bool)
    returns (after: OrderedMap<Sid, Cached>)
    requires cache.Valid()
    ensures after == Remember(Lookup(cache, s), s, entries, complete)
    ensures after.Valid()
    ensures after.Has(s) &&
      after.vals[s] == Cached(TakeLast(entries, CACHE_MAX_ENTRIES), complete && |entries| <= CACHE_MAX_ENTRIES)
    ensures forall t :: t != s && after.Has(t) ==> cache.Has(t) && after.vals[t] == cache.vals[t]
    ensures after.keys == TakeLast(Without(cache.keys, s) + [s], CACHE_MAX_SESSIONS)
  {
    if cache.Has(s) { TouchMovesToEnd(cache, s, cache.vals[s]); }
    TouchTwice(cache.keys, s);
    after := RememberValid(Lookup(cache, s), s, entries, complete);
  }

  lemma TouchTwice(keys: seq<Sid>, s: Sid)
    ensures Without(Without(keys, s) + [s], s) == Without(keys, s)
  {
    WithoutConcat(Without(keys, s), [s], s);
    assert [s][1..] == [];
  }

  /** `st'` differs from `st` in session `s` and in evictions only. */
  ghost predicate OnlyTouches(st: Store, st': Store, s: Sid)
  {
    && st'.cache.Valid()
    && forall t :: t != s ==>
      && LinesOf(st', t) == LinesOf(st, t)
      && QueueOf(st', t) == QueueOf(st, t)
      && (t in st'.latest <==> t in st.latest)
      && (t in st.latest ==> st'.latest[t] == st.latest[t])
      && (st'.cache.Has(t) ==> st.cache.Has(t) && st'.cache.vals[t] == st.cache.vals[t])
  }

  lemma FrameSessions(st: Store, st': Store, log: Log, s: Sid, l: seq<Entry>)
    requires Represents(st, log) && OnlyTouches(st, st', s)
    requires SessionOk(st', s, l)
    ensures Represents(st', log[s := l])
    ensures l == LogOf(log, s) ==> Represents(st', log)
  {
    var log' := log[s := l];
    forall t ensures SessionOk(st', t, LogOf(log', t)) {
      assert SessionOk(st, t, LogOf(log, t));
    }
    if l == LogOf(log, s) {
      forall t ensures SessionOk(st', t, LogOf(log, t)) {
        assert SessionOk(st', t, LogOf(log', t));
      }
    }
  }

  /** An update of the cache, and of queue and counter at `s` only. */
  lemma UpdateTouches(st: Store, s: Sid, cache: OrderedMap<Sid, Cached>, q: seq<Entry>, n: int)
    requires cache.Valid()
    requires forall t :: t != s && cache.Has(t) ==> st.cache.Has(t) && cache.vals[t] == st.cache.vals[t]
    ensures OnlyTouches(st, st.(cache := cache, latest := Counted(st.latest, s, n)), s)
    ensures OnlyTouches(st, st.(cache := cache, queue := st.queue[s := q], latest := st.latest[s := n]), s)
  {
  }

  lemma ReadTouches(st: Store, s: Sid)
    requires st.cache.Valid()
    ensures OnlyTouches(st, AfterList(st, s), s)
    ensures AfterList(st, s).cache.Has(s)
    ensures AfterList(st, s).cache.vals[s] ==
      Cached(TakeLast(Listing(st, s), CACHE_MAX_ENTRIES),
             (!st.cache.Has(s) || st.cache.vals[s].complete) && |Listing(st, s)| <= CACHE_MAX_ENTRIES)
  {
    var after := RememberedCache(st.cache, s, Listing(st, s), !st.cache.Has(s) || st.cache.vals[s].complete);
    UpdateTouches(st, s, after, [], LastSeq(Listing(st, s), 0));
  }

  lemma ReadKeeps(st: Store, log: Log, s: Sid)
    requires Represents(st, log) && ReadQuiescent(st, s)
    ensures Represents(AfterList(st, s), log)
    ensures Listing(st, s) == LogOf(log, s)
  {
    var l := LogOf(log, s);
    assert SessionOk(st, s, l);
    ListingExactIff(st, s, l);
    ReadTouches(st, s);
    FrameSessions(st, AfterList(st, s), log, s, l);
  }

  /** A cached tail that gains the appended entry is the tail of the longer log. */
  lemma ExtendTail(c: Cached, log: seq<Entry>, e: Entry)
    requires TailOk(c, log) || (c.entries == log && c.complete)
    ensures var more := c.entries + [e];
      TailOk(Cached(TakeLast(more, CACHE_MAX_ENTRIES), c.complete && |more| <= CACHE_MAX_ENTRIES), log + [e])
  {
    if !(c.entries == log && c.complete) {
      TailOfLonger(log, e, CACHE_MAX_ENTRIES);
    }
  }

  lemma TailOfLonger(log: seq<Entry>, e: Entry, n: nat)
    requires |log| > n > 0
    ensures TakeLast(TakeLast(log, n) + [e], n) == TakeLast(log + [e], n)
  {
  }

  lemma ExtendLog(disk: seq<Entry>, queue: seq<Entry>, log: seq<Entry>, e: Entry)
    requires Ascending(log, 0) && disk + queue == log && e.eventSeq > LastSeq(log, 0)
    ensures Ascending(log + [e], 0) && disk + (queue + [e]) == log + [e]
  {
  }

  lemma PushTouches(st: Store, s: Sid, e: Entry)
    requires st.cache.Valid()
    ensures OnlyTouches(st, Push(st, s, e), s)
    ensures Push(st, s, e).cache.Has(s)
    ensures var base := if st.cache.Has(s) then st.cache.vals[s].entries else OnDisk(st, s);
      Push(st, s, e).cache.vals[s] ==
      Cached(TakeLast(base + [e], CACHE_MAX_ENTRIES),
             (!st.cache.Has(s) || st.cache.vals[s].complete) && |base + [e]| <= CACHE_MAX_ENTRIES)
  {
    var base := if st.cache.Has(s) then st.cache.vals[s].entries else OnDisk(st, s);
    var after := RememberedCache(st.cache, s, base + [e], !st.cache.Has(s) || st.cache.vals[s].complete);
    UpdateTouches(st, s, after, QueueOf(st, s) + [e], e.eventSeq);
  }

  lemma PushKeeps(st: Store, log: Log, s: Sid, e: Entry)
    requires Represents(st, log)
    requires st.cache.Has(s) || QueueOf(st, s) == []
    requires e.eventSeq > LastSeq(LogOf(log, s), 0)
    ensures Represents(Push(st, s, e), log[s := LogOf(log, s) + [e]])
  {
    var l := LogOf(log, s);
    assert SessionOk(st, s, l);
    PushTouches(st, s, e);
    var base := if st.cache.Has(s) then st.cache.vals[s].entries else OnDisk(st, s);
    AppendedSession(st, Push(st, s, e), s, l, e, base, !st.cache.Has(s) || st.cache.vals[s].complete);
    FrameSessions(st, Push(st, s, e), log, s, l + [e]);
  }

  lemma AppendKeeps(st: Store, log: Log, s: Sid, body: string, supplied: Option<int>)
    requires Represents(st, log) && s != "" && Quiescent(st, AppendTo(s, body, supplied))
    ensures Append(st, s, body, supplied).1 == Entry(AssignedSeq(LastSeq(LogOf(log, s), 0), supplied), body)
    ensures Represents(Append(st, s, body, supplied).0, log[s := LogOf(log, s) + [Append(st, s, body, supplied).1]])
  {
    assert SessionOk(st, s, LogOf(log, s));
    var e := Append(st, s, body, supplied).1;
    var st1 := if s in st.latest then st else AfterList(st, s);
    if s !in st.latest {
      ReadKeeps(st, log, s);
      ReadTouches(st, s);
    }
    PushKeeps(st1, log, s, e);
  }

  lemma WriteKeeps(st: Store, log: Log, s: Sid)
    requires Represents(st, log)
    ensures Represents(Flush(st, s), log)
  {
    var q := QueueOf(st, s);
    if q != [] {
      var l, d, st' := LogOf(log, s), OnDisk(st, s), Flush(st, s);
      assert SessionOk(st, s, l);
      assert l == d + q;
      assert q[0] == l[|d|] && (d != [] ==> d[|d| - 1] == l[|d| - 1]);
      RepairStableUnderAppend(LinesOf(st, s), q[..1], s);
      assert OnDisk(st', s) == d + q[..1];
      assert d + q[..1] + q[1..] == d + q;
      FrameSessions(st, st', log, s, l);
    }
  }

  lemma AppendedSession(st: Store, st': Store, s: Sid, l: seq<Entry>, e: Entry, base: seq<Entry>, complete: bool)
    requires SessionOk(st, s, l) && e.eventSeq > LastSeq(l, 0)
    requires LinesOf(st', s) == LinesOf(st, s) && QueueOf(st', s) == QueueOf(st, s) + [e]
    requires s in st'.latest && st'.latest[s] == e.eventSeq
    requires if st.cache.Has(s) then Cached(base, complete) == st.cache.vals[s] else base == l && complete
    requires st'.cache.Has(s)
    requires st'.cache.vals[s] ==
      Cached(TakeLast(base + [e], CACHE_MAX_ENTRIES), complete && |base + [e]| <= CACHE_MAX_ENTRIES)
    ensures SessionOk(st', s, l + [e])
  {
    ExtendTail(Cached(base, complete), l, e);
    ExtendLog(OnDisk(st, s), QueueOf(st, s), l, e);
  }

  // ---- Whole runs ----

  lemma StepRefines(st: Store, log: Log, op: Operation)
    requires Represents(st, log) && Quiescent(st, op)
    ensures Step(st, op).1 == AbstractStep(log, op).1
    ensures Represents(Step(st, op).0, AbstractStep(log, op).0)
  {
    match op
    case AppendTo(s, body, supplied) => if s != "" { AppendKeeps(st, log, s, body, supplied); }
    case Read(s) => ReadKeeps(st, log, s);
    case WriteDone(s) => WriteKeeps(st, log, s);
  }

  /** In every quiescent run of appends, reads, write completions and LRU
      evictions, all outputs are those of the append-only sequences. */
  lemma {:induction false} RunRefines(st: Store, log: Log, ops: seq<Operation>)
    requires Represents(st, log) && QuiescentRun(st, ops)
    ensures Run(st, ops).1 == AbstractRun(log, ops).1
    ensures Represents(Run(st, ops).0, AbstractRun(log, ops).0)
  {
    if ops == [] {
    } else {
      var init, last := ops[..|ops| - 1], ops[|ops| - 1];
      RunRefines(st, log, init);
      StepRefines(Run(st, init).0, AbstractRun(log, init).0, last);
    }
  }

  function Repaired(disk: map<Sid, seq<Line>>): Log
  {
    map s | s in disk :: Repair(disk[s], s, 0)
  }

  /** Any set of files, damaged or not, is a representation of its repair. */
  lemma StartRepresents(disk: map<Sid, seq<Line>>)
    ensures Represents(Started(disk), Repaired(disk))
  {
    forall s ensures SessionOk(Started(disk), s, LogOf(Repaired(disk), s)) {
      RepairAscends(if s in disk then disk[s] else [], s, 0);
    }
  }

  /** Over any files, every quiescent run reads back what the files held and
      what was appended since, and numbers of a session strictly increase. */
  lemma EveryRunReadsWhatWasAppended(disk: map<Sid, seq<Line>>, ops: seq<Operation>, s: Sid)
    requires QuiescentRun(Started(disk), ops)
    ensures Run(Started(disk), ops).1 == AbstractRun(Repaired(disk), ops).1
    ensures Ascending(LogOf(AbstractRun(Repaired(disk), ops).0, s), 0)
  {
    StartRepresents(disk);
    RunRefines(Started(disk), Repaired(disk), ops);
    assert SessionOk(Run(Started(disk), ops).0, s, LogOf(AbstractRun(Repaired(disk), ops).0, s));
  }

  // ---- Which sessions are cached ----

  /** The sessions an operation touches in the cache. */
  function Touched(ops: seq<Operation>): seq<Sid>
  {
    if ops == [] then [] else Touched(ops[..|ops| - 1]) + TouchedBy(ops[|ops| - 1])
  }

  function TouchedBy(op: Operation): seq<Sid>
  {
    if op.WriteDone? || (op.AppendTo? && op.s == "") then [] else [op.s]
  }

  lemma TouchAgain(keys: seq<Sid>, s: Sid, n: nat)
    requires n > 0
    ensures var once := TakeLast(Without(keys, s) + [s], n); TakeLast(Without(once, s) + [s], n) == once
  {
    var w := Without(keys, s);
    var kept := TakeLast(w, n - 1);
    assert TakeLast(w + [s], n) == kept + [s];
    assert Without(kept, s) == kept;
    WithoutConcat(kept, [s], s);
    assert [s][1..] == [];
  }

  lemma StepCaches(st: Store, op: Operation)
    requires st.cache.Valid()
    ensures Step(st, op).0.cache.Valid()
    ensures Step(st, op).0.cache.keys ==
      if TouchedBy(op) == [] then st.cache.keys else TakeLast(Without(st.cache.keys, op.s) + [op.s], CACHE_MAX_SESSIONS)
  {
    if TouchedBy(op) != [] {
      var s := op.s;
      var listed := RememberedCache(st.cache, s, Listing(st, s), !st.cache.Has(s) || st.cache.vals[s].complete);
      if op.AppendTo? {
        var st1 := if s in st.latest then st else AfterList(st, s);
        var e := Append(st, s, op.body, op.supplied).1;
        var base := if st1.cache.Has(s) then st1.cache.vals[s].entries else OnDisk(st1, s);
        var pushed := RememberedCache(st1.cache, s, base + [e], !st1.cache.Has(s) || st1.cache.vals[s].complete);
        TouchAgain(st.cache.keys, s, CACHE_MAX_SESSIONS);
      }
    }
  }

  /** In every run the cache holds exactly the 64 most recently used sessions. */
  lemma {:induction false} CacheHoldsMostRecent(disk: map<Sid, seq<Line>>, ops: seq<Operation>)
    ensures Run(Started(disk), ops).0.cache.Valid()
    ensures Run(Started(disk), ops).0.cache.keys == LruKeys(Touched(ops), CACHE_MAX_SESSIONS)
  {
    if ops == [] {
    } else {
      var init, last := ops[..|ops| - 1], ops[|ops| - 1];
      CacheHoldsMostRecent(disk, init);
      StepCaches(Run(Started(disk), init).0, last);
      if TouchedBy(last) != [] {
        assert Touched(ops) == Touched(init) + [last.s];
        assert Touched(ops)[..|Touched(ops)| - 1] == Touched(init);
      } else {
        assert Touched(ops) == Touched(init);
      }
    }
  }

  /** A session used before misses the cache exactly when 64 others were used since. */
  lemma MissExactlyWhenCrowdedOut(disk: map<Sid, seq<Line>>, ops: seq<Operation>, s: Sid)
    requires s in Touched(ops)
    ensures Run(Started(disk), ops).0.cache.Has(s) <==> |Since(Touched(ops), s)| < CACHE_MAX_SESSIONS
  {
    CacheHoldsMostRecent(disk, ops);
    EvictedExactlyWhenCrowdedOut(Touched(ops), s, CACHE_MAX_SESSIONS);
  }

  // ---- When numbers repeat ----

  lemma {:induction false} EveryRunTracks(disk: map<Sid, seq<Line>>, ops: seq<Operation>, s: Sid)
    ensures Tracked(Run(Started(disk), ops).0, s)
  {
    if ops == [] {
    } else {
      EveryRunTracks(disk, ops[..|ops| - 1], s);
    }
  }

  /** After every quiescent run, a read followed by an append assigns a new highest
      number if and only if the end of the log was in sight of the read or the
      supplied number is beyond it. */
  lemma NumbersIncreaseIff(disk: map<Sid, seq<Line>>, ops: seq<Operation>, s: Sid, body: string, supplied: Option<int>)
    requires QuiescentRun(Started(disk), ops)
    ensures var st, last := Run(Started(disk), ops).0, LastSeq(LogOf(AbstractRun(Repaired(disk), ops).0, s), 0);
      Append(AfterList(st, s), s, body, supplied).1.eventSeq > last <==>
        EndInSight(st, s) || SuppliedBeyond(supplied, last)
  {
    StartRepresents(disk);
    RunRefines(Started(disk), Repaired(disk), ops);
    EveryRunTracks(disk, ops, s);
    var st, log := Run(Started(disk), ops).0, LogOf(AbstractRun(Repaired(disk), ops).0, s);
    assert SessionOk(st, s, log);
    ReadThenAppendFreshIff(st, s, log, body, supplied);
  }

  // ---- A run that repeats a number ----

  function Reads(others: seq<Sid>): (ops: seq<Operation>)
    ensures |ops| == |others|
  {
    seq(|others|, i requires 0 <= i < |others| => Read(others[i]))
  }

  /** 64 sessions other than `s`. */
  function Others(s: Sid, n: nat): (r: seq<Sid>)
    ensures |r| == n && Distinct(r) && s !in r
    ensures forall i :: 0 <= i < n ==> |r[i]| == |s| + 1 + i
  {
    if n == 0 then [] else Others(s, n - 1) + [seq(|s| + n, _ => 'x')]
  }

  /** One event on disk, one still queued. */
  function Prelude(s: Sid): seq<Operation>
  {
    [AppendTo(s, "first", None), WriteDone(s), AppendTo(s, "second", None)]
  }

  lemma RunMore(st: Store, ops: seq<Operation>, op: Operation)
    ensures Run(st, ops + [op]) == (Step(Run(st, ops).0, op).0, Run(st, ops).1 + [Step(Run(st, ops).0, op).1])
    ensures QuiescentRun(st, ops + [op]) <==> QuiescentRun(st, ops) && Quiescent(Run(st, ops).0, op)
    ensures Touched(ops + [op]) == Touched(ops) + TouchedBy(op)
  {
    hide Step;
    hide Quiescent;
    assert (ops + [op])[..|ops|] == ops;
  }

  /** The first event appended to a session without a file. */
  lemma FirstAppend(s: Sid)
    requires s != ""
    ensures var st := Step(Started(map[]), AppendTo(s, "first", None)).0;
      && st.disk == map[] && st.queue == map[s := [Entry(1, "first")]]
      && s in st.latest && st.latest[s] == 1 && st.cache.Has(s)
  {
    var st := Started(map[]);
    assert OnDisk(st, s) == [];
    ReadTouches(st, s);
    PushTouches(AfterList(st, s), s, Entry(1, "first"));
    var none: seq<Entry> := [];
    assert none + [Entry(1, "first")] == [Entry(1, "first")];
  }

  lemma FlushFirst(st: Store, s: Sid)
    requires st.disk == map[] && st.queue == map[s := [Entry(1, "first")]]
    ensures var st' := Flush(st, s);
      st' == st.(disk := st'.disk, queue := map[s := []]) && OnDisk(st', s) == [Entry(1, "first")]
  {
    var e := Entry(1, "first");
    assert [e][..1] == [e] && [e][1..] == [];
    RepairKeepsHealthy([e], s, 0);
    var none: seq<Line> := [];
    assert none + ToLines([e], s) == ToLines([e], s);
  }

  lemma PreludeState(s: Sid)
    requires s != ""
    ensures QuiescentRun(Started(map[]), Prelude(s))
    ensures var st := Run(Started(map[]), Prelude(s)).0;
      && OnDisk(st, s) == [Entry(1, "first")] && QueueOf(st, s) == [Entry(2, "second")]
      && forall o :: o != s ==> QueueOf(st, o) == []
    ensures Touched(Prelude(s)) == [s, s]
  {
    hide Run;
    hide QuiescentRun;
    hide Step;
    hide Repair;
    var start, a, b, c := Started(map[]), AppendTo(s, "first", None), WriteDone(s), AppendTo(s, "second", None);
    RunNothing(start);
    RunMore(start, [], a);
    RunMore(start, [] + [a], b);
    RunMore(start, [] + [a] + [b], c);
    assert [] + [a] + [b] + [c] == Prelude(s);
    FirstAppend(s);
    var st1 := Step(start, a).0;
    FlushFirst(st1, s);
    var st2 := Flush(st1, s);
    WriteIsFlush(st1, s);
    SecondAppend(st2, s);
    assert OnDisk(Step(st2, c).0, s) == OnDisk(st2, s);
  }

  lemma WriteIsFlush(st: Store, s: Sid)
    ensures Step(st, WriteDone(s)).0 == Flush(st, s)
  {
  }

  lemma RunNothing(st: Store)
    ensures Run(st, []) == (st, []) && QuiescentRun(st, []) && Touched([]) == []
  {
  }

  lemma SecondAppend(st: Store, s: Sid)
    requires s != "" && st.queue == map[s := []] && s in st.latest && st.latest[s] == 1
    ensures var st' := Step(st, AppendTo(s, "second", None)).0;
      st'.queue == map[s := [Entry(2, "second")]] && st'.disk == st.disk
  {
    hide Remember;
    hide Repair;
    hide Merge;
    var none: seq<Entry> := [];
    assert none + [Entry(2, "second")] == [Entry(2, "second")];
  }

  /** Reading other sessions leaves files and queues alone. */
  lemma {:induction false} ReadsLeave(st: Store, ops: seq<Operation>, others: seq<Sid>)
    requires QuiescentRun(st, ops)
    requires forall o :: o in others ==> QueueOf(Run(st, ops).0, o) == []
    ensures var st1, st2 := Run(st, ops).0, Run(st, ops + Reads(others)).0;
      st2.disk == st1.disk && st2.queue == st1.queue
    ensures QuiescentRun(st, ops + Reads(others))
    ensures Touched(ops + Reads(others)) == Touched(ops) + others
  {
    hide Run;
    hide QuiescentRun;
    hide Touched;
    hide Step;
    hide Quiescent;
    if others == [] {
      assert ops + Reads(others) == ops;
      assert Touched(ops) + [] == Touched(ops);
    } else {
      var init, last := others[..|others| - 1], others[|others| - 1];
      assert ops + Reads(others) == ops + Reads(init) + [Read(last)];
      ReadsLeave(st, ops, init);
      RunMore(st, ops + Reads(init), Read(last));
      ReadIsLocal(Run(st, ops + Reads(init)).0, last);
      assert last in others;
      assert QueueOf(Run(st, ops).0, last) == [];
      assert Touched(ops) + others == (Touched(ops) + init) + [last];
    }
  }

  lemma ReadIsLocal(st: Store, s: Sid)
    ensures var st' := Step(st, Read(s)).0; st'.disk == st.disk && st'.queue == st.queue
    ensures QueueOf(st, s) == [] ==> Quiescent(st, Read(s))
  {
  }

  lemma {:induction false} SinceOthers(history: seq<Sid>, others: seq<Sid>, s: Sid)
    requires s !in others && history != [] && history[|history| - 1] == s
    ensures Since(history + others, s) == Elements(others)
  {
    var all := history + others;
    if others == [] {
      assert all == history;
    } else {
      var init, last := others[..|others| - 1], others[|others| - 1];
      assert all[..|all| - 1] == history + init && all[|all| - 1] == last;
      assert others == init + [last];
      SinceOthers(history, init, s);
      assert Elements(others) == Elements(init) + {last};
    }
  }

  /** A quiescent run from an empty directory after which a read and an append hand
      out a number that is already in the log. */
  lemma NumbersRepeat(s: Sid, body: string) returns (ops: seq<Operation>)
    requires s != ""
    ensures QuiescentRun(Started(map[]), ops)
    ensures var st := Run(Started(map[]), ops).0;
      && !st.cache.Has(s) && OnDisk(st, s) == [Entry(1, "first")] && QueueOf(st, s) == [Entry(2, "second")]
      && LogOf(AbstractRun(Repaired(map[]), ops).0, s) == [Entry(1, "first"), Entry(2, "second")]
      && Append(AfterList(st, s), s, body, None).1 == Entry(2, body)
  {
    hide *;
    ops := CrowdedOut(s);
    var st := Run(Started(map[]), ops).0;
    StartRepresents(map[]);
    RunRefines(Started(map[]), Repaired(map[]), ops);
    EveryRunTracks(map[], ops, s);
    RepeatsTwo(st, AbstractRun(Repaired(map[]), ops).0, s, body);
  }

  /** One event on disk, one queued, and 64 other sessions read since. */
  lemma CrowdedOut(s: Sid) returns (ops: seq<Operation>)
    requires s != ""
    ensures QuiescentRun(Started(map[]), ops)
    ensures var st := Run(Started(map[]), ops).0;
      !st.cache.Has(s) && OnDisk(st, s) == [Entry(1, "first")] && QueueOf(st, s) == [Entry(2, "second")]
  {
    var start := Started(map[]);
    var others := Others(s, CACHE_MAX_SESSIONS);
    PreludeState(s);
    ReadsLeave(start, Prelude(s), others);
    ops := Prelude(s) + Reads(others);
    SinceOthers([s, s], others, s);
    DistinctCardinality(others);
    MissExactlyWhenCrowdedOut(map[], ops, s);
    hide Run;
    hide Repair;
  }

  lemma RepeatsTwo(st: Store, log: Log, s: Sid, body: string)
    requires Represents(st, log) && Tracked(st, s) && !st.cache.Has(s)
    requires OnDisk(st, s) == [Entry(1, "first")] && QueueOf(st, s) == [Entry(2, "second")]
    ensures LogOf(log, s) == [Entry(1, "first"), Entry(2, "second")]
    ensures Append(AfterList(st, s), s, body, None).1 == Entry(2, body)
  {
    assert SessionOk(st, s, LogOf(log, s));
    assert [Entry(1, "first")] + [Entry(2, "second")] == [Entry(1, "first"), Entry(2, "second")];
    hide Repair;
    StaleNumberRepeatsIff(st, s, LogOf(log, s), body);
  }
}
