/** When the gateway's event log reads back exactly (gatewayStore.ts): what a cache
    miss with queued writes does to later reads, and why quiescence is exactly the
    condition under which the store refines an append-only log. */
module EventLogExactness {
  import opened OrderedMaps
  import opened EventLog
  import opened EventLogRefinement

  // ---- Completing writes ----

  /** `n` queued writes of `s` reach the file. */
  function Flushed(st: Store, s: Sid, n: nat): Store
  {
    if n == 0 then st else Flush(Flushed(st, s, n - 1), s)
  }

  lemma FlushOne(st: Store, s: Sid)
    requires QueueOf(st, s) != [] && Ascending(OnDisk(st, s) + QueueOf(st, s), 0)
    ensures var st' := Flush(st, s);
      && OnDisk(st', s) == OnDisk(st, s) + QueueOf(st, s)[..1] && QueueOf(st', s) == QueueOf(st, s)[1..]
      && st'.cache == st.cache && st'.latest == st.latest
  {
    var d, q := OnDisk(st, s), QueueOf(st, s);
    var log := d + q;
    assert q[0] == log[|d|] && (d != [] ==> d[|d| - 1] == log[|d| - 1]);
    RepairStableUnderAppend(LinesOf(st, s), q[..1], s);
  }

  lemma {:induction false} FlushedState(st: Store, s: Sid, n: nat)
    requires n <= |QueueOf(st, s)| && Ascending(OnDisk(st, s) + QueueOf(st, s), 0)
    ensures var st' := Flushed(st, s, n);
      && OnDisk(st', s) == OnDisk(st, s) + QueueOf(st, s)[..n] && QueueOf(st', s) == QueueOf(st, s)[n..]
      && st'.cache == st.cache && st'.latest == st.latest
  {
    var d, q := OnDisk(st, s), QueueOf(st, s);
    hide Flush;
    hide Repair;
    if n == 0 {
      assert d + q[..0] == d && q[0..] == q;
    } else {
      FlushedState(st, s, n - 1);
      var mid := Flushed(st, s, n - 1);
      assert d + q[..n - 1] + q[n - 1..] == d + q;
      FlushOne(mid, s);
      assert q[n - 1..][..1] == [q[n - 1]] && q[..n] == q[..n - 1] + [q[n - 1]];
      assert d + q[..n - 1] + [q[n - 1]] == d + q[..n];
      assert q[n - 1..][1..] == q[n..];
    }
  }

  // ---- What a listing is, by what is cached ----

  /** A cached tail of the file, perhaps with one newer entry, adds that entry only. */
  lemma MergeTailOfFile(written: seq<Entry>, part: seq<Entry>, added: seq<Entry>)
    requires Ascending(written + added, 0) && part + added != []
    requires forall e :: e in part ==> e in written
    ensures Merge(written, part + added) == written + added
  {
    MergeOverlapping(written, part, added);
  }

  lemma TailInside(d: seq<Entry>, more: seq<Entry>, n: nat)
    ensures forall e :: e in TakeLast(d, n) ==> e in d + more
  {
  }

  lemma AscendingPrefix(log: seq<Entry>, k: nat)
    requires Ascending(log, 0) && k <= |log|
    ensures Ascending(log[..k], 0)
  {
  }

  // ---- A read, then writes, then a read ----

  /** What a read leaves in the cache. */
  lemma CachedByRead(st: Store, s: Sid, log: seq<Entry>)
    requires st.cache.Valid() && SessionOk(st, s, log)
    ensures var st' := AfterList(st, s);
      && OnDisk(st', s) == OnDisk(st, s) && QueueOf(st', s) == QueueOf(st, s) && st'.cache.Has(s)
      && st'.cache.vals[s] ==
        (if st.cache.Has(s) then Cached(TakeLast(log, CACHE_MAX_ENTRIES), |log| <= CACHE_MAX_ENTRIES)
         else Cached(TakeLast(OnDisk(st, s), CACHE_MAX_ENTRIES), |OnDisk(st, s)| <= CACHE_MAX_ENTRIES))
  {
    ReadTouches(st, s);
    if st.cache.Has(s) && !st.cache.vals[s].complete {
      TailOfListing(OnDisk(st, s), QueueOf(st, s), log);
    }
  }

  lemma TailOfListing(disk: seq<Entry>, queue: seq<Entry>, log: seq<Entry>)
    requires Ascending(log, 0) && disk + queue == log && |log| > CACHE_MAX_ENTRIES
    ensures var tail := TakeLast(log, CACHE_MAX_ENTRIES);
      TakeLast(Merge(disk, tail), CACHE_MAX_ENTRIES) == tail && |Merge(disk, tail)| >= CACHE_MAX_ENTRIES
  {
    var a, b := |disk|, |log| - CACHE_MAX_ENTRIES;
    assert disk == log[..a];
    if b <= a { TailReaches(log, a, b); } else { TailFallsShort(log, a, b); }
    hide Merge;
  }

  /** After a read and `n` completed writes: a session that was cached reads back exactly
      unless more than 512 writes are left; one that missed the cache reads back exactly
      only if nothing was queued, or its file alone overflows the cache and all writes
      have completed by now. */
  predicate ReadsBack(st: Store, s: Sid, n: nat)
    requires n <= |QueueOf(st, s)|
  {
    if st.cache.Has(s) then |QueueOf(st, s)| - n <= CACHE_MAX_ENTRIES
    else QueueOf(st, s) == [] || (|OnDisk(st, s)| > CACHE_MAX_ENTRIES && n == |QueueOf(st, s)|)
  }

  lemma ReadThenReadIff(st: Store, s: Sid, log: seq<Entry>, n: nat)
    requires st.cache.Valid() && SessionOk(st, s, log) && n <= |QueueOf(st, s)|
    ensures Listing(Flushed(AfterList(st, s), s, n), s) == log <==> ReadsBack(st, s, n)
  {
    CachedByRead(st, s, log);
    hide AfterList;
    hide Repair;
    if st.cache.Has(s) {
      CachedThenWrites(AfterList(st, s), s, log, n);
    } else {
      MissedReadThenWrites(AfterList(st, s), s, log, n);
    }
  }

  lemma WrittenPart(d: seq<Entry>, q: seq<Entry>, n: nat)
    requires n <= |q|
    ensures d + q[..n] == (d + q)[..|d + q| - (|q| - n)]
  {
  }

  /** A session with the right tail in the cache, after `n` completed writes. */
  lemma CachedThenWrites(st: Store, s: Sid, log: seq<Entry>, n: nat)
    requires Ascending(log, 0) && OnDisk(st, s) + QueueOf(st, s) == log && n <= |QueueOf(st, s)|
    requires st.cache.Has(s) && TailOk(st.cache.vals[s], log)
    ensures Listing(Flushed(st, s, n), s) == log <==> |QueueOf(st, s)| - n <= CACHE_MAX_ENTRIES
  {
    hide Flushed;
    hide Repair;
    hide Merge;
    hide Ascending;
    FlushedState(st, s, n);
    WrittenPart(OnDisk(st, s), QueueOf(st, s), n);
    if |log| > CACHE_MAX_ENTRIES { MergeRebuildsIff(log, |QueueOf(st, s)| - n, CACHE_MAX_ENTRIES); }
  }

  /** A session whose file was taken for the whole log, after `n` completed writes. */
  lemma MissedReadThenWrites(st: Store, s: Sid, log: seq<Entry>, n: nat)
    requires Ascending(log, 0) && OnDisk(st, s) + QueueOf(st, s) == log && n <= |QueueOf(st, s)|
    requires st.cache.Has(s)
    requires var d := OnDisk(st, s);
      st.cache.vals[s] == Cached(TakeLast(d, CACHE_MAX_ENTRIES), |d| <= CACHE_MAX_ENTRIES)
    ensures Listing(Flushed(st, s, n), s) == log <==>
      QueueOf(st, s) == [] || (|OnDisk(st, s)| > CACHE_MAX_ENTRIES && n == |QueueOf(st, s)|)
  {
    hide Flushed;
    hide Repair;
    hide Merge;
    FlushedState(st, s, n);
    var d, q := OnDisk(st, s), QueueOf(st, s);
    if |d| > CACHE_MAX_ENTRIES {
      var written, tail := d + q[..n], TakeLast(d, CACHE_MAX_ENTRIES);
      WrittenPart(d, q, n);
      AscendingPrefix(log, |written|);
      TailInside(d, q[..n], CACHE_MAX_ENTRIES);
      assert tail + [] == tail && written + [] == written;
      MergeTailOfFile(written, tail, []);
    }
  }

  // ---- An append, then writes, then a read ----

  /** An append with the session cached, or with nothing queued, keeps the session sound. */
  lemma QuietAppend(st: Store, s: Sid, log: seq<Entry>, body: string, supplied: Option<int>)
    requires st.cache.Valid() && SessionOk(st, s, log) && (st.cache.Has(s) || QueueOf(st, s) == [])
    ensures var (st', e) := Append(st, s, body, supplied);
      && SessionOk(st', s, log + [e]) && e == Entry(AssignedSeq(LastSeq(log, 0), supplied), body)
      && st'.cache.Has(s) && QueueOf(st', s) == QueueOf(st, s) + [e]
  {
    var e := Append(st, s, body, supplied).1;
    ListingExactIff(st, s, log);
    var st1 := if s in st.latest then st else AfterList(st, s);
    if s !in st.latest {
      ReadTouches(st, s);
      CachedByRead(st, s, log);
      assert SessionOk(st1, s, log);
    }
    PushTouches(st1, s, e);
    var base := if st1.cache.Has(s) then st1.cache.vals[s].entries else OnDisk(st1, s);
    AppendedSession(st1, Push(st1, s, e), s, log, e, base, !st1.cache.Has(s) || st1.cache.vals[s].complete);
  }

  /** An append that misses the cache with writes queued caches the file plus itself. */
  lemma MissedAppend(st: Store, s: Sid, log: seq<Entry>, body: string, supplied: Option<int>)
    requires st.cache.Valid() && SessionOk(st, s, log) && Tracked(st, s)
    requires !st.cache.Has(s) && QueueOf(st, s) != []
    ensures var (st', e) := Append(st, s, body, supplied);
      && e == Entry(AssignedSeq(LastSeq(log, 0), supplied), body) && e.eventSeq > LastSeq(log, 0)
      && OnDisk(st', s) == OnDisk(st, s) && QueueOf(st', s) == QueueOf(st, s) + [e] && st'.cache.Has(s)
      && var more := OnDisk(st, s) + [e];
         st'.cache.vals[s] == Cached(TakeLast(more, CACHE_MAX_ENTRIES), |more| <= CACHE_MAX_ENTRIES)
  {
    PushTouches(st, s, Append(st, s, body, supplied).1);
  }

  /** After an append and `n` completed writes: a session that was cached, or had nothing
      queued, reads back exactly unless more than 512 writes are left; otherwise only if
      its file fills the cache and everything queued before the append has completed. */
  predicate AppendReadsBack(st: Store, s: Sid, n: nat)
    requires n <= |QueueOf(st, s)| + 1
  {
    if st.cache.Has(s) || QueueOf(st, s) == [] then |QueueOf(st, s)| + 1 - n <= CACHE_MAX_ENTRIES
    else |OnDisk(st, s)| >= CACHE_MAX_ENTRIES && n >= |QueueOf(st, s)|
  }

  lemma AppendThenReadIff(st: Store, s: Sid, log: seq<Entry>, body: string, supplied: Option<int>, n: nat)
    requires st.cache.Valid() && SessionOk(st, s, log) && Tracked(st, s) && n <= |QueueOf(st, s)| + 1
    ensures var (st', e) := Append(st, s, body, supplied);
      Listing(Flushed(st', s, n), s) == log + [e] <==> AppendReadsBack(st, s, n)
  {
    var (st', e) := Append(st, s, body, supplied);
    if st.cache.Has(s) || QueueOf(st, s) == [] {
      QuietAppend(st, s, log, body, supplied);
      hide Append;
      CachedThenWrites(st', s, log + [e], n);
    } else {
      MissedAppend(st, s, log, body, supplied);
      hide Append;
      MissedThenWrites(st, st', s, log, e, n);
    }
  }

  lemma MissedThenWrites(st: Store, st': Store, s: Sid, log: seq<Entry>, e: Entry, n: nat)
    requires SessionOk(st, s, log) && !st.cache.Has(s) && QueueOf(st, s) != [] && n <= |QueueOf(st, s)| + 1
    requires e.eventSeq > LastSeq(log, 0) && st'.cache.Has(s)
    requires OnDisk(st', s) == OnDisk(st, s) && QueueOf(st', s) == QueueOf(st, s) + [e]
    requires var more := OnDisk(st, s) + [e];
      st'.cache.vals[s] == Cached(TakeLast(more, CACHE_MAX_ENTRIES), |more| <= CACHE_MAX_ENTRIES)
    ensures Listing(Flushed(st', s, n), s) == log + [e] <==>
      |OnDisk(st, s)| >= CACHE_MAX_ENTRIES && n >= |QueueOf(st, s)|
  {
    var d, q := OnDisk(st, s), QueueOf(st, s);
    ExtendLog(d, q, log, e);
    assert d + (q + [e]) == log + [e];
    FlushedState(st', s, n);
    hide Flushed;
    hide Repair;
    hide Merge;
    if |d| >= CACHE_MAX_ENTRIES { MergedAfterMiss(d, q, e, n); }
  }

  /** File with `n` writes, cached tail of the older file plus the appended entry. */
  lemma MergedAfterMiss(d: seq<Entry>, q: seq<Entry>, e: Entry, n: nat)
    requires Ascending(d + (q + [e]), 0) && n <= |q| + 1 && |d| >= CACHE_MAX_ENTRIES
    ensures Merge(d + (q + [e])[..n], TakeLast(d + [e], CACHE_MAX_ENTRIES)) == d + (q + [e]) <==> n >= |q|
  {
    var all, written := d + (q + [e]), d + (q + [e])[..n];
    var part := TakeLast(d, CACHE_MAX_ENTRIES - 1);
    assert TakeLast(d + [e], CACHE_MAX_ENTRIES) == part + [e];
    assert written == all[..|d| + n];
    hide Merge;
    if n <= |q| {
      TailInside(d, (q + [e])[..n], CACHE_MAX_ENTRIES - 1);
      AscendingWithLast(all, |d| + n);
      MergeTailOfFile(written, part, [e]);
      assert all[|all| - 1] == e;
    } else {
      assert written == all && e in all by { assert all[|all| - 1] == e; }
      TailInside(d, (q + [e])[..n], CACHE_MAX_ENTRIES - 1);
      var tail := part + [e];
      assert tail + [] == tail && all + [] == all;
      MergeTailOfFile(all, tail, []);
    }
  }

  lemma AscendingWithLast(all: seq<Entry>, k: nat)
    requires Ascending(all, 0) && k < |all|
    ensures Ascending(all[..k] + [all[|all| - 1]], 0)
  {
  }

  // ---- After every quiescent run ----

  lemma RepresentedAfterRun(disk: map<Sid, seq<Line>>, ops: seq<Operation>, s: Sid)
    requires QuiescentRun(Started(disk), ops)
    ensures var st := Run(Started(disk), ops).0;
      st.cache.Valid() && SessionOk(st, s, LogOf(AbstractRun(Repaired(disk), ops).0, s)) && Tracked(st, s)
  {
    StartRepresents(disk);
    RunRefines(Started(disk), Repaired(disk), ops);
    EveryRunTracks(disk, ops, s);
  }

  /** After every quiescent run over any files: a read, or a read after a read and `n`
      completed writes, or a read after an append and `n` completed writes, returns the
      whole log if and only if the stated condition held before. */
  lemma ReadsBackAfterRunIff(disk: map<Sid, seq<Line>>, ops: seq<Operation>, s: Sid, body: string,
      supplied: Option<int>, n: nat)
    requires QuiescentRun(Started(disk), ops)
    ensures var st, log := Run(Started(disk), ops).0, LogOf(AbstractRun(Repaired(disk), ops).0, s);
      var (st', e) := Append(st, s, body, supplied);
      && (Listing(st, s) == log <==> ReadQuiescent(st, s))
      && (n <= |QueueOf(st, s)| ==> (Listing(Flushed(AfterList(st, s), s, n), s) == log <==> ReadsBack(st, s, n)))
      && (n <= |QueueOf(st, s)| + 1 ==> (Listing(Flushed(st', s, n), s) == log + [e] <==> AppendReadsBack(st, s, n)))
  {
    RepresentedAfterRun(disk, ops, s);
    var st, log := Run(Started(disk), ops).0, LogOf(AbstractRun(Repaired(disk), ops).0, s);
    hide *;
    ListingExactIff(st, s, log);
    if n <= |QueueOf(st, s)| { ReadThenReadIff(st, s, log, n); }
    if n <= |QueueOf(st, s)| + 1 { AppendThenReadIff(st, s, log, body, supplied, n); }
  }

  // ---- Quiescence is exactly refinement ----

  /** Output and state of one operation are those of the append-only log. */
  ghost predicate Matches(st: Store, log: Log, op: Operation)
  {
    Step(st, op).1 == AbstractStep(log, op).1 && Represents(Step(st, op).0, AbstractStep(log, op).0)
  }

  lemma MissedTailIsWrong(d: seq<Entry>, q: seq<Entry>, e: Entry)
    requires Ascending(d + q, 0) && q != []
    ensures var more := d + [e];
      !TailOk(Cached(TakeLast(more, CACHE_MAX_ENTRIES), |more| <= CACHE_MAX_ENTRIES), d + q + [e])
  {
    var more, all := d + [e], d + q + [e];
    if |more| > CACHE_MAX_ENTRIES {
      var a, b := TakeLast(more, CACHE_MAX_ENTRIES), TakeLast(all, CACHE_MAX_ENTRIES);
      assert a[CACHE_MAX_ENTRIES - 2] == d[|d| - 1] && b[CACHE_MAX_ENTRIES - 2] == q[|q| - 1];
      assert (d + q)[|d| - 1] == d[|d| - 1] && (d + q)[|d + q| - 1] == q[|q| - 1];
    }
  }

  /** One operation of a represented store matches the append-only log if and only if
      it is quiescent: the conditions on reads and on appends are both needed. */
  lemma StepMatchesIff(st: Store, log: Log, op: Operation)
    requires Represents(st, log) && (op.AppendTo? ==> Tracked(st, op.s))
    ensures Matches(st, log, op) <==> Quiescent(st, op)
  {
    if Quiescent(st, op) {
      StepRefines(st, log, op);
    } else if op.Read? {
      assert SessionOk(st, op.s, LogOf(log, op.s));
      ListingExactIff(st, op.s, LogOf(log, op.s));
    } else {
      var s, l := op.s, LogOf(log, op.s);
      assert SessionOk(st, s, l);
      MissedAppend(st, s, l, op.body, op.supplied);
      var (st', e) := Append(st, s, op.body, op.supplied);
      hide Append;
      MissedTailIsWrong(OnDisk(st, s), QueueOf(st, s), e);
      assert LogOf(AbstractStep(log, op).0, s) == l + [e];
      assert !SessionOk(st', s, l + [e]);
    }
  }

  /** Every operation of the run matches, in output and in state. */
  ghost predicate MatchingRun(disk: map<Sid, seq<Line>>, ops: seq<Operation>)
  {
    ops == [] ||
    (MatchingRun(disk, ops[..|ops| - 1]) &&
     Matches(Run(Started(disk), ops[..|ops| - 1]).0, AbstractRun(Repaired(disk), ops[..|ops| - 1]).0, ops[|ops| - 1]))
  }

  /** A run over any files refines the append-only logs operation by operation if and
      only if it is quiescent. */
  lemma {:induction false} RunMatchesIff(disk: map<Sid, seq<Line>>, ops: seq<Operation>)
    ensures MatchingRun(disk, ops) <==> QuiescentRun(Started(disk), ops)
  {
    if ops == [] {
    } else {
      var init, last := ops[..|ops| - 1], ops[|ops| - 1];
      RunMatchesIff(disk, init);
      if QuiescentRun(Started(disk), init) {
        StartRepresents(disk);
        RunRefines(Started(disk), Repaired(disk), init);
        if last.AppendTo? { EveryRunTracks(disk, init, last.s); }
        hide Matches;
        hide Quiescent;
        hide Represents;
        StepMatchesIff(Run(Started(disk), init).0, AbstractRun(Repaired(disk), init).0, last);
      }
    }
  }

  // ---- Short reads from an empty directory ----

  /** A quiescent run after which a read finds one of two events, and still finds one
      after the other's write has completed; and after which an append hides the second
      event from the next read. */
  lemma ReadsStayShort(s: Sid, body: string) returns (ops: seq<Operation>)
    requires s != ""
    ensures QuiescentRun(Started(map[]), ops)
    ensures LogOf(AbstractRun(Repaired(map[]), ops).0, s) == [Entry(1, "first"), Entry(2, "second")]
    ensures Run(Started(map[]), ops + [Read(s)] + [WriteDone(s)] + [Read(s)]).1 ==
      Run(Started(map[]), ops).1 + [Listed([Entry(1, "first")])] + [Silent] + [Listed([Entry(1, "first")])]
    ensures Run(Started(map[]), ops + [AppendTo(s, body, None)] + [Read(s)]).1 ==
      Run(Started(map[]), ops).1 + [Stored(Entry(3, body))] + [Listed([Entry(1, "first"), Entry(3, body)])]
  {
    var start := Started(map[]);
    ops := NumbersRepeat(s, body);
    var st := Run(start, ops).0;
    RepresentedAfterRun(map[], ops, s);
    hide *;
    var log := LogOf(AbstractRun(Repaired(map[]), ops).0, s);
    StaleSteps(st, s, log, body);
    RunMore(start, ops, Read(s));
    RunMore(start, ops + [Read(s)], WriteDone(s));
    RunMore(start, ops + [Read(s)] + [WriteDone(s)], Read(s));
    RunMore(start, ops, AppendTo(s, body, None));
    RunMore(start, ops + [AppendTo(s, body, None)], Read(s));
  }

  lemma StaleSteps(st: Store, s: Sid, log: seq<Entry>, body: string)
    requires s != "" && st.cache.Valid() && SessionOk(st, s, log) && Tracked(st, s)
    requires !st.cache.Has(s) && OnDisk(st, s) == [Entry(1, "first")] && QueueOf(st, s) == [Entry(2, "second")]
    ensures var (st1, out1) := Step(st, Read(s));
      var (st2, out2) := Step(st1, WriteDone(s));
      && out1 == Listed([Entry(1, "first")]) && out2 == Silent
      && Step(st2, Read(s)).1 == Listed([Entry(1, "first")])
    ensures var (st1, out1) := Step(st, AppendTo(s, body, None));
      out1 == Stored(Entry(3, body)) && Step(st1, Read(s)).1 == Listed([Entry(1, "first"), Entry(3, body)])
  {
    CachedByRead(st, s, log);
    MissedAppend(st, s, log, body, None);
    assert log == [Entry(1, "first")] + [Entry(2, "second")];
    assert [Entry(1, "first")] + [Entry(3, body)] == [Entry(1, "first"), Entry(3, body)];
    assert Flush(AfterList(st, s), s).cache == AfterList(st, s).cache;
    hide AfterList;
    hide Append;
    hide Repair;
  }
}
