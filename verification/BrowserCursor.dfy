/** The browser side of replay (useCodeHarbor.ts): one cursor per session that
    accepts only the next number, composed with the relay's resume. */
module BrowserCursor {
  import opened OrderedMaps
  import EventPaging
  import ResumeReplay

  type Sid = string

  const CURSOR_LIMIT: nat := 10_000
  const CURSORS_KEPT: nat := 8_000
  const SEEN_LIMIT: nat := 2000
  const SEEN_KEPT: nat := 1000
  const RESUME_ATTEMPTS: nat := 10

  /** A decoded socket frame. */
  datatype Incoming =
    | Numbered(s: Sid, n: nat, request: Option<string>)
    | Unnumbered(request: Option<string>)
    | Gap(s: Sid, availableFrom: nat)
    | Complete(returned: seq<(Sid, nat)>, truncated: bool)

  /** What a step does to the numbers of a session: shown as an event, matched to
      an optimistic or already shown row, covered by a loaded list, passed because a
      loaded log no longer holds them, skipped by a resume reply, or rebased on a
      retention gap. */
  datatype Mark =
    | Applied(s: Sid, n: nat)
    | Matched(s: Sid, n: nat)
    | Covered(s: Sid, lo: nat, hi: nat, list: seq<EventPaging.Event>)
    | Removed(s: Sid, lo: nat, hi: nat, log: seq<EventPaging.Event>)
    | Skipped(s: Sid, lo: nat, hi: nat)
    | Rebased(s: Sid, to: nat)

  datatype Client = Client(cursors: OrderedMap<Sid, nat>, seen: seq<string>, attempts: nat) {
    function CursorOf(s: Sid): nat
    {
      if s in cursors.vals then cursors.vals[s] else 0
    }
  }

  // ---- Cursor updates ----

  function SaveCursor(c: Client, s: Sid, n: nat): Client
  {
    if s == "" || n <= c.CursorOf(s) then c else
    var more := c.cursors.Set(s, n);
    c.(cursors := if |more.keys| > CURSOR_LIMIT then more.Trim(CURSORS_KEPT) else more)
  }

  function ResetCursor(c: Client, s: Sid, n: nat): Client
  {
    if s == "" then c else c.(cursors := c.cursors.Set(s, n))
  }

  function SaveAll(c: Client, returned: seq<(Sid, nat)>): Client
  {
    if returned == [] then c
    else SaveCursor(SaveAll(c, returned[..|returned| - 1]), returned[|returned| - 1].0, returned[|returned| - 1].1)
  }

  predicate Advanced(before: Client, after: Client)
  {
    exists s :: s in after.cursors.keys && after.CursorOf(s) > before.CursorOf(s)
  }

  // ---- Frames ----

  function Decimal(n: nat): string
  {
    if n < 10 then ["0123456789"[n]] else Decimal(n / 10) + ["0123456789"[n % 10]]
  }

  function RequestKey(request: Option<string>): string
  {
    if request.Some? then "request:" + request.value else ""
  }

  function EventKey(s: Sid, n: nat): string { s + ":" + Decimal(n) }

  function See(seen: seq<string>, key: string): (r: seq<string>)
    ensures key in r && |r| <= if |seen| < SEEN_LIMIT then SEEN_LIMIT else |seen|
    ensures forall k :: k in r ==> k in seen || k == key
    ensures |seen| < SEEN_LIMIT ==> |r| <= |seen| + 1 && forall k :: k in seen ==> k in r
  {
    if key in seen then seen else
    var more := seen + [key];
    assert TakeLast(more, SEEN_KEPT)[|TakeLast(more, SEEN_KEPT)| - 1] == key;
    if |more| > SEEN_LIMIT then TakeLast(more, SEEN_KEPT) else more
  }

  /** The handler's result: the new client, the marks, and whether it asks for a
      further resume. */
  datatype Handled = Handled(client: Client, marks: seq<Mark>, resume: bool)

  function HandleUnnumbered(c: Client, request: Option<string>): Handled
  {
    var key := RequestKey(request);
    Handled(if key == "" then c else c.(seen := See(c.seen, key)), [], false)
  }

  function HandleNumbered(c: Client, s: Sid, n: nat, request: Option<string>): Handled
  {
    if s == "" then HandleUnnumbered(c, request)
    else if n <= c.CursorOf(s) || n > c.CursorOf(s) + 1 then Handled(c, [], false)
    else if (request.Some? && RequestKey(request) in c.seen) || EventKey(s, n) in c.seen then
      Handled(SaveCursor(c, s, n), [Matched(s, n)], false)
    else
      Handled(SaveCursor(c.(seen := See(c.seen, EventKey(s, n))), s, n), [Applied(s, n)], false)
  }

  function SkipMarks(before: Client, after: Client, keys: seq<Sid>): seq<Mark>
  {
    if keys == [] then []
    else
      SkipMarks(before, after, keys[..|keys| - 1]) +
      var s := keys[|keys| - 1];
      if after.CursorOf(s) != before.CursorOf(s) then [Skipped(s, before.CursorOf(s), after.CursorOf(s))] else []
  }

  function HandleComplete(c: Client, returned: seq<(Sid, nat)>, truncated: bool): Handled
  {
    if !truncated || c.attempts >= RESUME_ATTEMPTS then Handled(c, [], false) else
    var saved := SaveAll(c, returned);
    var marks := SkipMarks(c, saved, saved.cursors.keys);
    if Advanced(c, saved) then Handled(saved.(attempts := c.attempts + 1), marks, true)
    else Handled(saved, marks, false)
  }

  function HandleGap(c: Client, s: Sid, availableFrom: nat): Handled
  {
    if s == "" || availableFrom == 0 then Handled(c, [], false)
    else Handled(ResetCursor(c, s, availableFrom - 1), [Rebased(s, availableFrom - 1)], false)
  }

  function Handle(c: Client, frame: Incoming): Handled
  {
    match frame
    case Numbered(s, n, request) => HandleNumbered(c, s, n, request)
    case Unnumbered(request) => HandleUnnumbered(c, request)
    case Gap(s, from) => HandleGap(c, s, from)
    case Complete(returned, truncated) => HandleComplete(c, returned, truncated)
  }

  /** A retained log: consecutive positive numbers. */
  predicate Contiguous(log: seq<EventPaging.Event>)
  {
    forall i :: 0 <= i < |log| ==> log[i].eventSeq == log[0].eventSeq + i && log[0].eventSeq > 0
  }

  /** What the paging loop loads of a log. */
  function LoadedList(log: seq<EventPaging.Event>): seq<EventPaging.Event>
  {
    EventPaging.Loaded(log, 0, EventPaging.LOADER_PAGES)
  }

  /** loadSessionEvents at its end: the cursor follows the largest number loaded. */
  function LoadSnapshot(c: Client, s: Sid, log: seq<EventPaging.Event>): (Client, seq<Mark>)
  {
    var list := LoadedList(log);
    var last, cursor := EventPaging.LastSeq(list, 0), c.CursorOf(s);
    if s == "" || last <= cursor then (c, []) else
    var lo := list[0].eventSeq - 1;
    (SaveCursor(c, s, last),
     if lo <= cursor then [Covered(s, cursor, last, list)]
     else [Removed(s, cursor, lo, log), Covered(s, lo, last, list)])
  }

  ghost predicate Numbers(list: seq<EventPaging.Event>, n: nat)
  {
    exists i :: 0 <= i < |list| && list[i].eventSeq == n
  }

  /** Covered numbers are in the loaded list, removed ones are not in the log. */
  ghost predicate Truthful(mark: Mark)
  {
    && (mark.Covered? ==> forall n :: mark.lo < n <= mark.hi ==> Numbers(mark.list, n))
    && (mark.Removed? ==> forall n :: mark.lo < n <= mark.hi ==> !Numbers(mark.log, n))
  }

  /** The loaded list is the start of the log, so what it covers starts where the log
      does: a number passed by a snapshot was loaded, or no longer retained. */
  lemma SnapshotIsTruthful(c: Client, s: Sid, log: seq<EventPaging.Event>)
    requires Contiguous(log)
    ensures forall i :: 0 <= i < |LoadSnapshot(c, s, log).1| ==> Truthful(LoadSnapshot(c, s, log).1[i])
  {
    var k := ListIsStart(log);
    hide EventPaging.Loaded;
    var list := LoadedList(log);
    if list != [] {
      var first, last := log[0].eventSeq, EventPaging.LastSeq(list, 0);
      forall n: nat | first <= n <= last ensures Numbers(list, n) {
        assert list[n - first].eventSeq == n;
      }
    }
  }

  lemma ListIsStart(log: seq<EventPaging.Event>) returns (k: nat)
    requires Contiguous(log)
    ensures k <= |log| && LoadedList(log) == log[..k]
  {
    assert EventPaging.Increasing(log);
    EventPaging.AfterNothing(log, 0);
    k := EventPaging.LoadedIsPrefix(log, 0, EventPaging.LOADER_PAGES);
  }

  // ---- The hook's mutable state ----

  class Browser {
    var cursors: OrderedMap<Sid, nat>
    var seen: seq<string>
    var attempts: nat

    ghost function View(): Client reads this { Client(cursors, seen, attempts) }

    constructor ()
      ensures View() == Client(Empty(), [], 0)
    {
      cursors, seen, attempts := Empty(), [], 0;
    }

    method CursorOf(s: Sid) returns (n: nat)
      ensures n == View().CursorOf(s)
    {
      n := if s in cursors.vals then cursors.vals[s] else 0;
    }

    method Save(s: Sid, n: nat)
      modifies this`cursors
      ensures View() == SaveCursor(old(View()), s, n)
    {
      if s == "" { return; }
      var current := CursorOf(s);
      if n > current {
        cursors := cursors.Set(s, n);
        if |cursors.keys| > CURSOR_LIMIT {
          cursors := EvictOldest(cursors, CURSORS_KEPT);
        }
      }
    }

    /** A frame without session or number is remembered by its request alone. */
    method OnUnnumbered(request: Option<string>) returns (shown: bool)
      modifies this`seen
      ensures View() == HandleUnnumbered(old(View()), request).client
      ensures shown <==> request.Some? ==> "request:" + request.value !in old(seen)
    {
      if request.None? { return true; }
      var key := RequestKey(request);
      if key in seen { return false; }
      seen := seen + [key];
      if |seen| > SEEN_LIMIT {
        seen := TakeLast(seen, SEEN_KEPT);
      }
      return true;
    }

    /** The event branch of ws.onmessage. */
    method OnEvent(s: Sid, n: nat, request: Option<string>) returns (shown: bool)
      modifies this`cursors, this`seen
      ensures View() == HandleNumbered(old(View()), s, n, request).client
      ensures s != "" ==> (shown <==>
        && n == (if s in old(cursors).vals then old(cursors).vals[s] else 0) + 1
        && (request.Some? ==> "request:" + request.value !in old(seen))
        && s + ":" + Decimal(n) !in old(seen))
      ensures s != "" ==> (shown <==> HandleNumbered(old(View()), s, n, request).marks == [Applied(s, n)])
      ensures s == "" ==> (shown <==> request.Some? ==> "request:" + request.value !in old(seen))
    {
      if s == "" {
        shown := OnUnnumbered(request);
        return;
      }
      var cursor := CursorOf(s);
      if n <= cursor || n > cursor + 1 { return false; }
      if (request.Some? && RequestKey(request) in seen) || EventKey(s, n) in seen {
        Save(s, n);
        return false;
      }
      seen := seen + [EventKey(s, n)];
      if |seen| > SEEN_LIMIT {
        seen := TakeLast(seen, SEEN_KEPT);
      }
      Save(s, n);
      return true;
    }

    /** The resume-complete branch: save what came back, retry if it advanced. */
    method OnResumeComplete(returned: seq<(Sid, nat)>, truncated: bool) returns (resume: bool)
      modifies this
      ensures View() == HandleComplete(old(View()), returned, truncated).client
      ensures resume == HandleComplete(old(View()), returned, truncated).resume
    {
      if !truncated || attempts >= RESUME_ATTEMPTS { return false; }
      var before := Client(cursors, seen, attempts);
      var i := 0;
      while i < |returned|
        invariant i <= |returned|
        invariant View() == SaveAll(before, returned[..i])
        modifies this`cursors
      {
        assert returned[..i + 1][..i] == returned[..i];
        Save(returned[i].0, returned[i].1);
        i := i + 1;
      }
      assert returned[..i] == returned;
      resume := Advanced(before, Client(cursors, seen, attempts));
      SaveAllKeepsAttempts(before, returned);
      if resume { attempts := attempts + 1; }
    }
  }

  lemma {:induction false} SaveAllKeepsAttempts(c: Client, returned: seq<(Sid, nat)>)
    ensures SaveAll(c, returned).attempts == c.attempts && SaveAll(c, returned).seen == c.seen
  {
    if returned == [] {
    } else {
      SaveAllKeepsAttempts(c, returned[..|returned| - 1]);
    }
  }

  // ---- Below the cursor limit ----

  /** All cursors belong to `sessions` and are positive. */
  ghost predicate Fits(c: Client, sessions: set<Sid>)
  {
    && c.cursors.Valid() && |sessions| <= CURSOR_LIMIT && "" !in sessions
    && forall s :: s in c.cursors.vals ==> s in sessions && c.cursors.vals[s] > 0
  }

  lemma FewKeys<V>(m: OrderedMap<Sid, V>, sessions: set<Sid>)
    requires m.Valid() && forall s :: s in m.keys ==> s in sessions
    ensures |m.keys| <= |sessions|
  {
    DistinctCardinality(m.keys);
    SubsetCardinality(Elements(m.keys), sessions);
  }

  /** Writing one cursor: nothing is trimmed and no other cursor changes. */
  lemma SetFits(c: Client, sessions: set<Sid>, s: Sid, n: nat)
    requires Fits(c, sessions) && s in sessions && n > 0
    ensures var c' := c.(cursors := c.cursors.Set(s, n));
      && Fits(c', sessions) && |c'.cursors.keys| <= CURSOR_LIMIT
      && c'.CursorOf(s) == n && forall o :: o != s ==> c'.CursorOf(o) == c.CursorOf(o)
  {
    var m := c.cursors.Set(s, n);
    if s !in c.cursors.vals { AddKeepsValid(c.cursors, s, n); }
    FewKeys(m, sessions);
  }

  lemma SaveFits(c: Client, sessions: set<Sid>, s: Sid, n: nat)
    requires Fits(c, sessions) && s in sessions
    ensures var c' := SaveCursor(c, s, n);
      && Fits(c', sessions) && c'.seen == c.seen && c'.attempts == c.attempts
      && c'.CursorOf(s) == (if n > c.CursorOf(s) then n else c.CursorOf(s))
      && forall o :: o != s ==> c'.CursorOf(o) == c.CursorOf(o)
  {
    if n > c.CursorOf(s) { SetFits(c, sessions, s, n); }
  }

  // ---- The relay, the socket and the browser together ----

  /** `channel` is the ordered socket; `replay` is the running resume's position
      in each session. */
  datatype System = System(client: Client, channel: seq<Incoming>, replay: Option<map<Sid, nat>>)

  datatype Step =
    | Live(frame: Incoming)                             // any event frame: lost ones are never sent
    | ReplayNext(s: Sid, request: Option<string>)       // the next event of a running resume
    | ReplayGap(s: Sid, first: nat)                     // its retention gap
    | Finish(returned: seq<(Sid, nat)>, truncated: bool)
    | Deliver
    | Snapshot(s: Sid, log: seq<EventPaging.Event>)     // loads what it can of the retained log
    | Optimistic(id: string)
    | Reconnect

  predicate Enabled(sys: System, sessions: set<Sid>, step: Step)
  {
    match step
    case Live(frame) => (frame.Numbered? && frame.s in sessions) || frame.Unnumbered?
    case ReplayNext(s, _) => sys.replay.Some? && s in sys.replay.value
    case ReplayGap(s, first) => sys.replay.Some? && s in sys.replay.value && first > sys.replay.value[s] + 1
    case Finish(returned, _) => sys.replay.Some? &&
      forall e :: e in returned ==> e.0 in sys.replay.value && e.1 == sys.replay.value[e.0]
    case Deliver => sys.channel != []
    case Snapshot(s, log) => s in sessions && Contiguous(log)
    case Optimistic(_) => true
    case Reconnect => true
  }

  function Next(sys: System, step: Step): (System, seq<Mark>)
  {
    match step
    case Live(frame) => (sys.(channel := sys.channel + [frame]), [])
    case ReplayNext(s, request) =>
      if sys.replay.None? || s !in sys.replay.value then (sys, []) else
      var n := sys.replay.value[s] + 1;
      (sys.(channel := sys.channel + [Numbered(s, n, request)], replay := Some(sys.replay.value[s := n])), [])
    case ReplayGap(s, first) =>
      if sys.replay.None? || first == 0 then (sys, []) else
      (sys.(channel := sys.channel + [Gap(s, first)], replay := Some(sys.replay.value[s := first - 1])), [])
    case Finish(returned, truncated) =>
      (sys.(channel := sys.channel + [Complete(returned, truncated)], replay := None), [])
    case Deliver =>
      if sys.channel == [] then (sys, []) else
      var h := Handle(sys.client, sys.channel[0]);
      (System(h.client, sys.channel[1..], if h.resume then Some(h.client.cursors.vals) else sys.replay), h.marks)
    case Snapshot(s, log) =>
      var (c, marks) := LoadSnapshot(sys.client, s, log);
      (sys.(client := c), marks)
    case Optimistic(id) =>
      var key := RequestKey(Some(id));
      var seen := if key in sys.client.seen then sys.client.seen else sys.client.seen + [key];
      (sys.(client := sys.client.(seen := seen)), [])
    case Reconnect =>
      (System(sys.client.(attempts := 0), [], Some(sys.client.cursors.vals)), [])
  }

  // ---- Where the frames on the way will take a cursor ----

  function Moved(frame: Incoming, s: Sid, c: nat): nat
  {
    if frame.Numbered? && frame.s == s && frame.n == c + 1 then frame.n
    else if frame.Gap? && frame.s == s && frame.availableFrom > 0 then frame.availableFrom - 1
    else c
  }

  function Reach(channel: seq<Incoming>, s: Sid, c: nat): nat
    decreases |channel|
  {
    if channel == [] then c else Reach(channel[1..], s, Moved(channel[0], s, c))
  }

  /** Every resume reply on the way returns cursors the browser will have reached. */
  ghost predicate Sound(channel: seq<Incoming>, s: Sid, c: nat)
    decreases |channel|
  {
    channel != [] ==> Reached(channel[0], s, c) && Sound(channel[1..], s, Moved(channel[0], s, c))
  }

  ghost predicate Reached(frame: Incoming, s: Sid, c: nat)
  {
    frame.Complete? ==> forall e :: e in frame.returned && e.0 == s ==> e.1 <= c
  }

  lemma {:induction false} ReachMonotone(channel: seq<Incoming>, s: Sid, c: nat, c': nat)
    requires c <= c'
    ensures Reach(channel, s, c) <= Reach(channel, s, c')
    ensures Sound(channel, s, c) ==> Sound(channel, s, c')
    decreases |channel|
  {
    if channel == [] {
    } else {
      ReachMonotone(channel[1..], s, Moved(channel[0], s, c), Moved(channel[0], s, c'));
    }
  }

  lemma {:induction false} ReachAppend(channel: seq<Incoming>, frame: Incoming, s: Sid, c: nat)
    ensures Reach(channel + [frame], s, c) == Moved(frame, s, Reach(channel, s, c))
    ensures Sound(channel + [frame], s, c) <==> Sound(channel, s, c) && Reached(frame, s, Reach(channel, s, c))
    decreases |channel|
  {
    var all := channel + [frame];
    if channel == [] {
      assert all == [frame] && all[1..] == [];
    } else {
      assert all[1..] == channel[1..] + [frame];
      ReachAppend(channel[1..], frame, s, Moved(channel[0], s, c));
    }
  }

  ghost predicate OnTrack(sys: System, s: Sid)
  {
    var c := sys.client.CursorOf(s);
    && Sound(sys.channel, s, c)
    && (sys.replay.Some? && s in sys.replay.value ==> sys.replay.value[s] <= Reach(sys.channel, s, c))
  }

  ghost predicate WellFormed(frame: Incoming, sessions: set<Sid>)
  {
    match frame
    case Numbered(s, _, _) => s in sessions
    case Unnumbered(_) => true
    case Gap(s, from) => s in sessions && from > 1
    case Complete(returned, _) => forall e :: e in returned ==> e.0 in sessions
  }

  ghost predicate Inv(sys: System, sessions: set<Sid>)
  {
    && Fits(sys.client, sessions)
    && (forall f :: f in sys.channel ==> WellFormed(f, sessions))
    && (sys.replay.Some? ==> forall s :: s in sys.replay.value ==> s in sessions)
    && (forall s :: s in sessions ==> OnTrack(sys, s))
  }

  // ---- Every step keeps the system on track ----

  /** Handing over an event or gap frame moves exactly the cursor it names, as
      the frame's position in the channel promised. */
  lemma HandleMoves(c: Client, sessions: set<Sid>, frame: Incoming)
    requires Fits(c, sessions) && WellFormed(frame, sessions) && !frame.Complete?
    ensures var h := Handle(c, frame);
      && Fits(h.client, sessions) && !h.resume && h.client.attempts == c.attempts
      && forall s :: s in sessions ==> h.client.CursorOf(s) == Moved(frame, s, c.CursorOf(s))
  {
    match frame
    case Numbered(s, n, request) => NumberedMoves(c, sessions, s, n, request);
    case Unnumbered(request) =>
    case Gap(s, from) =>
      SetFits(c, sessions, s, from - 1);
  }

  lemma NumberedMoves(c: Client, sessions: set<Sid>, s: Sid, n: nat, request: Option<string>)
    requires Fits(c, sessions) && s in sessions
    ensures var h := HandleNumbered(c, s, n, request);
      && Fits(h.client, sessions) && !h.resume && h.client.attempts == c.attempts
      && (forall o :: o != s ==> h.client.CursorOf(o) == c.CursorOf(o))
      && h.client.CursorOf(s) == (if n == c.CursorOf(s) + 1 then n else c.CursorOf(s))
      && (h.marks == [] || h.marks == [Applied(s, n)] || h.marks == [Matched(s, n)])
      && (h.marks != [] <==> n == c.CursorOf(s) + 1)
  {
    var marked := c.(seen := See(c.seen, EventKey(s, n)));
    assert marked.cursors == c.cursors;
    hide See;
    hide EventKey;
    hide RequestKey;
    hide SaveCursor;
    SaveFits(marked, sessions, s, n);
    SaveFits(c, sessions, s, n);
  }

  lemma {:induction false} SaveAllIdle(c: Client, returned: seq<(Sid, nat)>)
    requires forall e :: e in returned ==> e.1 <= c.CursorOf(e.0)
    ensures SaveAll(c, returned) == c
  {
    if returned == [] {
    } else {
      SaveAllIdle(c, returned[..|returned| - 1]);
    }
  }

  lemma {:induction false} NoSkipMarks(c: Client, keys: seq<Sid>)
    ensures SkipMarks(c, c, keys) == []
  {
    if keys == [] {
    } else {
      NoSkipMarks(c, keys[..|keys| - 1]);
    }
  }

  /** A resume reply finds every cursor already reached: it moves none of them
      and never triggers the follow-up resume. */
  lemma CompleteIdle(c: Client, sessions: set<Sid>, frame: Incoming)
    requires frame.Complete? && WellFormed(frame, sessions)
    requires forall s :: s in sessions ==> Reached(frame, s, c.CursorOf(s))
    ensures Handle(c, frame) == Handled(c, [], false)
  {
    SaveAllIdle(c, frame.returned);
    NoSkipMarks(c, c.cursors.keys);
  }

  lemma EnqueueKeeps(sys: System, sys': System, sessions: set<Sid>, frame: Incoming)
    requires Inv(sys, sessions) && WellFormed(frame, sessions)
    requires sys'.client == sys.client && sys'.channel == sys.channel + [frame]
    requires sys'.replay.Some? ==> forall s :: s in sys'.replay.value ==> s in sessions
    requires forall s :: s in sessions ==> Reached(frame, s, Reach(sys.channel, s, sys.client.CursorOf(s)))
    requires forall s :: s in sessions && sys'.replay.Some? && s in sys'.replay.value ==>
      sys'.replay.value[s] <= Moved(frame, s, Reach(sys.channel, s, sys.client.CursorOf(s)))
    ensures Inv(sys', sessions)
  {
    forall s | s in sessions ensures OnTrack(sys', s) {
      assert OnTrack(sys, s);
      ReachAppend(sys.channel, frame, s, sys.client.CursorOf(s));
    }
  }

  lemma ClientGrows(sys: System, c: Client, sessions: set<Sid>)
    requires Inv(sys, sessions) && Fits(c, sessions)
    requires forall s :: s in sessions ==> c.CursorOf(s) >= sys.client.CursorOf(s)
    ensures Inv(sys.(client := c), sessions)
  {
    forall s | s in sessions ensures OnTrack(sys.(client := c), s) {
      assert OnTrack(sys, s);
      ReachMonotone(sys.channel, s, sys.client.CursorOf(s), c.CursorOf(s));
    }
  }

  lemma DeliverKeeps(sys: System, sessions: set<Sid>)
    requires Inv(sys, sessions) && sys.channel != []
    ensures Inv(Next(sys, Deliver).0, sessions)
    ensures var head := sys.channel[0];
      if head.Complete? then Handle(sys.client, head) == Handled(sys.client, [], false)
      else forall s :: s in sessions ==>
        Next(sys, Deliver).0.client.CursorOf(s) == Moved(head, s, sys.client.CursorOf(s))
  {
    var head := sys.channel[0];
    assert WellFormed(head, sessions);
    forall s | s in sessions ensures Reached(head, s, sys.client.CursorOf(s)) {
      assert OnTrack(sys, s);
    }
    if head.Complete? {
      CompleteIdle(sys.client, sessions, head);
    } else {
      HandleMoves(sys.client, sessions, head);
    }
    var sys' := Next(sys, Deliver).0;
    hide Handle;
    forall s | s in sessions ensures OnTrack(sys', s) {
      assert OnTrack(sys, s);
    }
  }

  lemma SnapshotFits(c: Client, sessions: set<Sid>, s: Sid, log: seq<EventPaging.Event>)
    requires Fits(c, sessions) && s in sessions
    ensures var c' := LoadSnapshot(c, s, log).0;
      && Fits(c', sessions) && (forall o :: o != s ==> c'.CursorOf(o) == c.CursorOf(o))
      && c'.CursorOf(s) == (if EventPaging.LastSeq(LoadedList(log), 0) > c.CursorOf(s)
                            then EventPaging.LastSeq(LoadedList(log), 0) else c.CursorOf(s))
  {
    hide LoadedList;
    var last := EventPaging.LastSeq(LoadedList(log), 0);
    if last > c.CursorOf(s) { SaveFits(c, sessions, s, last); }
  }

  lemma StepKeeps(sys: System, sessions: set<Sid>, step: Step)
    requires Inv(sys, sessions) && Enabled(sys, sessions, step)
    ensures Inv(Next(sys, step).0, sessions)
  {
    var sys' := Next(sys, step).0;
    forall s | s in sessions ensures OnTrack(sys, s) { }
    match step
    case Live(frame) => EnqueueKeeps(sys, sys', sessions, frame);
    case ReplayNext(s, request) =>
      EnqueueKeeps(sys, sys', sessions, Numbered(s, sys.replay.value[s] + 1, request));
    case ReplayGap(s, first) => EnqueueKeeps(sys, sys', sessions, Gap(s, first));
    case Finish(returned, truncated) => EnqueueKeeps(sys, sys', sessions, Complete(returned, truncated));
    case Deliver => DeliverKeeps(sys, sessions);
    case Snapshot(s, log) =>
      SnapshotFits(sys.client, sessions, s, log);
      ClientGrows(sys, sys'.client, sessions);
    case Optimistic(id) => ClientGrows(sys, sys'.client, sessions);
    case Reconnect =>
      assert Fits(sys'.client, sessions);
      forall s | s in sessions ensures OnTrack(sys', s) { }
  }

  // ---- Whole runs ----

  function Run(sys: System, steps: seq<Step>): (System, seq<Mark>)
  {
    if steps == [] then (sys, []) else
    var (mid, marks) := Run(sys, steps[..|steps| - 1]);
    var (end, more) := Next(mid, steps[|steps| - 1]);
    (end, marks + more)
  }

  ghost predicate Possible(sys: System, sessions: set<Sid>, steps: seq<Step>)
  {
    steps != [] ==>
      Possible(sys, sessions, steps[..|steps| - 1]) &&
      Enabled(Run(sys, steps[..|steps| - 1]).0, sessions, steps[|steps| - 1])
  }

  /** Reading the marks of `s` from number `base`: each must start exactly where
      the previous one ended, and a resume reply must not skip anything. */
  ghost function Position(s: Sid, base: nat, marks: seq<Mark>): Option<nat>
  {
    if marks == [] then Some(base) else
    var before := Position(s, base, marks[..|marks| - 1]);
    var last := marks[|marks| - 1];
    if before.None? || last.s != s then before else
    match last
    case Applied(_, n) => if n == before.value + 1 then Some(n) else None
    case Matched(_, n) => if n == before.value + 1 then Some(n) else None
    case Covered(_, lo, hi, _) => if lo == before.value < hi then Some(hi) else None
    case Removed(_, lo, hi, _) => if lo == before.value < hi then Some(hi) else None
    case Skipped(_, _, _) => None
    case Rebased(_, to) => Some(to)
  }

  lemma {:induction false} PositionConcat(s: Sid, base: nat, marks: seq<Mark>, more: seq<Mark>)
    ensures Position(s, base, marks + more) ==
      if Position(s, base, marks).None? then None else Position(s, Position(s, base, marks).value, more)
  {
    if more == [] {
      assert marks + more == marks;
    } else {
      assert (marks + more)[..|marks + more| - 1] == marks + more[..|more| - 1];
      PositionConcat(s, base, marks, more[..|more| - 1]);
    }
  }

  lemma PositionOfMark(s: Sid, base: nat, mark: Mark)
    ensures Position(s, base, []) == Some(base)
    ensures mark.s != s ==> Position(s, base, [mark]) == Some(base)
    ensures mark.s == s && (mark.Applied? || mark.Matched?) && mark.n == base + 1 ==>
      Position(s, base, [mark]) == Some(mark.n)
    ensures mark.s == s && (mark.Covered? || mark.Removed?) && mark.lo == base < mark.hi ==>
      Position(s, base, [mark]) == Some(mark.hi)
    ensures mark.s == s && mark.Rebased? ==> Position(s, base, [mark]) == Some(mark.to)
  {
    assert [mark][..0] == [];
  }

  /** Delivering one frame: its marks lead from the old cursor to the new one. */
  lemma FrameMarks(c: Client, sessions: set<Sid>, frame: Incoming, s: Sid)
    requires Fits(c, sessions) && WellFormed(frame, sessions) && s in sessions && !frame.Complete?
    ensures Position(s, c.CursorOf(s), Handle(c, frame).marks) == Some(Handle(c, frame).client.CursorOf(s))
  {
    hide Position;
    hide HandleNumbered;
    match frame
    case Numbered(o, n, request) =>
      NumberedMoves(c, sessions, o, n, request);
      PositionOfMark(s, c.CursorOf(s), Applied(o, n));
      PositionOfMark(s, c.CursorOf(s), Matched(o, n));
    case Unnumbered(request) => PositionOfMark(s, c.CursorOf(s), Rebased(s, 0));
    case Gap(o, from) =>
      SetFits(c, sessions, o, from - 1);
      PositionOfMark(s, c.CursorOf(s), Rebased(o, from - 1));
  }

  lemma SnapshotMarks(c: Client, sessions: set<Sid>, o: Sid, log: seq<EventPaging.Event>, s: Sid)
    requires Fits(c, sessions) && o in sessions && s in sessions && Contiguous(log)
    ensures Position(s, c.CursorOf(s), LoadSnapshot(c, o, log).1) == Some(LoadSnapshot(c, o, log).0.CursorOf(s))
  {
    hide Position;
    hide LoadedList;
    hide Contiguous;
    hide Fits;
    hide SaveCursor;
    SnapshotFits(c, sessions, o, log);
    ListEnds(log);
    var list := LoadedList(log);
    var last, base, at := EventPaging.LastSeq(list, 0), c.CursorOf(o), c.CursorOf(s);
    PositionOfMark(s, at, Rebased(s, 0));
    if last > base {
      var lo := list[0].eventSeq - 1;
      if lo <= base {
        PositionOfMark(s, at, Covered(o, base, last, list));
      } else {
        PositionOfMark(s, at, Removed(o, base, lo, log));
        PositionOfMark(s, if s == o then lo else at, Covered(o, lo, last, list));
        PositionConcat(s, at, [Removed(o, base, lo, log)], [Covered(o, lo, last, list)]);
        assert [Removed(o, base, lo, log)] + [Covered(o, lo, last, list)] == LoadSnapshot(c, o, log).1;
      }
    }
  }

  lemma ListEnds(log: seq<EventPaging.Event>)
    requires Contiguous(log)
    ensures var list := LoadedList(log);
      list != [] ==> 0 < list[0].eventSeq <= EventPaging.LastSeq(list, 0)
  {
    var k := ListIsStart(log);
    hide LoadedList;
  }

  /** One step: its marks lead from the old cursor to the new one. */
  lemma StepMarks(sys: System, sessions: set<Sid>, step: Step, s: Sid)
    requires Inv(sys, sessions) && Enabled(sys, sessions, step) && s in sessions
    ensures Position(s, sys.client.CursorOf(s), Next(sys, step).1) == Some(Next(sys, step).0.client.CursorOf(s))
  {
    hide Position;
    hide Handle;
    hide LoadSnapshot;
    PositionOfMark(s, sys.client.CursorOf(s), Rebased(s, 0));
    match step
    case Deliver =>
      var frame := sys.channel[0];
      assert WellFormed(frame, sessions);
      if frame.Complete? { DeliverKeeps(sys, sessions); } else { FrameMarks(sys.client, sessions, frame, s); }
    case Snapshot(o, log) => SnapshotMarks(sys.client, sessions, o, log, s);
    case _ =>
  }

  lemma StepIsTruthful(sys: System, sessions: set<Sid>, step: Step)
    requires Inv(sys, sessions) && Enabled(sys, sessions, step)
    ensures forall i :: 0 <= i < |Next(sys, step).1| ==> Truthful(Next(sys, step).1[i])
  {
    hide Truthful;
    hide Handle;
    hide LoadSnapshot;
    match step
    case Deliver =>
      var frame := sys.channel[0];
      assert WellFormed(frame, sessions);
      if frame.Complete? {
        DeliverKeeps(sys, sessions);
      } else {
        HandleIsTruthful(sys.client, frame);
      }
    case Snapshot(o, log) => SnapshotIsTruthful(sys.client, o, log);
    case _ =>
  }

  lemma HandleIsTruthful(c: Client, frame: Incoming)
    requires !frame.Complete?
    ensures forall i :: 0 <= i < |Handle(c, frame).marks| ==> Truthful(Handle(c, frame).marks[i])
  {
  }

  /** Every run keeps the system on track, and the marks of each session account
      for every number between its first and its last cursor: applied, matched,
      loaded by a snapshot or removed before it, one after another, never skipped. */
  lemma {:induction false} EveryRunAccounts(sys: System, sessions: set<Sid>, steps: seq<Step>)
    requires Inv(sys, sessions) && Possible(sys, sessions, steps)
    ensures var (sys', marks) := Run(sys, steps);
      && Inv(sys', sessions)
      && (forall i :: 0 <= i < |marks| ==> Truthful(marks[i]))
      && forall s :: s in sessions ==> Position(s, sys.client.CursorOf(s), marks) == Some(sys'.client.CursorOf(s))
  {
    if steps == [] {
    } else {
      var init, last := steps[..|steps| - 1], steps[|steps| - 1];
      EveryRunAccounts(sys, sessions, init);
      var (mid, marks) := Run(sys, init);
      StepKeeps(mid, sessions, last);
      StepIsTruthful(mid, sessions, last);
      hide Next;
      hide Inv;
      hide Truthful;
      hide Position;
      forall s | s in sessions
        ensures Position(s, sys.client.CursorOf(s), marks + Next(mid, last).1) ==
          Some(Next(mid, last).0.client.CursorOf(s))
      {
        StepMarks(mid, sessions, last, s);
        PositionConcat(s, sys.client.CursorOf(s), marks, Next(mid, last).1);
      }
    }
  }

  // ---- Between retention resets ----

  ghost predicate NoRebase(s: Sid, marks: seq<Mark>)
  {
    forall i :: 0 <= i < |marks| ==> !(marks[i].Rebased? && marks[i].s == s)
  }

  /** The numbers of `s` shown as events, in order. */
  function Shown(s: Sid, marks: seq<Mark>): seq<nat>
  {
    if marks == [] then [] else
    var last := marks[|marks| - 1];
    Shown(s, marks[..|marks| - 1]) + if last.Applied? && last.s == s then [last.n] else []
  }

  ghost predicate Accounts(mark: Mark, s: Sid, n: nat)
  {
    mark.s == s &&
    match mark
    case Applied(_, k) => k == n
    case Matched(_, k) => k == n
    case Covered(_, lo, hi, list) => lo < n <= hi && Numbers(list, n)
    case Removed(_, lo, hi, log) => lo < n <= hi && !Numbers(log, n)
    case Skipped(_, _, _) => false
    case Rebased(_, _) => false
  }

  /** The cursor only grows, shown numbers strictly increase, and every number
      passed is accounted for by exactly one mark. */
  lemma {:induction false} PositionMeans(s: Sid, base: nat, marks: seq<Mark>, n: nat) returns (i: nat)
    requires Position(s, base, marks).Some? && NoRebase(s, marks)
    requires forall j :: 0 <= j < |marks| ==> Truthful(marks[j])
    ensures var end := Position(s, base, marks).value;
      && base <= end
      && (forall j, k :: 0 <= j < k < |Shown(s, marks)| ==> Shown(s, marks)[j] < Shown(s, marks)[k])
      && (forall j :: 0 <= j < |Shown(s, marks)| ==> base < Shown(s, marks)[j] <= end)
      && (base < n <= end ==> i < |marks| && Accounts(marks[i], s, n))
      && (forall j :: 0 <= j < |marks| && Accounts(marks[j], s, n) ==> base < n <= end && j == i)
  {
    i := 0;
    if marks == [] {
    } else {
      var init, last := marks[..|marks| - 1], marks[|marks| - 1];
      assert marks[|marks| - 1] == last;
      forall j | 0 <= j < |init| ensures init[j] == marks[j] { }
      i := PositionMeans(s, base, init, n);
      if Accounts(last, s, n) { i := |marks| - 1; }
    }
  }

  /** Between retention resets, for any lost, repeated or reordered live frames,
      snapshot loads, optimistic rows, replays and reconnects. */
  lemma BetweenResets(sys: System, sessions: set<Sid>, steps: seq<Step>, s: Sid, n: nat) returns (i: nat)
    requires Inv(sys, sessions) && Possible(sys, sessions, steps) && s in sessions
    requires NoRebase(s, Run(sys, steps).1)
    ensures var (sys', marks) := Run(sys, steps);
      var from, to := sys.client.CursorOf(s), sys'.client.CursorOf(s);
      && from <= to
      && (forall j, k :: 0 <= j < k < |Shown(s, marks)| ==> Shown(s, marks)[j] < Shown(s, marks)[k])
      && (forall j :: 0 <= j < |Shown(s, marks)| ==> from < Shown(s, marks)[j] <= to)
      && (from < n <= to ==> i < |marks| && Accounts(marks[i], s, n))
      && (forall j :: 0 <= j < |marks| && Accounts(marks[j], s, n) ==> from < n <= to && j == i)
  {
    EveryRunAccounts(sys, sessions, steps);
    i := PositionMeans(s, sys.client.CursorOf(s), Run(sys, steps).1, n);
  }

  /** In every run, delivering a resume reply changes nothing: the cursors it
      returns were reached before, so the follow-up resume of a truncated reply
      is never sent. */
  lemma ResumeReplyNeverMoves(sys: System, sessions: set<Sid>, steps: seq<Step>)
    requires Inv(sys, sessions) && Possible(sys, sessions, steps)
    ensures var sys' := Run(sys, steps).0;
      sys'.channel != [] && sys'.channel[0].Complete? ==>
        Handle(sys'.client, sys'.channel[0]) == Handled(sys'.client, [], false)
  {
    EveryRunAccounts(sys, sessions, steps);
    var sys' := Run(sys, steps).0;
    if sys'.channel != [] { DeliverKeeps(sys', sessions); }
  }

  ghost const Login := Client(Empty(), [], 0)

  // ---- The relay's frames are replay steps ----

  /** The positions a resume's frames lead to when every frame is a legal
      ReplayNext or ReplayGap from the positions before it. */
  ghost function Follow(latest: map<Sid, int>, frames: seq<ResumeReplay.Frame>): Option<map<Sid, int>>
  {
    if frames == [] then Some(latest) else
    var before := Follow(latest, frames[..|frames| - 1]);
    var last := frames[|frames| - 1];
    if before.None? || last.ResumeComplete? || last.s !in before.value then None else
    var at := before.value;
    match last
    case Replay(s, e) => if e.eventSeq == at[s] + 1 then Some(at[s := e.eventSeq]) else None
    case HistoryGap(s, _, first, _) => if first > at[s] + 1 then Some(at[s := first - 1]) else None
  }

  /** The events after a cursor inside or before a contiguous log start with the
      next number and go on without a hole. */
  lemma {:induction false} AfterContiguous(log: seq<EventPaging.Event>, c: int)
    requires Contiguous(log) && (log != [] ==> log[0].eventSeq <= c + 1)
    ensures var rest := EventPaging.After(log, c);
      forall i :: 0 <= i < |rest| ==> rest[i].eventSeq == c + 1 + i
  {
    if log == [] {
    } else {
      if log[0].eventSeq <= c {
        var tail := log[1..];
        assert Contiguous(tail) by {
          forall i | 0 <= i < |tail| ensures tail[i].eventSeq == tail[0].eventSeq + i { assert tail[i] == log[i + 1]; }
        }
        if tail != [] { assert tail[0] == log[1]; }
        AfterContiguous(tail, c);
        assert EventPaging.After(log, c) == EventPaging.After(tail, c);
      } else {
        forall e | e in log ensures e.eventSeq > c {
          var i :| 0 <= i < |log| && log[i] == e;
        }
        EventPaging.AfterNothing(log, c);
        assert log[0].eventSeq == c + 1;
      }
    }
  }

  lemma {:induction false} FollowAppend(latest: map<Sid, int>, a: seq<ResumeReplay.Frame>, b: seq<ResumeReplay.Frame>)
    ensures Follow(latest, a + b) == if Follow(latest, a).None? then None else Follow(Follow(latest, a).value, b)
  {
    if b == [] {
      assert a + b == a;
    } else {
      assert (a + b)[..|a + b| - 1] == a + b[..|b| - 1];
      FollowAppend(latest, a, b[..|b| - 1]);
    }
  }

  function Replays(s: Sid, events: seq<EventPaging.Event>): seq<ResumeReplay.Frame>
  {
    seq(|events|, i requires 0 <= i < |events| => ResumeReplay.Replay(s, events[i]))
  }

  lemma {:induction false} EventsFollow(at: map<Sid, int>, s: Sid, events: seq<EventPaging.Event>)
    requires s in at && forall i :: 0 <= i < |events| ==> events[i].eventSeq == at[s] + 1 + i
    ensures Follow(at, Replays(s, events)) == Some(at[s := EventPaging.LastSeq(events, at[s])])
  {
    if events == [] {
      assert at[s := at[s]] == at;
    } else {
      var init := events[..|events| - 1];
      EventsFollow(at, s, init);
      var frames := Replays(s, events);
      assert frames[..|events| - 1] == Replays(s, init);
      assert frames[|events| - 1] == ResumeReplay.Replay(s, events[|events| - 1]);
      var mid := at[s := EventPaging.LastSeq(init, at[s])];
      assert mid[s := events[|events| - 1].eventSeq] == at[s := events[|events| - 1].eventSeq];
    }
  }

  /** A first replayed event with the wrong number stops the whole replay. */
  lemma FirstDecides(at: map<Sid, int>, s: Sid, events: seq<EventPaging.Event>)
    requires events != [] && s in at && events[0].eventSeq != at[s] + 1
    ensures Follow(at, Replays(s, events)).None?
  {
    var first := [ResumeReplay.Replay(s, events[0])];
    assert first[..0] == [];
    assert Follow(at, first).None?;
    assert Replays(s, events) == first + Replays(s, events)[1..];
    FollowAppend(at, first, Replays(s, events)[1..]);
  }

  /** Whether the retained log of a session can be replayed from this cursor. */
  predicate Replayable(log: seq<EventPaging.Event>, cursor: int)
  {
    cursor > 0 || log == [] || log[0].eventSeq <= 1
  }

  lemma SessionFollows(store: ResumeReplay.RelayStore, user: string, s: Sid, at: map<Sid, int>, truncated: bool)
    requires ResumeReplay.Owned(store, user, s) && s in at && at[s] >= 0
    requires ResumeReplay.Sendable(store[s].events) && Contiguous(store[s].events)
    requires Replayable(store[s].events, at[s])
    ensures var serving := ResumeReplay.ResumeSession(store, user, s, at[s], truncated).0;
      Follow(at, ResumeReplay.FramesOf(serving)) == Some(at[s := serving.latest])
  {
    hide Follow;
    hide ResumeReplay.Batches;
    hide ResumeReplay.FramesOf;
    var log := store[s].events;
    var serving := ResumeReplay.ResumeSession(store, user, s, at[s], truncated).0;
    var start := ResumeReplay.Effective(log, at[s]);
    ResumeReplay.BatchesSendStretch(log, start, 0, truncated);
    AfterContiguous(log, start);
    StretchFollows(at, s, serving, start, EventPaging.After(log, start));
  }

  /** A zero cursor on a log whose start was removed: no gap is announced and the
      first event already has the wrong number. */
  lemma ZeroCursorBreaks(store: ResumeReplay.RelayStore, user: string, s: Sid, at: map<Sid, int>, truncated: bool)
    requires ResumeReplay.Owned(store, user, s) && s in at && at[s] >= 0
    requires ResumeReplay.Sendable(store[s].events) && !Replayable(store[s].events, at[s])
    ensures var serving := ResumeReplay.ResumeSession(store, user, s, at[s], truncated).0;
      serving.gap.None? && Follow(at, ResumeReplay.FramesOf(serving)).None?
  {
    hide Follow;
    hide ResumeReplay.Batches;
    var log := store[s].events;
    var serving := ResumeReplay.ResumeSession(store, user, s, at[s], truncated).0;
    ResumeReplay.BatchesSendStretch(log, 0, 0, truncated);
    AllPositive(log);
    assert serving.events != [] && serving.events[0] == log[0];
    assert ResumeReplay.FramesOf(serving) == Replays(s, serving.events);
    FirstDecides(at, s, serving.events);
  }

  /** The frames for one session are legal replay steps ending at the returned
      cursor if and only if the log is replayable from the cursor. */
  lemma SessionFollowsIff(store: ResumeReplay.RelayStore, user: string, s: Sid, at: map<Sid, int>, truncated: bool)
    requires ResumeReplay.Owned(store, user, s) && s in at && at[s] >= 0
    requires ResumeReplay.Sendable(store[s].events) && Contiguous(store[s].events)
    ensures var serving := ResumeReplay.ResumeSession(store, user, s, at[s], truncated).0;
      Follow(at, ResumeReplay.FramesOf(serving)) == Some(at[s := serving.latest]) <==>
        Replayable(store[s].events, at[s])
  {
    hide Follow;
    hide ResumeReplay.ResumeSession;
    if Replayable(store[s].events, at[s]) {
      SessionFollows(store, user, s, at, truncated);
    } else {
      ZeroCursorBreaks(store, user, s, at, truncated);
    }
  }

  /** A gap, if any, and then a stretch of consecutive events. */
  lemma StretchFollows(at: map<Sid, int>, s: Sid, serving: ResumeReplay.Serving, start: int,
      rest: seq<EventPaging.Event>)
    requires s in at && serving.s == s
    requires serving.gap.None? ==> start == at[s]
    requires serving.gap.Some? ==> serving.gap.value.HistoryGap? && serving.gap.value.s == s
    requires serving.gap.Some? ==> serving.gap.value.availableFrom == start + 1 && start > at[s]
    requires forall i :: 0 <= i < |rest| ==> rest[i].eventSeq == start + 1 + i
    requires |serving.events| <= |rest| && serving.events == rest[..|serving.events|]
    requires serving.latest == EventPaging.LastSeq(serving.events, start)
    ensures Follow(at, ResumeReplay.FramesOf(serving)) == Some(at[s := serving.latest])
  {
    hide Follow;
    var moved := at[s := start];
    EventsFollow(moved, s, serving.events);
    assert moved[s := serving.latest] == at[s := serving.latest];
    GapFollows(at, s, serving, start);
  }

  lemma AllPositive(log: seq<EventPaging.Event>)
    requires ResumeReplay.Sendable(log)
    ensures EventPaging.After(log, 0) == log
  {
    EventPaging.AfterNothing(log, 0);
  }

  lemma GapFollows(at: map<Sid, int>, s: Sid, serving: ResumeReplay.Serving, start: int)
    requires s in at && serving.s == s
    requires serving.gap.None? ==> start == at[s]
    requires serving.gap.Some? ==> serving.gap.value.HistoryGap? && serving.gap.value.s == s
    requires serving.gap.Some? ==> serving.gap.value.availableFrom == start + 1 && start > at[s]
    ensures Follow(at, ResumeReplay.FramesOf(serving)) == Follow(at[s := start], Replays(s, serving.events))
  {
    var replays := Replays(s, serving.events);
    if serving.gap.None? {
      assert ResumeReplay.FramesOf(serving) == replays;
      assert at[s := start] == at;
    } else {
      var gap := [serving.gap.value];
      assert ResumeReplay.FramesOf(serving) == gap + replays;
      assert gap[..0] == [];
      FollowAppend(at, gap, replays);
    }
  }

  /** The browser's own cursors, each positive, as the entries of a resume frame. */
  ghost predicate Requested(entries: seq<(Sid, ResumeReplay.RawCursor)>, cursors: map<Sid, int>)
  {
    && (forall i :: 0 <= i < |entries| ==>
      entries[i].0 in cursors && entries[i].1 == ResumeReplay.Integral(cursors[entries[i].0]) && entries[i].1.n > 0)
    && (forall i, j :: 0 <= i < j < |entries| ==> entries[i].0 != entries[j].0)
  }

  ghost predicate Retained(store: ResumeReplay.RelayStore)
  {
    forall s :: s in store ==> ResumeReplay.Sendable(store[s].events) && Contiguous(store[s].events)
  }

  lemma AnySessionFollows(store: ResumeReplay.RelayStore, user: string, s: Sid, at: map<Sid, int>, truncated: bool)
    requires Retained(store) && s in at && at[s] > 0
    ensures var serving := ResumeReplay.ResumeSession(store, user, s, at[s], truncated).0;
      serving.s == s && Follow(at, ResumeReplay.FramesOf(serving)) == Some(at[s := serving.latest])
  {
    if ResumeReplay.Owned(store, user, s) {
      SessionFollowsIff(store, user, s, at, truncated);
    } else {
      assert at[s := at[s]] == at;
    }
  }

  lemma FirstThenRest(at: map<Sid, int>, first: ResumeReplay.Serving, rest: seq<ResumeReplay.Serving>)
    requires Follow(at, ResumeReplay.FramesOf(first)) == Some(at[first.s := first.latest])
    requires var at' := at[first.s := first.latest];
      Follow(at', ResumeReplay.Frames(rest)) == Some(at' + ResumeReplay.Cursors(rest))
    ensures Follow(at, ResumeReplay.Frames([first] + rest)) == Some(at + ResumeReplay.Cursors([first] + rest))
  {
    hide Follow;
    hide ResumeReplay.FramesOf;
    FramesFirst(first, rest);
    ResumeReplay.CursorsOfFirst(first, rest);
    FollowAppend(at, ResumeReplay.FramesOf(first), ResumeReplay.Frames(rest));
    assert at[first.s := first.latest] + ResumeReplay.Cursors(rest) ==
      at + (map[first.s := first.latest] + ResumeReplay.Cursors(rest));
  }

  /** All frames of a resume from the browser's cursors are legal replay steps,
      and the reply returns exactly the positions they lead to. */
  lemma {:induction false} ResumeFollows(store: ResumeReplay.RelayStore, user: string,
      entries: seq<(Sid, ResumeReplay.RawCursor)>, at: map<Sid, int>, processed: nat, truncated: bool)
    requires Retained(store) && Requested(entries, at)
    ensures var served := ResumeReplay.Process(store, user, entries, processed, truncated).0;
      Follow(at, ResumeReplay.Frames(served)) == Some(at + ResumeReplay.Cursors(served))
    decreases |entries|
  {
    hide Follow;
    hide ResumeReplay.ResumeSession;
    hide ResumeReplay.FramesOf;
    hide ResumeReplay.Process;
    ResumeReplay.ProcessCases(store, user, entries, processed, truncated);
    if entries == [] || processed >= ResumeReplay.MAX_RESUME_SESSIONS {
      FollowNothing(at);
    } else if !ResumeReplay.Usable(entries[0].0, entries[0].1) {
      ResumeFollows(store, user, entries[1..], at, processed + 1, true);
    } else {
      var s := entries[0].0;
      var (serving, t) := ResumeReplay.ResumeSession(store, user, s, at[s], truncated);
      AnySessionFollows(store, user, s, at, truncated);
      ResumeFollows(store, user, entries[1..], at[s := serving.latest], processed + 1, t);
      FirstThenRest(at, serving, ResumeReplay.Process(store, user, entries[1..], processed + 1, t).0);
    }
  }

  lemma FollowNothing(at: map<Sid, int>)
    ensures Follow(at, ResumeReplay.Frames([])) == Some(at + ResumeReplay.Cursors([]))
  {
    assert at + map[] == at;
  }

  /** Frames and cursors of a list of servings, read from the front. */
  lemma {:induction false} FramesFirst(first: ResumeReplay.Serving, rest: seq<ResumeReplay.Serving>)
    ensures ResumeReplay.Frames([first] + rest) == ResumeReplay.FramesOf(first) + ResumeReplay.Frames(rest)
  {
    hide ResumeReplay.FramesOf;
    var all := [first] + rest;
    if rest == [] {
      assert all[..0] == [];
    } else {
      var init := rest[..|rest| - 1];
      assert all[..|all| - 1] == [first] + init;
      FramesFirst(first, init);
    }
  }

  // ---- The relay and the browser composed ----

  /** A frame of the relay as the browser decodes it. `request` is the event's client
      request, `order` the order in which the reply's cursors are listed. */
  function Decoded(frame: ResumeReplay.Frame, request: Option<string>, order: seq<Sid>): Incoming
  {
    match frame
    case Replay(s, e) => if e.eventSeq >= 0 then Numbered(s, e.eventSeq, request) else Unnumbered(request)
    case HistoryGap(s, _, first, _) => Gap(s, if first >= 0 then first else 0)
    case ResumeComplete(cursors, truncated) => Complete(Returned(cursors, order), truncated)
  }

  function Returned(cursors: map<Sid, int>, order: seq<Sid>): (r: seq<(Sid, nat)>)
    ensures forall e :: e in r ==> e.0 in cursors && e.1 == cursors[e.0]
  {
    if order == [] then [] else
    var s := order[|order| - 1];
    Returned(cursors, order[..|order| - 1]) + if s in cursors && cursors[s] >= 0 then [(s, cursors[s])] else []
  }

  /** The browser, the socket, the frames the relay has still to send for the running
      resume, and how often the browser asked for a further one. */
  datatype Wire = Wire(client: Client, channel: seq<Incoming>, frames: seq<ResumeReplay.Frame>, followUps: nat)

  datatype Action =
    | Send(request: Option<string>, order: seq<Sid>)
    | Meanwhile(step: Step)
    | Open(store: ResumeReplay.RelayStore, user: string, entries: seq<(Sid, ResumeReplay.RawCursor)>)

  /** Live frames, deliveries, snapshots and optimistic rows. */
  predicate Outside(step: Step) { step.Live? || step.Deliver? || step.Snapshot? || step.Optimistic? }

  /** A new socket resumes from the browser's own cursors, over whatever the relay
      retains then; the relay answers as resumeBrowser does. */
  ghost predicate Legal(w: Wire, sessions: set<Sid>, action: Action)
  {
    match action
    case Send(_, _) => true
    case Meanwhile(step) => Outside(step) && Enabled(System(w.client, w.channel, None), sessions, step)
    case Open(store, _, entries) => Retained(store) && Requested(entries, w.client.cursors.vals)
  }

  function Act(w: Wire, action: Action): (Wire, seq<Mark>)
  {
    match action
    case Send(request, order) =>
      if w.frames == [] then (w, [])
      else (w.(channel := w.channel + [Decoded(w.frames[0], request, order)], frames := w.frames[1..]), [])
    case Meanwhile(step) =>
      var (sys, marks) := Next(System(w.client, w.channel, None), step);
      var asked := if sys.replay.Some? then 1 else 0;
      (w.(client := sys.client, channel := sys.channel, followUps := w.followUps + asked), marks)
    case Open(store, user, entries) =>
      (Wire(w.client.(attempts := 0), [], ResumeReplay.ResumeFrames(store, user, Some(entries)), w.followUps), [])
  }

  function WireRun(w: Wire, actions: seq<Action>): (Wire, seq<Mark>)
  {
    if actions == [] then (w, []) else
    var (mid, marks) := WireRun(w, actions[..|actions| - 1]);
    var (end, more) := Act(mid, actions[|actions| - 1]);
    (end, marks + more)
  }

  ghost predicate LegalRun(w: Wire, sessions: set<Sid>, actions: seq<Action>)
  {
    actions == [] ||
    (LegalRun(w, sessions, actions[..|actions| - 1]) &&
     Legal(WireRun(w, actions[..|actions| - 1]).0, sessions, actions[|actions| - 1]))
  }

  /** The frames still to come are legal replay steps from `at`, and the reply that
      ends them returns positions they lead to. */
  ghost predicate Coming(at: Option<map<Sid, nat>>, frames: seq<ResumeReplay.Frame>)
  {
    frames == [] ||
    (at.Some? && var n := |frames| - 1;
     frames[n].ResumeComplete? && Follow(at.value, frames[..n]).Some? &&
     forall s :: s in frames[n].cursors ==>
       s in Follow(at.value, frames[..n]).value && frames[n].cursors[s] == Follow(at.value, frames[..n]).value[s])
  }

  ghost predicate Linked(w: Wire, sys: System, sessions: set<Sid>)
  {
    && sys.client == w.client && sys.channel == w.channel
    && Coming(sys.replay, w.frames) && Inv(sys, sessions)
  }

  /** The step of the system that sends a frame. */
  function StepOf(frame: ResumeReplay.Frame, request: Option<string>, order: seq<Sid>): Step
  {
    match frame
    case Replay(s, _) => ReplayNext(s, request)
    case HistoryGap(s, _, first, _) => ReplayGap(s, if first >= 0 then first else 0)
    case ResumeComplete(cursors, truncated) => Finish(Returned(cursors, order), truncated)
  }

  lemma FollowOne(at: map<Sid, nat>, frame: ResumeReplay.Frame)
    requires Follow(at, [frame]).Some?
    ensures !frame.ResumeComplete? && frame.s in at
    ensures frame.Replay? ==> frame.event.eventSeq == at[frame.s] + 1
    ensures frame.Replay? ==> Follow(at, [frame]).value == at[frame.s := frame.event.eventSeq]
    ensures frame.HistoryGap? ==> frame.availableFrom > at[frame.s] + 1
    ensures frame.HistoryGap? ==> Follow(at, [frame]).value == at[frame.s := frame.availableFrom - 1]
  {
    assert [frame][..0] == [];
  }

  /** The relay's next frame is a step of the system, puts exactly that frame on the
      socket, and the rest keeps coming. */
  lemma SendIsStep(sys: System, sessions: set<Sid>, frames: seq<ResumeReplay.Frame>, request: Option<string>,
      order: seq<Sid>)
    requires frames != [] && Coming(sys.replay, frames)
    ensures var step := StepOf(frames[0], request, order);
      && Enabled(sys, sessions, step)
      && Next(sys, step).1 == [] && Next(sys, step).0.client == sys.client
      && Next(sys, step).0.channel == sys.channel + [Decoded(frames[0], request, order)]
      && Coming(Next(sys, step).0.replay, frames[1..])
  {
    var n := |frames| - 1;
    var at := sys.replay.value;
    if n == 0 {
      assert Follow(at, frames[..0]) == Some(at);
    } else {
      var first, rest := [frames[0]], frames[1..n];
      assert frames[..n] == first + rest;
      FollowAppend(at, first, rest);
      FollowOne(at, frames[0]);
      assert frames[1..][..n - 1] == rest;
      hide Follow;
    }
  }

  lemma OpenComes(store: ResumeReplay.RelayStore, user: string, entries: seq<(Sid, ResumeReplay.RawCursor)>,
      at: map<Sid, nat>)
    requires Retained(store) && Requested(entries, at)
    ensures Coming(Some(at), ResumeReplay.ResumeFrames(store, user, Some(entries)))
  {
    hide ResumeReplay.Process;
    hide ResumeReplay.Frames;
    hide ResumeReplay.Cursors;
    hide Follow;
    hide Retained;
    hide Requested;
    ResumeFollows(store, user, entries, at, 0, false);
    var served := ResumeReplay.Process(store, user, entries, 0, false).0;
    var frames := ResumeReplay.ResumeFrames(store, user, Some(entries));
    assert frames[..|frames| - 1] == ResumeReplay.Frames(served);
  }

  lemma ActRefines(w: Wire, sys: System, sessions: set<Sid>, action: Action) returns (steps: seq<Step>)
    requires Linked(w, sys, sessions) && Legal(w, sessions, action)
    ensures |steps| <= 1 && Possible(sys, sessions, steps)
    ensures Linked(Act(w, action).0, Run(sys, steps).0, sessions)
    ensures Run(sys, steps).1 == Act(w, action).1 && Act(w, action).0.followUps == w.followUps
  {
    RunNothing(sys);
    match action
    case Send(request, order) =>
      if w.frames == [] {
        steps := [];
      } else {
        SendIsStep(sys, sessions, w.frames, request, order);
        var step := StepOf(w.frames[0], request, order);
        StepKeeps(sys, sessions, step);
        hide Next;
        RunOne(sys, step);
        steps := [step];
      }
    case Meanwhile(step) =>
      MeanwhileIsStep(sys, sessions, step);
      StepKeeps(sys, sessions, step);
      hide Next;
      RunOne(sys, step);
      steps := [step];
    case Open(store, user, entries) =>
      OpenComes(store, user, entries, w.client.cursors.vals);
      StepKeeps(sys, sessions, Reconnect);
      RunOne(sys, Reconnect);
      steps := [Reconnect];
  }

  /** Outside steps do not look at the running resume and never start another. */
  lemma MeanwhileIsStep(sys: System, sessions: set<Sid>, step: Step)
    requires Inv(sys, sessions) && Outside(step) && Enabled(System(sys.client, sys.channel, None), sessions, step)
    ensures Enabled(sys, sessions, step)
    ensures var (a, marks) := Next(System(sys.client, sys.channel, None), step);
      var (b, marks') := Next(sys, step);
      a.client == b.client && a.channel == b.channel && marks == marks' && a.replay.None? && b.replay == sys.replay
  {
    if step.Deliver? {
      DeliverKeeps(sys, sessions);
      var frame := sys.channel[0];
      assert WellFormed(frame, sessions);
      if !frame.Complete? { HandleMoves(sys.client, sessions, frame); }
      hide Handle;
    }
  }

  lemma RunNothing(sys: System)
    ensures Run(sys, []) == (sys, [])
  {
  }

  lemma RunOne(sys: System, step: Step)
    ensures Run(sys, [step]) == Next(sys, step)
  {
    assert [step][..0] == [];
    assert [] + Next(sys, step).1 == Next(sys, step).1;
  }

  lemma {:induction false} RunConcat(sys: System, sessions: set<Sid>, a: seq<Step>, b: seq<Step>)
    requires |b| <= 1
    ensures Run(sys, a + b) == (Run(Run(sys, a).0, b).0, Run(sys, a).1 + Run(Run(sys, a).0, b).1)
    ensures Possible(sys, sessions, a) && Possible(Run(sys, a).0, sessions, b) ==> Possible(sys, sessions, a + b)
  {
    if b == [] {
      assert a + b == a;
      assert Run(sys, a).1 + [] == Run(sys, a).1;
    } else {
      assert (a + b)[..|a|] == a && b[..0] == [];
      RunOne(Run(sys, a).0, b[0]);
      assert b == [b[0]];
    }
  }

  /** Relay and browser together are a run of the system. */
  lemma {:induction false} WireRefines(w: Wire, sys: System, sessions: set<Sid>, actions: seq<Action>)
      returns (steps: seq<Step>)
    requires Linked(w, sys, sessions) && LegalRun(w, sessions, actions)
    ensures Possible(sys, sessions, steps)
    ensures Linked(WireRun(w, actions).0, Run(sys, steps).0, sessions)
    ensures Run(sys, steps).1 == WireRun(w, actions).1 && WireRun(w, actions).0.followUps == w.followUps
  {
    if actions == [] {
      steps := [];
    } else {
      var init, last := actions[..|actions| - 1], actions[|actions| - 1];
      var before := WireRefines(w, sys, sessions, init);
      var mid := Run(sys, before).0;
      var more := ActRefines(WireRun(w, init).0, mid, sessions, last);
      hide Act;
      hide Linked;
      RunConcat(sys, sessions, before, more);
      steps := before + more;
    }
  }

  /** A browser after login. */
  ghost const LoggedIn := Wire(Login, [], [], 0)

  lemma LoginLinked(sessions: set<Sid>)
    requires |sessions| <= CURSOR_LIMIT && "" !in sessions
    ensures Linked(LoggedIn, System(Login, [], None), sessions)
  {
  }

  /** From login on, with the frames resumeBrowser really sends over contiguous
      retained logs, for any lost, repeated or reordered live frames, snapshots,
      optimistic rows and reconnects: between retention resets of a session its cursor
      never decreases, its shown numbers strictly increase, every number passed is
      accounted for by exactly one mark, and no follow-up resume is ever sent. */
  lemma ComposedBetweenResets(sessions: set<Sid>, before: seq<Action>, actions: seq<Action>, s: Sid, n: nat)
      returns (i: nat)
    requires |sessions| <= CURSOR_LIMIT && "" !in sessions && s in sessions
    requires LegalRun(LoggedIn, sessions, before)
    requires LegalRun(WireRun(LoggedIn, before).0, sessions, actions)
    requires NoRebase(s, WireRun(WireRun(LoggedIn, before).0, actions).1)
    ensures var w := WireRun(LoggedIn, before).0;
      var (w', marks) := WireRun(w, actions);
      var from, to := w.client.CursorOf(s), w'.client.CursorOf(s);
      && from <= to && w'.followUps == 0
      && (forall j, k :: 0 <= j < k < |Shown(s, marks)| ==> Shown(s, marks)[j] < Shown(s, marks)[k])
      && (forall j :: 0 <= j < |Shown(s, marks)| ==> from < Shown(s, marks)[j] <= to)
      && (from < n <= to ==> i < |marks| && Accounts(marks[i], s, n))
      && (forall j :: 0 <= j < |marks| && Accounts(marks[j], s, n) ==> from < n <= to && j == i)
  {
    LoginLinked(sessions);
    var start := System(Login, [], None);
    var first := WireRefines(LoggedIn, start, sessions, before);
    var sys := Run(start, first).0;
    var steps := WireRefines(WireRun(LoggedIn, before).0, sys, sessions, actions);
    i := BetweenResets(sys, sessions, steps, s, n);
  }
}
