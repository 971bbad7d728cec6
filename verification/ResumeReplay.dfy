/** Replay after a reconnect (cloud-relay-go/main.go, resumeBrowser): for every
    session cursor the relay announces a retention gap, sends batches of events
    under row, byte and batch caps, and finally reports how far it got. */
module ResumeReplay {
  import opened OrderedMaps
  import opened EventPaging

  type Sid = string

  const MAX_RESUME_SESSIONS: nat := 512
  const MAX_SESSION_ID: nat := 256
  const MAX_BATCHES: nat := 5
  const BATCH_ROWS: nat := 1000
  const MAX_INT64: int := 0x7FFF_FFFF_FFFF_FFFF

  datatype SessionLog = SessionLog(owner: string, events: seq<Event>)

  type RelayStore = map<Sid, SessionLog>

  /** A cursor as decoded from JSON: an integral number or something else. */
  datatype RawCursor = Integral(n: int) | Unusable

  datatype Frame =
    | HistoryGap(s: Sid, requested: int, availableFrom: int, latest: int)
    | Replay(s: Sid, event: Event)
    | ResumeComplete(cursors: map<Sid, int>, truncated: bool)

  predicate Owned(store: RelayStore, user: string, s: Sid)
  {
    user != "" && s in store && store[s].owner == user
  }

  predicate Usable(s: Sid, raw: RawCursor)
  {
    0 < |s| <= MAX_SESSION_ID && raw.Integral? && 0 <= raw.n <= MAX_INT64
  }

  // ---- One session ----

  /** A cursor before the retained history is moved to just before its start. */
  function Effective(log: seq<Event>, cursor: int): int
  {
    if cursor > 0 && log != [] && log[0].eventSeq > cursor + 1 then log[0].eventSeq - 1 else cursor
  }

  /** The batch loop: the events sent and whether the reply is truncated. */
  function Batches(log: seq<Event>, latest: int, batch: nat, truncated: bool): (seq<Event>, bool)
    requires batch < MAX_BATCHES
    decreases MAX_BATCHES - batch
  {
    var rest := After(log, latest);
    var n := Fitting(rest[..Min(BATCH_ROWS + 1, |rest|)], 0);
    if n == 0 then ([], truncated) else
    var sent := rest[..Min(BATCH_ROWS, n)];
    if truncated || n > BATCH_ROWS || batch == MAX_BATCHES - 1 then (sent, true)
    else
      var (more, t) := Batches(log, LastSeq(sent, latest), batch + 1, truncated);
      (sent + more, t)
  }

  ghost predicate Sendable(log: seq<Event>)
  {
    Increasing(log) && forall e :: e in log ==> 0 < e.eventSeq <= MAX_INT64 && e.bytes <= MAX_BATCH_BYTES
  }

  lemma SendableFits(log: seq<Event>, latest: int)
    requires Sendable(log)
    ensures var rest := After(log, latest);
      var n := Fitting(rest[..Min(BATCH_ROWS + 1, |rest|)], 0);
      (n == 0 <==> rest == []) && n <= |rest|
  {
    AfterIncreasing(log, latest);
    var rest := After(log, latest);
    if rest != [] {
      assert rest[0] in rest;
      var window := rest[..Min(BATCH_ROWS + 1, |rest|)];
      assert window[0] == rest[0];
      assert Fitting(window, 0) > 0;
    }
  }

  /** A stretch of what is outstanding: not empty when there is anything to send, and
      all of it unless the reply says truncated. */
  ghost predicate Stretch(rest: seq<Event>, sent: seq<Event>, t: bool)
  {
    |sent| <= |rest| && sent == rest[..|sent|] && (rest != [] ==> sent != []) && (!t ==> sent == rest)
  }

  lemma StretchStarts(rest: seq<Event>, n: nat)
    requires n <= |rest| && (n == 0 <==> rest == [])
    ensures Stretch(rest, rest[..n], true) && (n == |rest| ==> Stretch(rest, rest[..n], false))
  {
    if n == |rest| { assert rest[..n] == rest; }
  }

  lemma StretchGoesOn(rest: seq<Event>, n: nat, more: seq<Event>, t: bool)
    requires 0 < n <= |rest| && Stretch(rest[n..], more, t)
    ensures Stretch(rest, rest[..n] + more, t)
  {
    JoinPrefix(rest, n, |more|);
    if more == rest[n..] { assert rest[..n] + rest[n..] == rest; }
  }

  /** The batches send a stretch right after the cursor. */
  lemma {:induction false} BatchesSendStretch(log: seq<Event>, latest: int, batch: nat, truncated: bool)
    requires Sendable(log) && batch < MAX_BATCHES
    ensures var (sent, t) := Batches(log, latest, batch, truncated);
      Stretch(After(log, latest), sent, t) && (truncated ==> t)
    decreases MAX_BATCHES - batch
  {
    hide Batches;
    hide Fitting;
    hide After;
    hide Sendable;
    hide Stretch;
    var rest := After(log, latest);
    var n := Fitting(rest[..Min(BATCH_ROWS + 1, |rest|)], 0);
    SendableFits(log, latest);
    BatchStep(log, latest, batch, truncated, rest[..n]);
    var k := Min(BATCH_ROWS, n);
    assert rest[..n][..k] == rest[..k];
    StretchStarts(rest, k);
    if n == 0 || truncated || n > BATCH_ROWS || batch == MAX_BATCHES - 1 {
    } else {
      SendableIncreasing(log);
      AfterPage(log, latest, n);
      BatchesSendStretch(log, rest[n - 1].eventSeq, batch + 1, truncated);
      var (more, t) := Batches(log, rest[n - 1].eventSeq, batch + 1, truncated);
      StretchGoesOn(rest, n, more, t);
    }
  }

  lemma SendableIncreasing(log: seq<Event>)
    requires Sendable(log)
    ensures Increasing(log)
  {
  }

  /** A block of events sent from cursor `c`, ending at cursor `c'`. */
  ghost predicate Block(log: seq<Event>, c: int, sent: seq<Event>, c': int)
  {
    var e := Effective(log, c);
    var rest := After(log, e);
    |sent| <= |rest| && sent == rest[..|sent|] && c' == LastSeq(sent, e)
  }

  lemma EffectiveAfterBlock(log: seq<Event>, c: int, sent: seq<Event>, c': int)
    requires Sendable(log) && Block(log, c, sent, c') && c >= 0
    ensures Effective(log, c') == c' && c' >= 0 && (c <= MAX_INT64 ==> c' <= MAX_INT64)
    ensures After(log, c') == After(log, Effective(log, c))[|sent|..]
  {
    var e := Effective(log, c);
    if sent != [] {
      AfterPage(log, e, |sent|);
      AfterIncreasing(log, e);
      assert sent[|sent| - 1] in After(log, e);
      var i :| 0 <= i < |log| && log[i].eventSeq == c';
    } else if log != [] {
      assert log[0] in log;
    }
  }

  /** Blocks of successive resumes join into one block. */
  lemma BlocksJoin(log: seq<Event>, c: int, first: seq<Event>, c1: int, second: seq<Event>, c2: int)
    requires Sendable(log) && c >= 0
    requires Block(log, c, first, c1) && Block(log, c1, second, c2)
    ensures Block(log, c, first + second, c2)
  {
    EffectiveAfterBlock(log, c, first, c1);
    JoinPrefix(After(log, Effective(log, c)), |first|, |second|);
  }

  // ---- All sessions of a resume frame ----

  /** What one usable cursor gets: an announced gap, events, and a new cursor. */
  datatype Serving = Serving(s: Sid, gap: Option<Frame>, events: seq<Event>, latest: int)

  /** An unowned session is sent nothing and marks the reply truncated. */
  function ResumeSession(store: RelayStore, user: string, s: Sid, cursor: int, truncated: bool): (Serving, bool)
  {
    if !Owned(store, user, s) then (Serving(s, None, [], cursor), true) else
    var log := store[s].events;
    var start := Effective(log, cursor);
    var gap := if start != cursor then Some(HistoryGap(s, cursor, log[0].eventSeq, LastSeq(log, 0))) else None;
    var (sent, t) := Batches(log, start, 0, truncated);
    (Serving(s, gap, sent, LastSeq(sent, start)), t)
  }

  /** The cursors in the order the map iteration visits them. */
  function Process(store: RelayStore, user: string, entries: seq<(Sid, RawCursor)>, processed: nat,
      truncated: bool): (seq<Serving>, bool)
    decreases |entries|
  {
    if entries == [] then ([], truncated)
    else if processed >= MAX_RESUME_SESSIONS then ([], true)
    else if !Usable(entries[0].0, entries[0].1) then Process(store, user, entries[1..], processed + 1, true)
    else
      var (serving, t) := ResumeSession(store, user, entries[0].0, entries[0].1.n, truncated);
      var (rest, t') := Process(store, user, entries[1..], processed + 1, t);
      ([serving] + rest, t')
  }

  function FramesOf(serving: Serving): seq<Frame>
  {
    (if serving.gap.Some? then [serving.gap.value] else []) +
    seq(|serving.events|, i requires 0 <= i < |serving.events| => Replay(serving.s, serving.events[i]))
  }

  function Frames(served: seq<Serving>): seq<Frame>
  {
    if served == [] then [] else Frames(served[..|served| - 1]) + FramesOf(served[|served| - 1])
  }

  function Cursors(served: seq<Serving>): map<Sid, int>
  {
    if served == [] then map[]
    else Cursors(served[..|served| - 1])[served[|served| - 1].s := served[|served| - 1].latest]
  }

  /** resumeBrowser: the frames sent for a decoded cursor map, or for a frame without one. */
  function ResumeFrames(store: RelayStore, user: string, cursors: Option<seq<(Sid, RawCursor)>>): seq<Frame>
  {
    if cursors.None? then [ResumeComplete(map[], false)] else
    var (served, truncated) := Process(store, user, cursors.value, 0, false);
    Frames(served) + [ResumeComplete(Cursors(served), truncated)]
  }

  // ---- The loops ----

  /** One round of the batch loop, given the rows the store returned. */
  lemma BatchStep(log: seq<Event>, latest: int, batch: nat, truncated: bool, events: seq<Event>)
    requires batch < MAX_BATCHES
    requires var rest := After(log, latest); events == rest[..Fitting(rest[..Min(BATCH_ROWS + 1, |rest|)], 0)]
    ensures events == [] ==> Batches(log, latest, batch, truncated) == ([], truncated)
    ensures var sent := events[..Min(BATCH_ROWS, |events|)];
      events != [] ==> (Batches(log, latest, batch, truncated) ==
        if truncated || |events| > BATCH_ROWS || batch == MAX_BATCHES - 1 then (sent, true)
        else (sent + Batches(log, LastSeq(sent, latest), batch + 1, truncated).0,
          Batches(log, LastSeq(sent, latest), batch + 1, truncated).1))
  {
    var rest := After(log, latest);
    var n := Fitting(rest[..Min(BATCH_ROWS + 1, |rest|)], 0);
    assert events[..Min(BATCH_ROWS, n)] == rest[..Min(BATCH_ROWS, n)];
  }

  /** The nested batch loop of one session. */
  method SendBatches(log: seq<Event>, start: int, truncatedBefore: bool)
      returns (sent: seq<Event>, latest: int, truncated: bool)
    requires Increasing(log)
    ensures (sent, truncated) == Batches(log, start, 0, truncatedBefore)
    ensures latest == LastSeq(sent, start)
  {
    hide Batches;
    hide After;
    hide Fitting;
    sent, latest, truncated := [], start, truncatedBefore;
    var batch := 0;
    ghost var goal := Batches(log, start, 0, truncatedBefore);
    while true
      invariant batch < MAX_BATCHES && latest == LastSeq(sent, start)
      invariant goal.0 == sent + Batches(log, latest, batch, truncated).0
      invariant goal.1 == Batches(log, latest, batch, truncated).1
      decreases MAX_BATCHES - batch
    {
      var page := ListEventsPage(log, latest, BATCH_ROWS + 1);
      var events := page.events;
      BatchStep(log, latest, batch, truncated, events);
      if events == [] {
        assert sent + [] == sent;
        return;
      }
      var hasMore := |events| > BATCH_ROWS;
      events := if hasMore then events[..BATCH_ROWS] else events[..|events|];
      ghost var before := sent;
      sent := sent + events;
      if truncated || hasMore || batch == MAX_BATCHES - 1 {
        latest, truncated := events[|events| - 1].eventSeq, true;
        return;
      }
      ghost var more := Batches(log, LastSeq(events, latest), batch + 1, truncated).0;
      assert before + (events + more) == sent + more;
      latest := events[|events| - 1].eventSeq;
      batch := batch + 1;
    }
  }

  lemma ProcessCases(store: RelayStore, user: string, entries: seq<(Sid, RawCursor)>, processed: nat, truncated: bool)
    ensures var (served, t) := Process(store, user, entries, processed, truncated);
      if entries == [] then served == [] && t == truncated
      else if processed >= MAX_RESUME_SESSIONS then served == [] && t
      else if !Usable(entries[0].0, entries[0].1) then
        (served, t) == Process(store, user, entries[1..], processed + 1, true)
      else
        var (serving, t') := ResumeSession(store, user, entries[0].0, entries[0].1.n, truncated);
        var (rest, t'') := Process(store, user, entries[1..], processed + 1, t');
        served == [serving] + rest && t == t''
  {
    hide ResumeSession;
  }

  /** The loop over the requested cursors. */
  method ResumeBrowser(store: RelayStore, user: string, cursors: Option<seq<(Sid, RawCursor)>>)
      returns (frames: seq<Frame>)
    requires forall s :: s in store ==> Increasing(store[s].events)
    ensures frames == ResumeFrames(store, user, cursors)
  {
    hide Process;
    hide ResumeSession;
    if cursors.None? { return [ResumeComplete(map[], false)]; }
    var entries := cursors.value;
    var served: seq<Serving> := [];
    var truncated := false;
    var i := 0;
    ghost var goal := Process(store, user, entries, 0, false);
    assert entries[0..] == entries;
    while i < |entries|
      invariant i <= |entries|
      invariant goal.0 == served + Process(store, user, entries[i..], i, truncated).0
      invariant goal.1 == Process(store, user, entries[i..], i, truncated).1
    {
      ProcessCases(store, user, entries[i..], i, truncated);
      if i >= MAX_RESUME_SESSIONS {
        truncated := true;
        assert served + [] == served;
        return Frames(served) + [ResumeComplete(Cursors(served), truncated)];
      }
      assert entries[i..][1..] == entries[i + 1..];
      var (s, raw) := entries[i];
      if !Usable(s, raw) {
        truncated := true;
      } else {
        var serving, t := ServeSession(store, user, s, raw.n, truncated);
        ghost var rest := Process(store, user, entries[i + 1..], i + 1, t).0;
        assert served + ([serving] + rest) == (served + [serving]) + rest;
        served, truncated := served + [serving], t;
      }
      i := i + 1;
    }
    ProcessCases(store, user, entries[i..], i, truncated);
    assert served + [] == served;
    assert goal == (served, truncated);
    frames := Frames(served) + [ResumeComplete(Cursors(served), truncated)];
  }

  method ServeSession(store: RelayStore, user: string, s: Sid, cursor: int, truncated: bool)
      returns (serving: Serving, t: bool)
    requires forall s :: s in store ==> Increasing(store[s].events)
    ensures (serving, t) == ResumeSession(store, user, s, cursor, truncated)
  {
    if !Owned(store, user, s) { return Serving(s, None, [], cursor), true; }
    var log := store[s].events;
    var start := Effective(log, cursor);
    var gap := if start != cursor then Some(HistoryGap(s, cursor, log[0].eventSeq, LastSeq(log, 0))) else None;
    var sent, latest, t' := SendBatches(log, start, truncated);
    return Serving(s, gap, sent, latest), t';
  }

  // ---- What a resume sends ----

  /** Distinct owned sessions with usable cursors and sendable logs. */
  ghost predicate Resumable(store: RelayStore, user: string, entries: seq<(Sid, RawCursor)>)
  {
    && (forall i :: 0 <= i < |entries| ==>
      Owned(store, user, entries[i].0) && Usable(entries[i].0, entries[i].1) && Sendable(store[entries[i].0].events))
    && (forall i, j :: 0 <= i < j < |entries| ==> entries[i].0 != entries[j].0)
  }

  /** A serving owes its session a block, all of it if the reply is not truncated. */
  ghost predicate Served(log: seq<Event>, c: int, serving: Serving, truncated: bool)
  {
    && Block(log, c, serving.events, serving.latest)
    && (!truncated ==> serving.events == After(log, Effective(log, c)))
    && (After(log, Effective(log, c)) != [] ==> serving.events != [])
  }

  lemma SessionServed(store: RelayStore, user: string, s: Sid, c: int, truncated: bool)
    requires Owned(store, user, s) && Sendable(store[s].events)
    ensures var (serving, t) := ResumeSession(store, user, s, c, truncated);
      serving.s == s && Served(store[s].events, c, serving, t)
  {
    BatchesSendStretch(store[s].events, Effective(store[s].events, c), 0, truncated);
  }

  lemma {:induction false} TruncatedSticks(store: RelayStore, user: string, entries: seq<(Sid, RawCursor)>,
      processed: nat)
    ensures Process(store, user, entries, processed, true).1
    decreases |entries|
  {
    if entries == [] || processed >= MAX_RESUME_SESSIONS {
    } else {
      TruncatedSticks(store, user, entries[1..], processed + 1);
    }
  }

  lemma ProcessStep(store: RelayStore, user: string, entries: seq<(Sid, RawCursor)>, processed: nat, truncated: bool)
    returns (serving: Serving, t: bool, rest: seq<Serving>)
    requires Resumable(store, user, entries) && entries != [] && processed < MAX_RESUME_SESSIONS
    ensures ResumeSession(store, user, entries[0].0, entries[0].1.n, truncated) == (serving, t)
    ensures rest == Process(store, user, entries[1..], processed + 1, t).0
    ensures Process(store, user, entries, processed, truncated) ==
      ([serving] + rest, Process(store, user, entries[1..], processed + 1, t).1)
    ensures Resumable(store, user, entries[1..])
  {
    var r := ResumeSession(store, user, entries[0].0, entries[0].1.n, truncated);
    serving, t := r.0, r.1;
    rest := Process(store, user, entries[1..], processed + 1, t).0;
  }

  lemma ProcessNothing(store: RelayStore, user: string, processed: nat, truncated: bool)
    ensures Process(store, user, [], processed, truncated) == ([], truncated)
  {
  }

  lemma {:induction false} ProcessLength(store: RelayStore, user: string, entries: seq<(Sid, RawCursor)>,
      processed: nat, truncated: bool)
    requires Resumable(store, user, entries) && processed + |entries| <= MAX_RESUME_SESSIONS
    ensures |Process(store, user, entries, processed, truncated).0| == |entries|
    decreases |entries|
  {
    hide Process;
    hide ResumeSession;
    hide Resumable;
    if entries == [] {
      ProcessNothing(store, user, processed, truncated);
    } else {
      var _, t, _ := ProcessStep(store, user, entries, processed, truncated);
      ProcessLength(store, user, entries[1..], processed + 1, t);
    }
  }

  /** Every session of a resume frame is served a contiguous block right after
      its effective cursor, and the reply returns the block's last number. */
  lemma {:induction false} ResumeServes(store: RelayStore, user: string, entries: seq<(Sid, RawCursor)>, processed: nat,
      truncated: bool, i: nat)
    requires Resumable(store, user, entries) && i < |entries| && processed + |entries| <= MAX_RESUME_SESSIONS
    ensures var (served, t) := Process(store, user, entries, processed, truncated);
      && |served| == |entries|
      && served[i].s == entries[i].0
      && Served(store[entries[i].0].events, entries[i].1.n, served[i], t)
    decreases |entries|
  {
    hide Process;
    hide ResumeSession;
    ProcessLength(store, user, entries, processed, truncated);
    var serving, t, rest := ProcessStep(store, user, entries, processed, truncated);
    if i == 0 {
      SessionServed(store, user, entries[0].0, entries[0].1.n, truncated);
      if t { TruncatedSticks(store, user, entries[1..], processed + 1); }
    } else {
      ResumeServes(store, user, entries[1..], processed + 1, t, i - 1);
    }
  }

  /** A reply that becomes truncated had something to send, and sent some of it. */
  lemma TruncatedMeansProgress(store: RelayStore, user: string, entries: seq<(Sid, RawCursor)>, processed: nat)
      returns (i: nat)
    requires Resumable(store, user, entries) && processed + |entries| <= MAX_RESUME_SESSIONS
    requires Process(store, user, entries, processed, false).1
    ensures i < |entries| &&
      After(store[entries[i].0].events, Effective(store[entries[i].0].events, entries[i].1.n)) != []
    ensures var served := Process(store, user, entries, processed, false).0;
      i < |served| && served[i].s == entries[i].0 && served[i].events != []
  {
    i := TruncatedMeansOutstanding(store, user, entries, processed);
    ResumeServes(store, user, entries, processed, false, i);
  }

  lemma {:induction false} TruncatedMeansOutstanding(store: RelayStore, user: string, entries: seq<(Sid, RawCursor)>,
      processed: nat)
    returns (i: nat)
    requires Resumable(store, user, entries) && processed + |entries| <= MAX_RESUME_SESSIONS
    requires Process(store, user, entries, processed, false).1
    ensures i < |entries| &&
      After(store[entries[i].0].events, Effective(store[entries[i].0].events, entries[i].1.n)) != []
    decreases |entries|
  {
    var (s, raw) := entries[0];
    var log := store[s].events;
    var start := Effective(log, raw.n);
    if After(log, start) != [] {
      i := 0;
    } else {
      SendableFits(log, start);
      var more := TruncatedMeansOutstanding(store, user, entries[1..], processed + 1);
      i := more + 1;
    }
  }

  // ---- Whose events a resume sends ----

  lemma {:induction false} AfterInside(log: seq<Event>, cursor: int)
    ensures forall e :: e in After(log, cursor) ==> e in log
  {
    if log == [] {
    } else {
      AfterInside(log[1..], cursor);
    }
  }

  lemma {:induction false} BatchesInside(log: seq<Event>, latest: int, batch: nat, truncated: bool)
    requires batch < MAX_BATCHES
    ensures forall e :: e in Batches(log, latest, batch, truncated).0 ==> e in log
    decreases MAX_BATCHES - batch
  {
    AfterInside(log, latest);
    hide After;
    hide Fitting;
    var rest := After(log, latest);
    var n := Fitting(rest[..Min(BATCH_ROWS + 1, |rest|)], 0);
    if n == 0 || truncated || n > BATCH_ROWS || batch == MAX_BATCHES - 1 {
    } else {
      BatchesInside(log, LastSeq(rest[..Min(BATCH_ROWS, n)], latest), batch + 1, truncated);
    }
  }

  /** A frame about a session of `user`, carrying an event of its log if any. */
  ghost predicate OwnFrame(store: RelayStore, user: string, frame: Frame)
  {
    frame.ResumeComplete? ||
    (user != "" && frame.s in store && store[frame.s].owner == user &&
      (frame.Replay? ==> frame.event in store[frame.s].events))
  }

  lemma SessionFramesAreOwn(store: RelayStore, user: string, s: Sid, cursor: int, truncated: bool)
    ensures var frames := FramesOf(ResumeSession(store, user, s, cursor, truncated).0);
      forall i :: 0 <= i < |frames| ==> OwnFrame(store, user, frames[i])
  {
    if Owned(store, user, s) {
      BatchesInside(store[s].events, Effective(store[s].events, cursor), 0, truncated);
      hide Batches;
    }
  }

  /** Every event and every gap a resume sends belongs to a session of the asking user,
      whatever cursors the frame names. */
  lemma ResumeSendsOwnSessions(store: RelayStore, user: string, cursors: Option<seq<(Sid, RawCursor)>>)
    ensures var frames := ResumeFrames(store, user, cursors);
      forall i :: 0 <= i < |frames| ==> OwnFrame(store, user, frames[i])
  {
    hide Process;
    hide AllOwn;
    hide Frames;
    if cursors.Some? {
      ServedIsOwn(store, user, cursors.value, 0, false);
      FramesAreOwn(store, user, Process(store, user, cursors.value, 0, false).0);
    }
  }

  ghost predicate OwnServing(store: RelayStore, user: string, serving: Serving)
  {
    forall i :: 0 <= i < |FramesOf(serving)| ==> OwnFrame(store, user, FramesOf(serving)[i])
  }

  lemma {:induction false} ServedIsOwn(store: RelayStore, user: string, entries: seq<(Sid, RawCursor)>, processed: nat,
      truncated: bool)
    ensures AllOwn(store, user, Process(store, user, entries, processed, truncated).0)
    decreases |entries|
  {
    ProcessCases(store, user, entries, processed, truncated);
    hide Process;
    hide ResumeSession;
    hide OwnServing;
    if entries == [] || processed >= MAX_RESUME_SESSIONS {
    } else if !Usable(entries[0].0, entries[0].1) {
      ServedIsOwn(store, user, entries[1..], processed + 1, true);
    } else {
      var (serving, t) := ResumeSession(store, user, entries[0].0, entries[0].1.n, truncated);
      ServingIsOwn(store, user, entries[0].0, entries[0].1.n, truncated);
      ServedIsOwn(store, user, entries[1..], processed + 1, t);
    }
  }

  lemma ServingIsOwn(store: RelayStore, user: string, s: Sid, cursor: int, truncated: bool)
    ensures OwnServing(store, user, ResumeSession(store, user, s, cursor, truncated).0)
  {
    SessionFramesAreOwn(store, user, s, cursor, truncated);
  }

  ghost predicate AllOwn(store: RelayStore, user: string, served: seq<Serving>)
  {
    forall i :: 0 <= i < |served| ==> OwnServing(store, user, served[i])
  }

  lemma {:induction false} FramesAreOwn(store: RelayStore, user: string, served: seq<Serving>)
    requires AllOwn(store, user, served)
    ensures forall i :: 0 <= i < |Frames(served)| ==> OwnFrame(store, user, Frames(served)[i])
  {
    hide FramesOf;
    hide OwnFrame;
    if served == [] {
    } else {
      FramesAreOwn(store, user, served[..|served| - 1]);
      assert OwnServing(store, user, served[|served| - 1]);
    }
  }

  /** Two stores that hold the same sessions of `user`, whatever else they hold. */
  ghost predicate SameFor(user: string, a: RelayStore, b: RelayStore)
  {
    && (forall s :: s in a && a[s].owner == user ==> s in b && b[s] == a[s])
    && (forall s :: s in b && b[s].owner == user ==> s in a && a[s] == b[s])
  }

  /** What a user is sent does not depend on sessions of other owners. */
  lemma ResumeSeesOnlyOwnSessions(a: RelayStore, b: RelayStore, user: string, cursors: Option<seq<(Sid, RawCursor)>>)
    requires SameFor(user, a, b)
    ensures ResumeFrames(a, user, cursors) == ResumeFrames(b, user, cursors)
  {
    if cursors.Some? {
      ProcessSeesOnlyOwn(a, b, user, cursors.value, 0, false);
      hide Process;
    }
  }

  lemma SessionSeesOnlyOwn(a: RelayStore, b: RelayStore, user: string, s: Sid, cursor: int, truncated: bool)
    requires SameFor(user, a, b)
    ensures ResumeSession(a, user, s, cursor, truncated) == ResumeSession(b, user, s, cursor, truncated)
  {
  }

  lemma {:induction false} ProcessSeesOnlyOwn(a: RelayStore, b: RelayStore, user: string,
      entries: seq<(Sid, RawCursor)>, processed: nat, truncated: bool)
    requires SameFor(user, a, b)
    ensures Process(a, user, entries, processed, truncated) == Process(b, user, entries, processed, truncated)
    decreases |entries|
  {
    if entries == [] || processed >= MAX_RESUME_SESSIONS {
    } else if !Usable(entries[0].0, entries[0].1) {
      ProcessSeesOnlyOwn(a, b, user, entries[1..], processed + 1, true);
    } else {
      SessionSeesOnlyOwn(a, b, user, entries[0].0, entries[0].1.n, truncated);
      var t := ResumeSession(a, user, entries[0].0, entries[0].1.n, truncated).1;
      hide ResumeSession;
      hide SameFor;
      ProcessSeesOnlyOwn(a, b, user, entries[1..], processed + 1, t);
    }
  }

  ghost predicate DistinctEntries(entries: seq<(Sid, RawCursor)>)
  {
    forall i, j :: 0 <= i < j < |entries| ==> entries[i].0 != entries[j].0
  }

  /** A session of another owner gets its own cursor back and nothing else, and marks
      the reply truncated. */
  lemma {:induction false} ForeignCursorComesBack(store: RelayStore, user: string, entries: seq<(Sid, RawCursor)>,
      processed: nat, truncated: bool, i: nat)
    requires DistinctEntries(entries) && i < |entries| && processed + |entries| <= MAX_RESUME_SESSIONS
    requires Usable(entries[i].0, entries[i].1)
    requires !(user != "" && entries[i].0 in store && store[entries[i].0].owner == user)
    ensures var (served, t) := Process(store, user, entries, processed, truncated);
      && t && entries[i].0 in Cursors(served) && Cursors(served)[entries[i].0] == entries[i].1.n
      && forall j :: 0 <= j < |served| && served[j].s == entries[i].0 ==> served[j].events == [] && served[j].gap.None?
    decreases |entries|
  {
    hide Process;
    hide ResumeSession;
    hide Owned;
    ProcessCases(store, user, entries, processed, truncated);
    var (s, raw) := entries[0];
    if !Usable(s, raw) {
      ForeignCursorComesBack(store, user, entries[1..], processed + 1, true, i - 1);
    } else {
      var (serving, t) := ResumeSession(store, user, s, raw.n, truncated);
      var rest := Process(store, user, entries[1..], processed + 1, t).0;
      ServedAreEntries(store, user, entries[1..], processed + 1, t);
      ServesItsSession(store, user, s, raw.n, truncated);
      CursorsOfFirst(serving, rest);
      if i == 0 {
        TruncatedSticks(store, user, entries[1..], processed + 1);
        forall j | 0 <= j < |rest| ensures rest[j].s != s {
          var k :| 0 <= k < |entries[1..]| && entries[1..][k].0 == rest[j].s;
          assert entries[k + 1].0 == rest[j].s;
        }
        AbsentCursor(rest, s);
      } else {
        ForeignCursorComesBack(store, user, entries[1..], processed + 1, t, i - 1);
      }
    }
  }

  lemma ServesItsSession(store: RelayStore, user: string, s: Sid, cursor: int, truncated: bool)
    ensures ResumeSession(store, user, s, cursor, truncated).0.s == s
    ensures !(user != "" && s in store && store[s].owner == user) ==>
      ResumeSession(store, user, s, cursor, truncated) == (Serving(s, None, [], cursor), true)
  {
  }

  lemma {:induction false} ServedAreEntries(store: RelayStore, user: string, entries: seq<(Sid, RawCursor)>,
      processed: nat, truncated: bool)
    ensures var served := Process(store, user, entries, processed, truncated).0;
      forall j :: 0 <= j < |served| ==> exists k :: 0 <= k < |entries| && entries[k].0 == served[j].s
    decreases |entries|
  {
    ProcessCases(store, user, entries, processed, truncated);
    hide Process;
    if entries == [] || processed >= MAX_RESUME_SESSIONS {
    } else {
      var t := if Usable(entries[0].0, entries[0].1)
               then ResumeSession(store, user, entries[0].0, entries[0].1.n, truncated).1 else true;
      ServedAreEntries(store, user, entries[1..], processed + 1, t);
      var served, rest := Process(store, user, entries, processed, truncated).0,
        Process(store, user, entries[1..], processed + 1, t).0;
      forall j | 0 <= j < |served| ensures exists k :: 0 <= k < |entries| && entries[k].0 == served[j].s {
        if served == rest {
          var k :| 0 <= k < |entries[1..]| && entries[1..][k].0 == rest[j].s;
          assert entries[k + 1].0 == served[j].s;
        } else if j == 0 {
          assert entries[0].0 == served[0].s;
        } else {
          var k :| 0 <= k < |entries[1..]| && entries[1..][k].0 == rest[j - 1].s;
          assert entries[k + 1].0 == served[j].s;
        }
      }
    }
  }

  lemma {:induction false} CursorsOfFirst(first: Serving, rest: seq<Serving>)
    ensures Cursors([first] + rest) == map[first.s := first.latest] + Cursors(rest)
  {
    var all := [first] + rest;
    if rest == [] {
      assert all[..0] == [];
    } else {
      var init := rest[..|rest| - 1];
      assert all[..|all| - 1] == [first] + init;
      CursorsOfFirst(first, init);
    }
  }

  lemma {:induction false} AbsentCursor(served: seq<Serving>, s: Sid)
    requires forall j :: 0 <= j < |served| ==> served[j].s != s
    ensures s !in Cursors(served)
  {
    if served == [] {
    } else {
      AbsentCursor(served[..|served| - 1], s);
    }
  }

  /** A gap is announced exactly if the start of the history after a positive cursor is
      missing, with the cursor asked for and the first and last retained numbers. */
  lemma GapAnnouncedIff(store: RelayStore, user: string, s: Sid, cursor: int, truncated: bool)
    requires user != "" && s in store && store[s].owner == user
    ensures var gap, log := ResumeSession(store, user, s, cursor, truncated).0.gap, store[s].events;
      gap == if cursor > 0 && log != [] && log[0].eventSeq > cursor + 1
             then Some(HistoryGap(s, cursor, log[0].eventSeq, log[|log| - 1].eventSeq)) else None
  {
  }

  /** A reply is truncated if a cursor is unusable or more than 512 sessions are named. */
  lemma {:induction false} BadCursorTruncates(store: RelayStore, user: string, entries: seq<(Sid, RawCursor)>,
      processed: nat, truncated: bool)
    requires processed + |entries| > 512 >= processed ||
      exists i :: 0 <= i < |entries| && !Usable(entries[i].0, entries[i].1)
    ensures Process(store, user, entries, processed, truncated).1
    decreases |entries|
  {
    ProcessCases(store, user, entries, processed, truncated);
    hide Process;
    hide ResumeSession;
    if entries == [] || processed >= MAX_RESUME_SESSIONS {
    } else if !Usable(entries[0].0, entries[0].1) {
      TruncatedSticks(store, user, entries[1..], processed + 1);
    } else {
      if i :| 0 <= i < |entries| && !Usable(entries[i].0, entries[i].1) {
        assert entries[1..][i - 1] == entries[i];
      }
      BadCursorTruncates(store, user, entries[1..], processed + 1,
        ResumeSession(store, user, entries[0].0, entries[0].1.n, truncated).1);
    }
  }

  ghost predicate OnlyGaps(served: seq<Serving>)
  {
    forall i :: 0 <= i < |served| && served[i].gap.Some? ==> served[i].gap.value.HistoryGap?
  }

  lemma {:induction false} FramesHoldNoReply(served: seq<Serving>)
    requires OnlyGaps(served)
    ensures forall i :: 0 <= i < |Frames(served)| ==> !Frames(served)[i].ResumeComplete?
  {
    if served == [] {
    } else {
      FramesHoldNoReply(served[..|served| - 1]);
      var last := served[|served| - 1];
      assert forall i :: 0 <= i < |FramesOf(last)| ==> !FramesOf(last)[i].ResumeComplete?;
      hide FramesOf;
    }
  }

  lemma {:induction false} GapsAreGaps(store: RelayStore, user: string, entries: seq<(Sid, RawCursor)>, processed: nat,
      truncated: bool)
    ensures OnlyGaps(Process(store, user, entries, processed, truncated).0)
    decreases |entries|
  {
    ProcessCases(store, user, entries, processed, truncated);
    hide Process;
    if entries == [] || processed >= MAX_RESUME_SESSIONS {
    } else if !Usable(entries[0].0, entries[0].1) {
      GapsAreGaps(store, user, entries[1..], processed + 1, true);
    } else {
      GapsAreGaps(store, user, entries[1..], processed + 1,
        ResumeSession(store, user, entries[0].0, entries[0].1.n, truncated).1);
    }
  }

  /** Every resume, with or without a cursor map, ends with exactly one reply. */
  lemma ResumeEndsWithReply(store: RelayStore, user: string, cursors: Option<seq<(Sid, RawCursor)>>)
    ensures var frames := ResumeFrames(store, user, cursors);
      && frames != [] && frames[|frames| - 1].ResumeComplete?
      && (forall i :: 0 <= i < |frames| - 1 ==> !frames[i].ResumeComplete?)
      && (cursors.None? ==> frames == [ResumeComplete(map[], false)])
  {
    hide OnlyGaps;
    if cursors.Some? {
      GapsAreGaps(store, user, cursors.value, 0, false);
      FramesHoldNoReply(Process(store, user, cursors.value, 0, false).0);
      hide Process;
      hide Frames;
    }
  }

  // ---- When a reply is not truncated ----

  /** Up to a thousand events that fit one batch are sent whole and not truncated. */
  lemma SmallReplayIsWhole(log: seq<Event>, latest: int)
    requires Increasing(log)
    requires |After(log, latest)| <= BATCH_ROWS && TotalBytes(After(log, latest)) <= MAX_BATCH_BYTES
    ensures Batches(log, latest, 0, false) == (After(log, latest), false)
  {
    var rest := After(log, latest);
    var n := |rest|;
    assert rest[..n] == rest && rest[..Min(BATCH_ROWS + 1, n)] == rest;
    AllFitting(rest, 0);
    BatchStep(log, latest, 0, false, rest);
    hide Fitting;
    if n > 0 {
      AfterPage(log, latest, n);
      var next := LastSeq(rest, latest);
      assert After(log, next) == [];
      BatchStep(log, next, 1, false, []);
      assert rest + [] == rest;
    }
    hide Batches;
  }

  // ---- Repeating a resume from the returned cursors ----

  /** Sessions `all` of one user, with usable cursors and sendable logs. */
  ghost predicate Watching(store: RelayStore, user: string, all: seq<Sid>, cursors: map<Sid, int>)
  {
    |all| <= MAX_RESUME_SESSIONS && Distinct(all) &&
    forall s :: s in all ==>
      && Owned(store, user, s) && Sendable(store[s].events) && 0 < |s| <= MAX_SESSION_ID
      && s in cursors && 0 <= cursors[s] <= MAX_INT64
  }

  /** `order` visits exactly the sessions of `all`, each once. */
  ghost predicate Visits(order: seq<Sid>, all: seq<Sid>)
  {
    Distinct(order) && |order| == |all| && forall s :: s in order <==> s in all
  }

  function EntriesFor(order: seq<Sid>, cursors: map<Sid, int>): (r: seq<(Sid, RawCursor)>)
    ensures |r| == |order|
  {
    seq(|order|, i requires 0 <= i < |order| =>
      (order[i], if order[i] in cursors then Integral(cursors[order[i]]) else Unusable))
  }

  /** What a round sends to `s`, and the cursor it returns for it. */
  function SentTo(served: seq<Serving>, s: Sid): seq<Event>
  {
    if served == [] then []
    else if served[|served| - 1].s == s then served[|served| - 1].events
    else SentTo(served[..|served| - 1], s)
  }

  /** Resume rounds, one per visiting order, until one is not truncated. */
  function Rounds(store: RelayStore, user: string, cursors: map<Sid, int>, orders: seq<seq<Sid>>)
    : (seq<seq<Serving>>, bool)
    decreases |orders|
  {
    if orders == [] then ([], false) else
    var (served, truncated) := Process(store, user, EntriesFor(orders[0], cursors), 0, false);
    if !truncated then ([served], true)
    else
      var (more, done) := Rounds(store, user, cursors + Cursors(served), orders[1..]);
      ([served] + more, done)
  }

  function SentInAll(rounds: seq<seq<Serving>>, s: Sid): seq<Event>
  {
    if rounds == [] then [] else SentTo(rounds[0], s) + SentInAll(rounds[1..], s)
  }

  /** How many events are still to be sent. */
  function Remaining(store: RelayStore, all: seq<Sid>, cursors: map<Sid, int>): nat
  {
    if all == [] then 0 else
    (if all[0] in store && all[0] in cursors
     then |After(store[all[0]].events, Effective(store[all[0]].events, cursors[all[0]]))| else 0)
    + Remaining(store, all[1..], cursors)
  }

  lemma {:induction false} FindServing(served: seq<Serving>, i: nat)
    requires i < |served|
    requires forall j, k :: 0 <= j < k < |served| ==> served[j].s != served[k].s
    ensures SentTo(served, served[i].s) == served[i].events
    ensures served[i].s in Cursors(served) && Cursors(served)[served[i].s] == served[i].latest
  {
    if i < |served| - 1 {
      FindServing(served[..|served| - 1], i);
    }
  }

  /** One round serves every watched session. */
  lemma RoundServes(store: RelayStore, user: string, all: seq<Sid>, cursors: map<Sid, int>, order: seq<Sid>, s: Sid)
    requires Watching(store, user, all, cursors) && Visits(order, all) && s in all
    ensures var (served, t) := Process(store, user, EntriesFor(order, cursors), 0, false);
      var c' := (cursors + Cursors(served))[s];
      Served(store[s].events, cursors[s], Serving(s, None, SentTo(served, s), c'), t)
  {
    var entries := EntriesFor(order, cursors);
    var i :| 0 <= i < |order| && order[i] == s;
    assert Resumable(store, user, entries);
    hide Process;
    ServesDistinct(store, user, entries);
    ResumeServes(store, user, entries, 0, false, i);
    FindServing(Process(store, user, entries, 0, false).0, i);
  }

  lemma ServesDistinct(store: RelayStore, user: string, entries: seq<(Sid, RawCursor)>)
    requires Resumable(store, user, entries) && |entries| <= MAX_RESUME_SESSIONS
    ensures var served := Process(store, user, entries, 0, false).0;
      forall j, k :: 0 <= j < k < |served| ==> served[j].s != served[k].s
  {
    hide Process;
    ProcessLength(store, user, entries, 0, false);
    var served := Process(store, user, entries, 0, false).0;
    forall j, k | 0 <= j < k < |served| ensures served[j].s != served[k].s {
      ResumeServes(store, user, entries, 0, false, j);
      ResumeServes(store, user, entries, 0, false, k);
    }
  }

  lemma RoundKeepsWatching(store: RelayStore, user: string, all: seq<Sid>, cursors: map<Sid, int>, order: seq<Sid>)
    requires Watching(store, user, all, cursors) && Visits(order, all)
    ensures var served := Process(store, user, EntriesFor(order, cursors), 0, false).0;
      Watching(store, user, all, cursors + Cursors(served))
  {
    hide Process;
    var served := Process(store, user, EntriesFor(order, cursors), 0, false).0;
    forall s | s in all ensures 0 <= (cursors + Cursors(served))[s] <= MAX_INT64 {
      RoundServes(store, user, all, cursors, order, s);
      EffectiveAfterBlock(store[s].events, cursors[s], SentTo(served, s), (cursors + Cursors(served))[s]);
    }
  }

  lemma {:induction false} RemainingMonotone(store: RelayStore, all: seq<Sid>, cursors: map<Sid, int>,
      cursors': map<Sid, int>, progressed: Sid)
    requires forall s :: s in all ==> s in store && s in cursors && s in cursors'
    requires forall s :: s in all ==>
      (|After(store[s].events, Effective(store[s].events, cursors'[s]))| <=
       |After(store[s].events, Effective(store[s].events, cursors[s]))|)
    requires progressed in all ==>
      |After(store[progressed].events, Effective(store[progressed].events, cursors'[progressed]))| <
      |After(store[progressed].events, Effective(store[progressed].events, cursors[progressed]))|
    ensures Remaining(store, all, cursors') <= Remaining(store, all, cursors)
    ensures progressed in all ==> Remaining(store, all, cursors') < Remaining(store, all, cursors)
  {
    if all == [] {
    } else {
      RemainingMonotone(store, all[1..], cursors, cursors', progressed);
    }
  }

  /** A truncated round leaves strictly less to send. */
  lemma TruncatedRoundShrinks(store: RelayStore, user: string, all: seq<Sid>, cursors: map<Sid, int>, order: seq<Sid>)
    requires Watching(store, user, all, cursors) && Visits(order, all)
    requires Process(store, user, EntriesFor(order, cursors), 0, false).1
    ensures var served := Process(store, user, EntriesFor(order, cursors), 0, false).0;
      Remaining(store, all, cursors + Cursors(served)) < Remaining(store, all, cursors)
  {
    var entries := EntriesFor(order, cursors);
    assert Resumable(store, user, entries);
    hide Process;
    var i := TruncatedMeansOutstanding(store, user, entries, 0);
    var cursors' := cursors + Cursors(Process(store, user, entries, 0, false).0);
    forall s | s in all
      ensures s in cursors' && Effective(store[s].events, cursors'[s]) == cursors'[s]
      ensures |After(store[s].events, cursors'[s])| <= |After(store[s].events, Effective(store[s].events, cursors[s]))|
      ensures After(store[s].events, Effective(store[s].events, cursors[s])) != [] ==>
        (|After(store[s].events, cursors'[s])| < |After(store[s].events, Effective(store[s].events, cursors[s]))|)
    {
      RoundServes(store, user, all, cursors, order, s);
      EffectiveAfterBlock(store[s].events, cursors[s], SentTo(Process(store, user, entries, 0, false).0, s),
        cursors'[s]);
    }
    assert order[i] in all;
    RemainingMonotone(store, all, cursors, cursors', order[i]);
  }

  /** Whatever order each round visits the sessions in: rounds end within the
      number of outstanding events, and then every retained event after the
      start was sent exactly once, in order; before that, a prefix of them. */
  lemma {:induction false} RoundsSendEverythingOnce(store: RelayStore, user: string, all: seq<Sid>,
      cursors: map<Sid, int>, orders: seq<seq<Sid>>, s: Sid)
    requires Watching(store, user, all, cursors) && s in all
    requires forall order :: order in orders ==> Visits(order, all)
    ensures var (rounds, done) := Rounds(store, user, cursors, orders);
      var log := store[s].events;
      var rest := After(log, Effective(log, cursors[s]));
      var sent := SentInAll(rounds, s);
      && |sent| <= |rest| && sent == rest[..|sent|]
      && (done ==> sent == rest)
      && (|orders| > Remaining(store, all, cursors) ==> done)
    decreases |orders|
  {
    if orders == [] {
    } else {
      var order := orders[0];
      var (served, t) := Process(store, user, EntriesFor(order, cursors), 0, false);
      assert order in orders;
      RoundServes(store, user, all, cursors, order, s);
      if t {
        var cursors' := cursors + Cursors(served);
        RoundKeepsWatching(store, user, all, cursors, order);
        TruncatedRoundShrinks(store, user, all, cursors, order);
        RoundsSendEverythingOnce(store, user, all, cursors', orders[1..], s);
        JoinRounds(store[s].events, cursors[s], SentTo(served, s), cursors'[s],
          SentInAll(Rounds(store, user, cursors', orders[1..]).0, s));
      }
    }
  }

  lemma JoinRounds(log: seq<Event>, c: int, first: seq<Event>, c1: int, more: seq<Event>)
    requires Sendable(log) && c >= 0 && Block(log, c, first, c1)
    requires |more| <= |After(log, Effective(log, c1))| && more == After(log, Effective(log, c1))[..|more|]
    ensures var rest := After(log, Effective(log, c));
      && |first + more| <= |rest| && first + more == rest[..|first + more|]
      && (more == After(log, Effective(log, c1)) ==> first + more == rest)
  {
    EffectiveAfterBlock(log, c, first, c1);
    JoinPrefix(After(log, Effective(log, c)), |first|, |more|);
  }
}
