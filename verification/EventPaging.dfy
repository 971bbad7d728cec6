/** Cursor paging over a session's events: the gateway pager
    (gatewayStore.ts), the relay store and its HTTP handler (store.go, api.go),
    and the browser's loader that follows `nextCursor` (useCodeHarbor.ts). */
module EventPaging {

  /** An event and the length of its JSON encoding in bytes. */
  datatype Event = Event(eventSeq: int, bytes: nat, body: string)

  datatype Page = Page(events: seq<Event>, nextCursor: int, truncated: bool)

  const MAX_BATCH_BYTES: nat := 0x200_0000

  ghost predicate Increasing(log: seq<Event>)
  {
    forall i, j :: 0 <= i < j < |log| ==> log[i].eventSeq < log[j].eventSeq
  }

  /** The events numbered above the cursor. */
  function After(log: seq<Event>, cursor: int): (r: seq<Event>)
    ensures |r| <= |log|
  {
    if log == [] then []
    else if log[0].eventSeq <= cursor then After(log[1..], cursor)
    else [log[0]] + After(log[1..], cursor)
  }

  function LastSeq(es: seq<Event>, otherwise: int): int
  {
    if es == [] then otherwise else es[|es| - 1].eventSeq
  }

  /** copyEventsAfter */
  method CopyEventsAfter(log: seq<Event>, after: int) returns (result: seq<Event>)
    ensures result == After(log, after)
  {
    result := [];
    for i := 0 to |log|
      invariant After(log, after) == result + After(log[i..], after)
    {
      if log[i].eventSeq > after { result := result + [log[i]]; }
    }
  }

  lemma {:induction false} AfterIncreasing(log: seq<Event>, cursor: int)
    requires Increasing(log)
    ensures Increasing(After(log, cursor))
    ensures forall e :: e in After(log, cursor) <==> e in log && e.eventSeq > cursor
  {
    if log == [] {
    } else {
      AfterIncreasing(log[1..], cursor);
      assert forall e :: e in log <==> e == log[0] || e in log[1..];
    }
  }

  lemma {:induction false} AfterNothing(log: seq<Event>, cursor: int)
    requires forall e :: e in log ==> e.eventSeq > cursor
    ensures After(log, cursor) == log
  {
    if log == [] {
    } else {
      AfterNothing(log[1..], cursor);
    }
  }

  lemma {:induction false} AfterTwice(log: seq<Event>, cursor: int, later: int)
    requires cursor <= later
    ensures After(After(log, cursor), later) == After(log, later)
  {
    if log == [] {
    } else {
      AfterTwice(log[1..], cursor, later);
      if log[0].eventSeq > cursor {
        assert After(log, cursor)[1..] == After(log[1..], cursor);
      }
    }
  }

  lemma {:induction false} AfterWithin(rest: seq<Event>, n: nat)
    requires Increasing(rest) && 0 < n <= |rest|
    ensures After(rest, rest[n - 1].eventSeq) == rest[n..]
  {
    if n == 1 {
      AfterNothing(rest[1..], rest[0].eventSeq);
    } else {
      AfterWithin(rest[1..], n - 1);
    }
  }

  /** Reading on from the last event of a page skips exactly that page. */
  lemma AfterPage(log: seq<Event>, cursor: int, n: nat)
    requires Increasing(log) && 0 < n <= |After(log, cursor)|
    ensures After(log, After(log, cursor)[n - 1].eventSeq) == After(log, cursor)[n..]
    ensures After(log, cursor)[n - 1].eventSeq > cursor
  {
    AfterIncreasing(log, cursor);
    var rest := After(log, cursor);
    assert rest[n - 1] in rest;
    AfterWithin(rest, n);
    AfterTwice(log, cursor, rest[n - 1].eventSeq);
  }

  // ---- The byte cap ----

  /** How many leading events fit, given bytes already used. */
  function Fitting(events: seq<Event>, used: nat): (n: nat)
    ensures n <= |events|
  {
    if events == [] || used + events[0].bytes > MAX_BATCH_BYTES then 0
    else 1 + Fitting(events[1..], used + events[0].bytes)
  }

  function TotalBytes(events: seq<Event>): nat
  {
    if events == [] then 0 else events[0].bytes + TotalBytes(events[1..])
  }

  /** The cap takes the longest prefix whose bytes stay within the limit. */
  lemma {:induction false} FittingIsLongest(events: seq<Event>, used: nat)
    requires used <= MAX_BATCH_BYTES
    ensures used + TotalBytes(events[..Fitting(events, used)]) <= MAX_BATCH_BYTES
    ensures Fitting(events, used) < |events| ==>
      used + TotalBytes(events[..Fitting(events, used) + 1]) > MAX_BATCH_BYTES
  {
    var n := Fitting(events, used);
    if events != [] && used + events[0].bytes <= MAX_BATCH_BYTES {
      FittingIsLongest(events[1..], used + events[0].bytes);
      assert events[..n][1..] == events[1..][..n - 1];
      assert n < |events| ==> events[..n + 1][1..] == events[1..][..n];
    } else if events != [] {
      assert events[..1][1..] == [];
    }
  }

  /** capEventBatch */
  method CapEventBatch(events: seq<Event>) returns (capped: seq<Event>)
    ensures capped == events[..Fitting(events, 0)]
  {
    var total: nat := 0;
    for i := 0 to |events|
      invariant Fitting(events, 0) == i + Fitting(events[i..], total)
    {
      if total + events[i].bytes > MAX_BATCH_BYTES { return events[..i]; }
      total := total + events[i].bytes;
    }
    capped := events;
  }

  // ---- Pages ----

  /** The page holding the first `n` events after the cursor. */
  function PageOf(log: seq<Event>, cursor: int, n: nat): Page
    requires n <= |After(log, cursor)|
  {
    var events := After(log, cursor)[..n];
    Page(events, LastSeq(events, cursor), n < |After(log, cursor)|)
  }

  function Min(a: int, b: int): int { if a < b then a else b }

  /** How many events the gateway pager returns; any number may be asked for. */
  function GatewayCount(rest: seq<Event>, limit: int): (n: nat)
    ensures n <= |rest| && (rest != [] ==> n > 0)
  {
    Min(if limit < 1 then 1 else Min(5000, limit), |rest|)
  }

  /** How many events the relay handler returns for a limit of 1 to 5000. */
  function RelayCount(rest: seq<Event>, limit: nat): (n: nat)
    ensures n <= |rest|
  {
    Min(limit, Fitting(rest[..Min(limit + 1, |rest|)], 0))
  }

  /** How much a page holds: the limit, clamped to 1..5000 in the gateway. */
  lemma PageSizes(rest: seq<Event>, limit: int)
    ensures 1 <= limit <= 5000 ==> GatewayCount(rest, limit) == Min(limit, |rest|)
    ensures limit < 1 ==> GatewayCount(rest, limit) == Min(1, |rest|)
    ensures limit > 5000 ==> GatewayCount(rest, limit) == Min(5000, |rest|)
  {
  }

  /** listEventsAfterLimited */
  method ListEventsAfterLimited(log: seq<Event>, cursor: int, limit: int) returns (page: Page)
    ensures page == PageOf(log, cursor, GatewayCount(After(log, cursor), limit))
  {
    var capped := Min(5000, limit);
    var safeLimit := if capped < 1 then 1 else capped;
    var entries := CopyEventsAfter(log, cursor);
    var truncated := |entries| > safeLimit;
    var events := if truncated then entries[..safeLimit] else entries;
    page := Page(events, LastSeq(events, cursor), truncated);
  }

  datatype StorePage = StorePage(events: seq<Event>, truncated: bool)

  /** listEventsForUserPage on an owned session: row limit, then byte cap. */
  method ListEventsPage(log: seq<Event>, after: int, limit: int) returns (page: StorePage)
    ensures var rest := After(log, after);
      var rows := if limit <= 0 || limit > 5001 then 5000 else limit;
      var n := Fitting(rest[..Min(rows, |rest|)], 0);
      page == StorePage(rest[..n], n < |rest|)
  {
    var rows := if limit <= 0 || limit > 5001 then 5000 else limit;
    var result := CopyEventsAfter(log, after);
    var truncated := |result| > rows;
    if truncated { result := result[..rows]; }
    assert result == After(log, after)[..Min(rows, |After(log, after)|)];
    var capped := CapEventBatch(result);
    if |capped| < |result| { truncated := true; }
    assert capped == After(log, after)[..|capped|];
    page := StorePage(capped, truncated);
  }

  /** The first retained number when the start of the history after a positive cursor
      was removed, otherwise 0. */
  function GapFrom(log: seq<Event>, after: int): int
  {
    if after > 0 && log != [] && log[0].eventSeq > after + 1 then log[0].eventSeq else 0
  }

  /** The gap is announced exactly when events right after the cursor are missing. */
  lemma GapMeansMissing(log: seq<Event>, after: int)
    requires Increasing(log) && after > 0
    ensures GapFrom(log, after) > 0 <==> log != [] && forall e :: e in log ==> e.eventSeq > after + 1
  {
    if log != [] {
      assert log[0] in log;
      forall e | e in log ensures log[0].eventSeq <= e.eventSeq {
        var i :| 0 <= i < |log| && log[i] == e;
      }
    }
  }

  /** The session events handler: one sentinel row beyond the limit, and
      `availableFrom` when the start of the history is missing. */
  method SessionEvents(log: seq<Event>, after: int, limit: nat) returns (page: Page, availableFrom: int)
    requires 1 <= limit <= 5000 && Increasing(log)
    ensures page == PageOf(log, after, RelayCount(After(log, after), limit))
    ensures availableFrom == GapFrom(log, after)
  {
    hide Fitting;
    hide After;
    var stored := ListEventsPage(log, after, limit + 1);
    var events := stored.events;
    var truncated := stored.truncated || |events| > limit;
    if |events| > limit { events := events[..limit]; }
    availableFrom := 0;
    if after > 0 && |log| > 0 && log[0].eventSeq > after + 1 {
      availableFrom := log[0].eventSeq;
    }
    var nextCursor := after;
    if |events| > 0 {
      AfterIncreasing(log, after);
      var last := events[|events| - 1].eventSeq;
      assert events[|events| - 1] in After(log, after);
      if last > nextCursor { nextCursor := last; }
    }
    page := Page(events, nextCursor, truncated);
  }

  // ---- Following nextCursor ----

  /** Every event fetched by a caller that follows `nextCursor` while pages are
      truncated and not empty. */
  function FollowGateway(log: seq<Event>, cursor: int, limit: int): seq<Event>
    requires Increasing(log)
    decreases |After(log, cursor)|
  {
    var rest := After(log, cursor);
    var page := PageOf(log, cursor, GatewayCount(rest, limit));
    if !page.truncated || page.events == [] then page.events
    else
      AfterPage(log, cursor, |page.events|);
      page.events + FollowGateway(log, page.nextCursor, limit)
  }

  function FollowRelay(log: seq<Event>, cursor: int, limit: nat): seq<Event>
    requires Increasing(log)
    decreases |After(log, cursor)|
  {
    var rest := After(log, cursor);
    var page := PageOf(log, cursor, RelayCount(rest, limit));
    if !page.truncated || page.events == [] then page.events
    else
      AfterPage(log, cursor, |page.events|);
      page.events + FollowRelay(log, page.nextCursor, limit)
  }

  /** The gateway pager reaches every event after the cursor, for any limit. */
  lemma {:induction false} FollowGatewayIsComplete(log: seq<Event>, cursor: int, limit: int)
    requires Increasing(log)
    ensures FollowGateway(log, cursor, limit) == After(log, cursor)
    decreases |After(log, cursor)|
  {
    var rest := After(log, cursor);
    var n := GatewayCount(rest, limit);
    if n < |rest| {
      AfterPage(log, cursor, n);
      FollowGatewayIsComplete(log, rest[n - 1].eventSeq, limit);
      assert rest[..n] + rest[n..] == rest;
    } else {
      assert rest[..n] == rest;
    }
  }

  /** The events before the first one that alone exceeds the byte cap. */
  function UpToOversized(events: seq<Event>): (n: nat)
    ensures n <= |events|
  {
    if events == [] || events[0].bytes > MAX_BATCH_BYTES then 0 else 1 + UpToOversized(events[1..])
  }

  lemma {:induction false} FittingBeforeOversized(events: seq<Event>, used: nat)
    ensures Fitting(events, used) <= UpToOversized(events)
    ensures used == 0 && Fitting(events, used) == 0 ==> UpToOversized(events) == 0
  {
    if events == [] || used + events[0].bytes > MAX_BATCH_BYTES {
    } else {
      FittingBeforeOversized(events[1..], used + events[0].bytes);
    }
  }

  lemma {:induction false} UpToOversizedOfPrefix(events: seq<Event>, n: nat)
    requires n <= |events|
    ensures UpToOversized(events[..n]) == Min(n, UpToOversized(events))
    ensures n <= UpToOversized(events) ==> UpToOversized(events) == n + UpToOversized(events[n..])
  {
    if n == 0 || events[0].bytes > MAX_BATCH_BYTES {
    } else {
      UpToOversizedOfPrefix(events[1..], n - 1);
      assert events[..n][1..] == events[1..][..n - 1];
      assert events[n..] == events[1..][n - 1..];
    }
  }

  /** The relay pager fetches every event before the first one that no page can
      hold, for any limit; following then stops. */
  lemma {:induction false} FollowRelayIs(log: seq<Event>, cursor: int, limit: nat)
    requires Increasing(log) && limit > 0
    ensures FollowRelay(log, cursor, limit) == After(log, cursor)[..UpToOversized(After(log, cursor))]
    decreases |After(log, cursor)|
  {
    var rest := After(log, cursor);
    var n := RelayCount(rest, limit);
    RelayCountFacts(rest, limit);
    if 0 < n < |rest| {
      AfterPage(log, cursor, n);
      FollowRelayIs(log, rest[n - 1].eventSeq, limit);
      JoinPrefix(rest, n, UpToOversized(rest[n..]));
    }
  }

  lemma JoinPrefix(rest: seq<Event>, n: nat, k: nat)
    requires n + k <= |rest|
    ensures rest[..n] + rest[n..][..k] == rest[..n + k]
  {
  }

  lemma RelayCountFacts(rest: seq<Event>, limit: nat)
    requires limit > 0
    ensures var n := RelayCount(rest, limit);
      n <= UpToOversized(rest) == n + UpToOversized(rest[n..]) && (n == 0 ==> UpToOversized(rest) == 0)
  {
    var window := rest[..Min(limit + 1, |rest|)];
    FittingBeforeOversized(window, 0);
    UpToOversizedOfPrefix(rest, |window|);
    UpToOversizedOfPrefix(rest, RelayCount(rest, limit));
  }

  /** Following the relay's pages yields everything after the cursor exactly
      when every such event fits into a batch on its own. */
  lemma FollowRelayCompleteIff(log: seq<Event>, cursor: int, limit: nat)
    requires Increasing(log) && limit > 0
    ensures FollowRelay(log, cursor, limit) == After(log, cursor) <==>
            forall e :: e in After(log, cursor) ==> e.bytes <= MAX_BATCH_BYTES
  {
    FollowRelayIs(log, cursor, limit);
    NoneOversized(After(log, cursor));
  }

  lemma {:induction false} NoneOversized(events: seq<Event>)
    ensures UpToOversized(events) == |events| <==> forall e :: e in events ==> e.bytes <= MAX_BATCH_BYTES
  {
    if events == [] {
    } else {
      NoneOversized(events[1..]);
      assert forall e :: e in events <==> e == events[0] || e in events[1..];
    }
  }

  // ---- The browser's loader ----

  const LOADER_PAGES: nat := 100
  const LOADER_LIMIT: nat := 1000

  /** The first `pages` pages fetched from a cursor. */
  function Loaded(log: seq<Event>, cursor: int, pages: nat): seq<Event>
    decreases pages
  {
    if pages == 0 then [] else
    var page := PageOf(log, cursor, RelayCount(After(log, cursor), LOADER_LIMIT));
    if !page.truncated || page.events == [] then page.events
    else page.events + Loaded(log, page.nextCursor, pages - 1)
  }

  lemma LoadedCases(log: seq<Event>, cursor: int, pages: nat)
    ensures pages == 0 ==> Loaded(log, cursor, pages) == []
    ensures var page := PageOf(log, cursor, RelayCount(After(log, cursor), LOADER_LIMIT));
      var more := if !page.truncated || page.events == [] || pages == 0 then []
                  else Loaded(log, page.nextCursor, pages - 1);
      pages > 0 ==> Loaded(log, cursor, pages) == page.events + more
  {
  }

  /** Reading on inside a fixed log moves forward and never meets a gap. */
  lemma PageAdvances(log: seq<Event>, after: int, n: nat)
    requires Increasing(log) && n <= |After(log, after)| && GapFrom(log, after) == 0
    ensures GapFrom(log, PageOf(log, after, n).nextCursor) == 0
    ensures n > 0 ==> PageOf(log, after, n).nextCursor > after
  {
    if n > 0 {
      AfterPage(log, after, n);
      AfterIncreasing(log, after);
      var last := After(log, after)[n - 1];
      assert last in log;
      var i :| 0 <= i < |log| && log[i] == last;
    }
  }

  /** loadSessionEvents: at most 100 pages of 1000, stopping early at an empty
      page or when the cursor stops moving. */
  method LoadSessionEvents(log: seq<Event>) returns (list: seq<Event>)
    requires Increasing(log)
    ensures list == Loaded(log, 0, LOADER_PAGES)
  {
    hide Loaded;
    hide After;
    hide RelayCount;
    hide Increasing;
    list := [];
    var after, truncated, page := 0, true, 0;
    ghost var left: seq<Event> := Loaded(log, 0, LOADER_PAGES);
    while page < LOADER_PAGES && truncated
      invariant page <= LOADER_PAGES
      invariant Loaded(log, 0, LOADER_PAGES) == list + left
      invariant left == if truncated then Loaded(log, after, LOADER_PAGES - page) else []
      invariant GapFrom(log, after) == 0
      decreases LOADER_PAGES - page
    {
      LoadedCases(log, after, LOADER_PAGES - page);
      var data, availableFrom := SessionEvents(log, after, LOADER_LIMIT);
      PageAdvances(log, after, |data.events|);
      if availableFrom > 0 && availableFrom - 1 > after { after := availableFrom - 1; }
      ghost var more := if !data.truncated || data.events == [] then []
                        else Loaded(log, data.nextCursor, LOADER_PAGES - page - 1);
      assert list + (data.events + more) == (list + data.events) + more;
      list := list + data.events;
      left := more;
      truncated := data.truncated && data.nextCursor > after;
      after := data.nextCursor;
      page := page + 1;
      if data.events == [] { break; }
    }
    LoadedCases(log, after, 0);
  }

  /** How many non-empty pages a reader of everything would fetch. */
  function PagesNeeded(log: seq<Event>, cursor: int): nat
    requires Increasing(log)
    decreases |After(log, cursor)|
  {
    var rest := After(log, cursor);
    var n := RelayCount(rest, LOADER_LIMIT);
    if n == 0 then 0
    else if n == |rest| then 1
    else
      AfterPage(log, cursor, n);
      1 + PagesNeeded(log, rest[n - 1].eventSeq)
  }

  /** A snapshot is an initial stretch of the retained events, and it is everything
      before the first oversized event if and only if it got enough pages. */
  lemma {:induction false} LoadedIsPrefix(log: seq<Event>, cursor: int, pages: nat) returns (k: nat)
    requires Increasing(log)
    ensures k <= UpToOversized(After(log, cursor)) && Loaded(log, cursor, pages) == After(log, cursor)[..k]
    ensures k == UpToOversized(After(log, cursor)) <==> PagesNeeded(log, cursor) <= pages
    decreases pages
  {
    hide RelayCount;
    hide After;
    hide Loaded;
    hide UpToOversized;
    var rest := After(log, cursor);
    var n := RelayCount(rest, LOADER_LIMIT);
    RelayCountFacts(rest, LOADER_LIMIT);
    LoadedCases(log, cursor, pages);
    if pages == 0 {
      k := 0;
      if n > 0 && n < |rest| { AfterPage(log, cursor, n); }
    } else if n == 0 || n == |rest| {
      k := n;
    } else {
      AfterPage(log, cursor, n);
      var more := LoadedIsPrefix(log, rest[n - 1].eventSeq, pages - 1);
      JoinPrefix(rest, n, more);
      k := n + more;
    }
  }

  lemma {:induction false} BytesOfParts(events: seq<Event>, n: nat)
    requires n <= |events|
    ensures TotalBytes(events) == TotalBytes(events[..n]) + TotalBytes(events[n..])
  {
    if n == 0 {
      assert events[n..] == events;
    } else {
      BytesOfParts(events[1..], n - 1);
      assert events[..n][1..] == events[1..][..n - 1];
      assert events[n..] == events[1..][n - 1..];
    }
  }

  lemma {:induction false} AllFitting(events: seq<Event>, used: nat)
    requires used + TotalBytes(events) <= MAX_BATCH_BYTES
    ensures Fitting(events, used) == UpToOversized(events) == |events|
  {
    if events == [] {
    } else {
      AllFitting(events[1..], used + events[0].bytes);
    }
  }

  lemma FullPage(rest: seq<Event>, limit: nat)
    requires TotalBytes(rest) <= MAX_BATCH_BYTES
    ensures RelayCount(rest, limit) == Min(limit, |rest|)
  {
    var w := Min(limit + 1, |rest|);
    BytesOfParts(rest, w);
    AllFitting(rest[..w], 0);
  }

  /** Events that fit one batch need one page per thousand. */
  lemma {:induction false} FewPagesNeeded(log: seq<Event>, cursor: int)
    requires Increasing(log) && TotalBytes(After(log, cursor)) <= MAX_BATCH_BYTES
    ensures PagesNeeded(log, cursor) <= (|After(log, cursor)| + LOADER_LIMIT - 1) / LOADER_LIMIT
    decreases |After(log, cursor)|
  {
    var rest := After(log, cursor);
    var n := RelayCount(rest, LOADER_LIMIT);
    FullPage(rest, LOADER_LIMIT);
    if n == 0 {
    } else if n == |rest| {
    } else {
      AfterPage(log, cursor, n);
      BytesOfParts(rest, n);
      FewPagesNeeded(log, rest[n - 1].eventSeq);
    }
  }

  /** When all events fit one batch, 100 pages load up to 100,000 events whole. */
  lemma LoadedIsComplete(log: seq<Event>, cursor: int, pages: nat)
    requires Increasing(log) && TotalBytes(After(log, cursor)) <= MAX_BATCH_BYTES
    requires |After(log, cursor)| <= pages * LOADER_LIMIT
    ensures Loaded(log, cursor, pages) == After(log, cursor)
  {
    var rest := After(log, cursor);
    FewPagesNeeded(log, cursor);
    var k := LoadedIsPrefix(log, cursor, pages);
    AllFitting(rest, 0);
    assert rest[..|rest|] == rest;
  }
}
