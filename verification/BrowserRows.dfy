/** Which delivered events become rows of the timeline (useCodeHarbor.ts): the next
    number is shown unless its request has an optimistic row or it was shown before. */
module BrowserRows {
  import opened OrderedMaps
  import opened BrowserCursor

  // ---- Keys ----

  lemma {:induction false} DecimalDigits(n: nat)
    ensures Decimal(n) != "" && ':' !in Decimal(n) && (|Decimal(n)| == 1 <==> n < 10)
  {
    if n < 10 {
    } else {
      DecimalDigits(n / 10);
    }
  }

  lemma {:induction false} DecimalInjective(a: nat, b: nat)
    requires Decimal(a) == Decimal(b)
    ensures a == b
  {
    DecimalDigits(a);
    DecimalDigits(b);
    if a < 10 {
    } else {
      var x, y := Decimal(a), Decimal(b);
      assert x[..|x| - 1] == Decimal(a / 10) && y[..|y| - 1] == Decimal(b / 10);
      assert x[|x| - 1] == "0123456789"[a % 10] && y[|y| - 1] == "0123456789"[b % 10];
      DecimalInjective(a / 10, b / 10);
    }
  }

  /** The last colon of an event key ends the session id. */
  lemma EventKeyInjective(s: Sid, n: nat, s': Sid, n': nat)
    requires EventKey(s, n) == EventKey(s', n')
    ensures s == s' && n == n'
  {
    var v := EventKey(s, n);
    LastColon(s, n);
    LastColon(s', n');
    assert |s| == |s'|;
    assert s == v[..|s|] && s' == v[..|s|];
    assert Decimal(n) == v[|s| + 1..] && Decimal(n') == v[|s| + 1..];
    DecimalInjective(n, n');
  }

  lemma LastColon(s: Sid, n: nat)
    ensures EventKey(s, n)[|s|] == ':'
    ensures forall i :: |s| < i < |EventKey(s, n)| ==> EventKey(s, n)[i] != ':'
  {
    DecimalDigits(n);
    forall i | |s| < i < |EventKey(s, n)| ensures EventKey(s, n)[i] != ':' {
      assert EventKey(s, n)[i] == Decimal(n)[i - |s| - 1];
      assert Decimal(n)[i - |s| - 1] in Decimal(n);
    }
  }

  /** A session id that makes no request key; the gateway's ids are UUIDs. */
  ghost predicate Plain(s: Sid) { !("request:" <= s + ":") }

  lemma RequestShaped(s: Sid, n: nat, id: string)
    requires EventKey(s, n) == RequestKey(Some(id))
    ensures !Plain(s)
  {
    var key := EventKey(s, n);
    assert "request:" == key[..8] && key[7] == ':';
    LastColon(s, n);
    assert key[..8] == (s + ":")[..8];
  }

  lemma RequestKeyInjective(a: string, b: string)
    requires RequestKey(Some(a)) == RequestKey(Some(b))
    ensures a == b
  {
    assert RequestKey(Some(a))[8..] == a && RequestKey(Some(b))[8..] == b;
  }

  // ---- Where seen keys come from ----

  /** The request ids a run has noted: optimistic rows and delivered frames that carry
      only a request. */
  ghost function Noted(sys: System, steps: seq<Step>): set<string>
  {
    if steps == [] then {} else
    var init, last := steps[..|steps| - 1], steps[|steps| - 1];
    Noted(sys, init) + NotedBy(Run(sys, init).0, last)
  }

  ghost function NotedBy(sys: System, step: Step): set<string>
  {
    if step.Optimistic? then {step.id}
    else if step.Deliver? && sys.channel != [] && sys.channel[0].Unnumbered? && sys.channel[0].request.Some? then
      {sys.channel[0].request.value}
    else {}
  }

  /** A key comes from a noted request or from a shown event. */
  ghost predicate Sourced(key: string, noted: set<string>, marks: seq<Mark>)
  {
    (exists id :: id in noted && key == RequestKey(Some(id))) ||
    (exists s, n :: Applied(s, n) in marks && key == EventKey(s, n))
  }

  ghost predicate AllSourced(seen: seq<string>, noted: set<string>, marks: seq<Mark>)
  {
    forall key :: key in seen ==> Sourced(key, noted, marks)
  }

  ghost predicate AllSeen(seen: seq<string>, noted: set<string>, marks: seq<Mark>)
  {
    && (forall id :: id in noted ==> RequestKey(Some(id)) in seen)
    && (forall s, n :: Applied(s, n) in marks ==> EventKey(s, n) in seen)
  }

  lemma SourcedGrows(key: string, noted: set<string>, marks: seq<Mark>, noted': set<string>, marks': seq<Mark>)
    requires Sourced(key, noted, marks) && noted <= noted' && forall m :: m in marks ==> m in marks'
    ensures Sourced(key, noted', marks')
  {
  }

  /** What one step adds to the seen keys: the key of the request it notes, or of the
      event it shows. */
  lemma StepSees(sys: System, sessions: set<Sid>, step: Step)
    requires Inv(sys, sessions) && Enabled(sys, sessions, step)
    ensures var (sys', more) := Next(sys, step);
      && (forall key :: key in sys'.client.seen ==> key in sys.client.seen || Sourced(key, NotedBy(sys, step), more))
      && (|sys.client.seen| < SEEN_LIMIT ==>
        && |sys'.client.seen| <= |sys.client.seen| + 1
        && (forall key :: key in sys.client.seen ==> key in sys'.client.seen)
        && AllSeen(sys'.client.seen, NotedBy(sys, step), more))
  {
    match step
    case Deliver =>
      var frame := sys.channel[0];
      assert WellFormed(frame, sessions);
      if frame.Complete? {
        DeliverKeeps(sys, sessions);
      } else {
        FrameSees(sys.client, sessions, frame);
      }
      hide Handle;
    case Snapshot(s, log) => SnapshotSees(sys.client, s, log);
    case _ =>
  }

  lemma SaveKeepsSeen(c: Client, s: Sid, n: nat)
    ensures SaveCursor(c, s, n).seen == c.seen
  {
  }

  lemma SnapshotSees(c: Client, s: Sid, log: seq<EventPaging.Event>)
    ensures LoadSnapshot(c, s, log).0.seen == c.seen
    ensures forall o, n :: Applied(o, n) !in LoadSnapshot(c, s, log).1
  {
    hide LoadedList;
  }

  lemma FrameSees(c: Client, sessions: set<Sid>, frame: Incoming)
    requires WellFormed(frame, sessions) && !frame.Complete? && "" !in sessions
    ensures var h := Handle(c, frame);
      var noted := if frame.Unnumbered? && frame.request.Some? then {frame.request.value} else {};
      && (forall key :: key in h.client.seen ==> key in c.seen || Sourced(key, noted, h.marks))
      && (|c.seen| < SEEN_LIMIT ==>
        && |h.client.seen| <= |c.seen| + 1
        && (forall key :: key in c.seen ==> key in h.client.seen)
        && AllSeen(h.client.seen, noted, h.marks))
  {
    match frame
    case Numbered(s, n, request) => NumberedSees(c, s, n, request);
    case Unnumbered(request) =>
      hide See;
    case Gap(_, _) =>
  }

  lemma NumberedSees(c: Client, s: Sid, n: nat, request: Option<string>)
    requires s != ""
    ensures var h := HandleNumbered(c, s, n, request);
      && (forall key :: key in h.client.seen ==> key in c.seen || Sourced(key, {}, h.marks))
      && (|c.seen| < SEEN_LIMIT ==>
        && |h.client.seen| <= |c.seen| + 1
        && (forall key :: key in c.seen ==> key in h.client.seen)
        && AllSeen(h.client.seen, {}, h.marks))
  {
    SaveKeepsSeen(c, s, n);
    SaveKeepsSeen(c.(seen := See(c.seen, EventKey(s, n))), s, n);
    hide SaveCursor;
    hide See;
    hide EventKey;
    hide RequestKey;
    var h := HandleNumbered(c, s, n, request);
    assert h.marks == [] || h.marks == [Matched(s, n)] || h.marks == [Applied(s, n)];
    hide HandleNumbered;
  }

  /** In every run from login each seen key has a source; below the seen limit every
      source is still seen. */
  lemma {:induction false} SeenKeysHaveSources(sessions: set<Sid>, steps: seq<Step>)
    requires |sessions| <= CURSOR_LIMIT && "" !in sessions
    requires Possible(System(Login, [], None), sessions, steps)
    ensures var start := System(Login, [], None);
      var (sys, marks) := Run(start, steps);
      && AllSourced(sys.client.seen, Noted(start, steps), marks)
      && (|steps| <= SEEN_LIMIT ==>
        |sys.client.seen| <= |steps| && AllSeen(sys.client.seen, Noted(start, steps), marks))
  {
    var start := System(Login, [], None);
    if steps == [] {
    } else {
      var init, last := steps[..|steps| - 1], steps[|steps| - 1];
      SeenKeysHaveSources(sessions, init);
      LoginLinked(sessions);
      EveryRunAccounts(start, sessions, init);
      var (mid, marks) := Run(start, init);
      StepSees(mid, sessions, last);
      var (end, more) := Next(mid, last);
      hide Next;
      hide Inv;
      forall key | key in end.client.seen ensures Sourced(key, Noted(start, steps), marks + more) {
        if key in mid.client.seen {
          SourcedGrows(key, Noted(start, init), marks, Noted(start, steps), marks + more);
        } else {
          SourcedGrows(key, NotedBy(mid, last), more, Noted(start, steps), marks + more);
        }
      }
    }
  }

  // ---- Shown or matched ----

  /** A delivered next number: it is shown or matched, by what was noted and shown. */
  ghost predicate Repeated(sys: System, steps: seq<Step>, s: Sid, n: nat, request: Option<string>)
  {
    (request.Some? && request.value in Noted(sys, steps)) || Applied(s, n) in Run(sys, steps).1
  }

  lemma NextIsMarked(c: Client, s: Sid, n: nat, request: Option<string>)
    requires s != "" && n == c.CursorOf(s) + 1
    ensures var marks := Handle(c, Numbered(s, n, request)).marks;
      if (request.Some? && "request:" + request.value in c.seen) || s + ":" + Decimal(n) in c.seen
      then marks == [Matched(s, n)] else marks == [Applied(s, n)]
  {
  }

  /** In every run from login: a delivered next number is matched instead of shown only
      if its request was noted before, or it was itself shown before; and within the
      first 2,000 steps exactly then. */
  lemma ShownUnlessRepeated(sessions: set<Sid>, steps: seq<Step>, s: Sid, n: nat, request: Option<string>)
    requires |sessions| <= CURSOR_LIMIT && "" !in sessions && forall o :: o in sessions ==> Plain(o)
    requires Possible(System(Login, [], None), sessions, steps) && s in sessions
    requires var sys := Run(System(Login, [], None), steps).0;
      sys.channel != [] && sys.channel[0] == Numbered(s, n, request) && n == sys.client.CursorOf(s) + 1
    ensures var start := System(Login, [], None);
      var marks := Next(Run(start, steps).0, Deliver).1;
      && (marks == [Applied(s, n)] || marks == [Matched(s, n)])
      && (marks == [Matched(s, n)] ==> Repeated(start, steps, s, n, request))
      && (|steps| <= SEEN_LIMIT ==> (marks == [Matched(s, n)] <==> Repeated(start, steps, s, n, request)))
  {
    var start := System(Login, [], None);
    var (sys, marks) := Run(start, steps);
    SeenKeysHaveSources(sessions, steps);
    AppliedInSessions(start, sessions, steps);
    NextIsMarked(sys.client, s, n, request);
    hide Run;
    hide Noted;
    hide Handle;
    var noted := Noted(start, steps);
    assert s + ":" + Decimal(n) == EventKey(s, n);
    if EventKey(s, n) in sys.client.seen { EventKeySource(s, n, noted, marks); }
    if request.Some? && RequestKey(request) in sys.client.seen {
      RequestKeySource(request.value, noted, marks, sessions);
    }
  }

  lemma EventKeySource(s: Sid, n: nat, noted: set<string>, marks: seq<Mark>)
    requires Sourced(EventKey(s, n), noted, marks) && Plain(s)
    ensures Applied(s, n) in marks
  {
    if id :| id in noted && EventKey(s, n) == RequestKey(Some(id)) {
      RequestShaped(s, n, id);
    } else {
      var o, m :| Applied(o, m) in marks && EventKey(s, n) == EventKey(o, m);
      EventKeyInjective(s, n, o, m);
    }
  }

  lemma RequestKeySource(id: string, noted: set<string>, marks: seq<Mark>, sessions: set<Sid>)
    requires Sourced(RequestKey(Some(id)), noted, marks)
    requires forall s, n :: Applied(s, n) in marks ==> s in sessions
    requires forall s :: s in sessions ==> Plain(s)
    ensures id in noted
  {
    if s, n :| Applied(s, n) in marks && RequestKey(Some(id)) == EventKey(s, n) {
      RequestShaped(s, n, id);
    } else {
      var x :| x in noted && RequestKey(Some(id)) == RequestKey(Some(x));
      RequestKeyInjective(id, x);
    }
  }

  lemma {:induction false} AppliedInSessions(sys: System, sessions: set<Sid>, steps: seq<Step>)
    requires Inv(sys, sessions) && Possible(sys, sessions, steps)
    ensures forall s, n :: Applied(s, n) in Run(sys, steps).1 ==> s in sessions
  {
    if steps == [] {
    } else {
      var init, last := steps[..|steps| - 1], steps[|steps| - 1];
      AppliedInSessions(sys, sessions, init);
      EveryRunAccounts(sys, sessions, init);
      var (mid, marks) := Run(sys, init);
      StepAppliesInSessions(mid, sessions, last);
      hide Next;
      hide Inv;
    }
  }

  lemma StepAppliesInSessions(sys: System, sessions: set<Sid>, step: Step)
    requires Inv(sys, sessions) && Enabled(sys, sessions, step)
    ensures forall s, n :: Applied(s, n) in Next(sys, step).1 ==> s in sessions
  {
    match step
    case Deliver =>
      var frame := sys.channel[0];
      assert WellFormed(frame, sessions);
      if frame.Complete? { DeliverKeeps(sys, sessions); }
    case Snapshot(s, log) => SnapshotSees(sys.client, s, log);
    case _ =>
  }

  /** Without a retention reset nothing is shown twice, so the next number is shown if
      and only if its request was not noted. */
  lemma ShownUnlessNoted(sessions: set<Sid>, steps: seq<Step>, s: Sid, n: nat, request: Option<string>)
    requires |sessions| <= CURSOR_LIMIT && "" !in sessions && forall o :: o in sessions ==> Plain(o)
    requires Possible(System(Login, [], None), sessions, steps) && s in sessions && |steps| <= SEEN_LIMIT
    requires NoRebase(s, Run(System(Login, [], None), steps).1)
    requires var sys := Run(System(Login, [], None), steps).0;
      sys.channel != [] && sys.channel[0] == Numbered(s, n, request) && n == sys.client.CursorOf(s) + 1
    ensures var start := System(Login, [], None);
      Next(Run(start, steps).0, Deliver).1 == [Applied(s, n)] <==>
        !(request.Some? && request.value in Noted(start, steps))
  {
    var start := System(Login, [], None);
    ShownUnlessRepeated(sessions, steps, s, n, request);
    LoginLinked(sessions);
    var i := BetweenResets(start, sessions, steps, s, n);
    hide Run;
    hide Next;
    hide Noted;
    AppliedIsReached(Run(start, steps).1, s, n, Run(start, steps).0.client.CursorOf(s));
  }

  lemma AppliedIsReached(marks: seq<Mark>, s: Sid, n: nat, to: nat)
    requires forall j :: 0 <= j < |marks| && Accounts(marks[j], s, n) ==> n <= to
    ensures Applied(s, n) in marks ==> n <= to
  {
    if Applied(s, n) in marks {
      var j :| 0 <= j < |marks| && marks[j] == Applied(s, n);
      assert Accounts(marks[j], s, n);
    }
  }

  // ---- Saved cursors ----

  /** Saving returned cursors below the limit takes the largest of what there was and
      what came back. */
  lemma {:induction false} SaveAllRaises(c: Client, sessions: set<Sid>, returned: seq<(Sid, nat)>)
    requires Fits(c, sessions) && forall e :: e in returned ==> e.0 in sessions
    ensures var c' := SaveAll(c, returned);
      && Fits(c', sessions) && c'.attempts == c.attempts && c'.seen == c.seen
      && (forall s :: c'.CursorOf(s) >= c.CursorOf(s))
      && (forall s :: c'.CursorOf(s) == c.CursorOf(s) || (s, c'.CursorOf(s)) in returned)
      && (forall e :: e in returned ==> c'.CursorOf(e.0) >= e.1)
  {
    if returned == [] {
    } else {
      var init, last := returned[..|returned| - 1], returned[|returned| - 1];
      assert returned == init + [last];
      SaveAllRaises(c, sessions, init);
      SaveFits(SaveAll(c, init), sessions, last.0, last.1);
      hide SaveCursor;
      hide Fits;
    }
  }

  /** The follow-up resume is asked for if and only if the reply is truncated, fewer than
      ten were asked for, and some returned cursor is ahead of the browser's. */
  lemma FollowUpIff(c: Client, sessions: set<Sid>, returned: seq<(Sid, nat)>, truncated: bool)
    requires Fits(c, sessions) && forall e :: e in returned ==> e.0 in sessions
    ensures HandleComplete(c, returned, truncated).resume <==>
      truncated && c.attempts < 10 && exists e :: e in returned && e.1 > c.CursorOf(e.0)
    ensures HandleComplete(c, returned, truncated).resume ==>
      HandleComplete(c, returned, truncated).client.attempts == c.attempts + 1
    ensures truncated && c.attempts < 10 ==>
      forall e :: e in returned ==> HandleComplete(c, returned, truncated).client.CursorOf(e.0) >= e.1
  {
    SaveAllRaises(c, sessions, returned);
    var c' := SaveAll(c, returned);
    hide SaveAll;
    hide SkipMarks;
    if e :| e in returned && e.1 > c.CursorOf(e.0) {
      assert e.0 in c'.cursors.keys;
    }
    if s :| s in c'.cursors.keys && c'.CursorOf(s) > c.CursorOf(s) {
      assert (s, c'.CursorOf(s)) in returned;
    }
  }

  /** Beyond 10,000 sessions only the 8,000 newest cursors stay, the saved one among
      them if it is new. */
  lemma SaveBeyondLimit(c: Client, s: Sid, n: nat)
    requires c.cursors.Valid() && s != "" && n > c.CursorOf(s)
    ensures var keys := if s in c.cursors.vals then c.cursors.keys else c.cursors.keys + [s];
      var c' := SaveCursor(c, s, n);
      && c'.cursors.keys == (if |keys| > 10_000 then TakeLast(keys, 8_000) else keys)
      && (s in c'.cursors.vals ==> c'.CursorOf(s) == n) && (s !in c.cursors.vals ==> s in c'.cursors.vals)
      && forall o :: o != s && o in c'.cursors.vals ==> o in c.cursors.vals && c'.CursorOf(o) == c.CursorOf(o)
  {
    var more := c.cursors.Set(s, n);
    if s !in c.cursors.vals { AddKeepsValid(c.cursors, s, n); }
    assert more.Valid();
    TrimKeepsNewest(more, CURSORS_KEPT);
    hide OrderedMap.Trim;
    if s !in c.cursors.vals && |more.keys| > CURSOR_LIMIT {
      assert TakeLast(more.keys, CURSORS_KEPT)[CURSORS_KEPT - 1] == s;
    }
  }
}
