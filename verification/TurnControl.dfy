/** Turn admission and cancellation (turnGate.ts, sessionRunState.ts, index.ts):
    accepted turns continue in the background and race with interrupts and with
    Codex events. Code between two awaits is one step. */
module TurnControl {
  import opened OrderedMaps

  type Sid = string
  type Generation = nat

  const TOMBSTONES: nat := 10_000

  datatype Session = Session(status: string, turn: Option<string>)

  predicate IsLive(status: string) { status == "running" || status == "starting" || status == "waiting-approval" }

  /** A message given to broadcastGateway. A carried session replaces the stored
      turn only if it has the field (`turn` is Some). */
  datatype Message =
    | Carrying(s: Sid, carried: string, turn: Option<Option<string>>)
    | Finished(s: Sid, turnStatus: Option<string>)
    | StatusOf(s: Sid, status: Option<string>)
    | ApprovalRequested(s: Sid)
    | Other(s: Sid)

  /** The gate's set, the generations, the cancellation tombstones in insertion
      order, the live set, the stored sessions and the messages broadcast. */
  datatype Control = Control(
    gate: set<Sid>, generations: map<Sid, Generation>, tombs: seq<Sid>, live: set<Sid>,
    stored: map<Sid, Session>, sent: seq<Message>) {

    function GenerationOf(s: Sid): Generation { if s in generations then generations[s] else 0 }
  }

  // ---- Pure helpers ----

  function InferFinishedStatus(turnStatus: Option<string>): (r: string)
    ensures !IsLive(r)
    ensures r == "failed" <==> turnStatus in [Some("failed"), Some("error")]
    ensures r == "cancelled" <==> turnStatus in [Some("cancelled"), Some("interrupted")]
    ensures r in ["failed", "cancelled", "completed"]
  {
    if turnStatus == Some("failed") || turnStatus == Some("error") then "failed"
    else if turnStatus == Some("cancelled") || turnStatus == Some("interrupted") then "cancelled"
    else "completed"
  }

  function Upsert(stored: map<Sid, Session>, s: Sid, status: string, turn: Option<Option<string>>): map<Sid, Session>
  {
    var prior := if s in stored then stored[s].turn else None;
    stored[s := Session(status, if turn.Some? then turn.value else prior)]
  }

  function Update(stored: map<Sid, Session>, s: Sid, status: string, clearTurn: bool): map<Sid, Session>
  {
    if s !in stored then stored
    else stored[s := Session(status, if clearTurn then None else stored[s].turn)]
  }

  // ---- broadcastGateway ----

  /** The live set and the gate follow the status. */
  function Follow(c: Control, s: Sid, status: string): Control
  {
    if IsLive(status) then c.(live := c.live + {s}) else c.(live := c.live - {s}, gate := c.gate - {s})
  }

  /** A live status of a cancelled session is stale. */
  predicate Stale(c: Control, s: Sid, status: string) { s in c.tombs && IsLive(status) }

  function Record(c: Control, m: Message): Control
  {
    match m
    case Carrying(s, status, turn) => var f := Follow(c, s, status); f.(stored := Upsert(c.stored, s, status, turn))
    case Finished(s, turnStatus) =>
      c.(live := c.live - {s}, gate := c.gate - {s},
        stored := Update(c.stored, s, InferFinishedStatus(turnStatus), true))
    case StatusOf(s, status) =>
      if status.None? || status.value == "" then c
      else var f := Follow(c, s, status.value); f.(stored := Update(c.stored, s, status.value, false))
    case ApprovalRequested(s) => c.(stored := Update(c.stored, s, "waiting-approval", false))
    case Other(s) => c
  }

  predicate Ignored(c: Control, m: Message)
  {
    (m.Carrying? && Stale(c, m.s, m.carried)) || (m.StatusOf? && m.status.Some? && Stale(c, m.s, m.status.value))
  }

  function Broadcast(c: Control, m: Message): Control
  {
    if Ignored(c, m) then c else var r := Record(c, m); r.(sent := c.sent + [m])
  }

  // ---- Routes ----

  datatype Admission = Accepted | Duplicate | Busy

  function Admit(c: Control, s: Sid, request: Option<string>, known: Option<string>): Admission
  {
    if request.Some? && request.value != "" && request == known then Duplicate
    else if s in c.gate then Busy
    else Accepted
  }

  function Bump(c: Control, s: Sid): Control
  {
    c.(generations := c.generations[s := c.GenerationOf(s) + 1])
  }

  /** POST /sessions/:id/turns after admission; `read` is the session as the route
      found it, whose turn id the status message carries. */
  function Begin(c: Control, s: Sid, read: Option<Session>): Control
  {
    var c1 := Bump(c.(gate := c.gate + {s}, tombs := Without(c.tombs, s), live := c.live + {s}), s);
    var c2 := c1.(stored := Upsert(c.stored, s, "running", Some(None)));
    Broadcast(Broadcast(c2, Other(s)), Carrying(s, "running", if read.Some? then Some(read.value.turn) else None))
  }

  function Entomb(tombs: seq<Sid>, s: Sid): seq<Sid>
  {
    var more := if s in tombs then tombs else tombs + [s];
    if |more| > TOMBSTONES then more[1..] else more
  }

  /** settleInterruptedSession */
  function Interrupt(c: Control, s: Sid): Control
  {
    var c1 := Bump(c, s).(tombs := Entomb(c.tombs, s), live := c.live - {s}, gate := c.gate - {s});
    var c2 := c1.(stored := Upsert(c.stored, s, "cancelled", Some(None)));
    Broadcast(c2, Finished(s, None))
  }

  /** The continuation's catch block. */
  function Abort(c: Control, s: Sid): Control
  {
    var c1 := c.(live := c.live - {s}, gate := c.gate - {s}, stored := Update(c.stored, s, "failed", true));
    Broadcast(c1, Finished(s, None))
  }

  function SetTurn(c: Control, s: Sid, turn: string): Control
  {
    if s in c.stored then c.(stored := c.stored[s := c.stored[s].(turn := Some(turn))]) else c
  }

  // ---- Continuations ----

  datatype Stage = AwaitResume | AwaitAttachments | AwaitStart | Done

  datatype Task = Task(s: Sid, generation: Generation, stage: Stage)

  datatype Call = StartTurn(s: Sid, generation: Generation) | InterruptTurn(s: Sid, turn: string)

  datatype System = System(c: Control, tasks: seq<Task>, calls: seq<Call>)

  predicate Current(c: Control, t: Task) { c.GenerationOf(t.s) == t.generation }

  datatype Outcome = Resolved(turn: Option<string>) | Rejected

  datatype Step =
    | Turn(s: Sid, request: Option<string>, known: Option<string>, read: Option<Session>)
    | Settle(k: nat, outcome: Outcome)
    | Cancel(s: Sid)
    | Event(m: Message)
    | ReleaseIdle(s: Sid)

  predicate Enabled(sys: System, step: Step)
  {
    match step
    case Turn(s, _, _, read) => read.Some? ==> s in sys.c.stored && read.value == sys.c.stored[s]
    case Settle(k, _) => k < |sys.tasks| && !sys.tasks[k].stage.Done?
    case _ => true
  }

  /** The continuation resumes after an await. */
  function Continue(c: Control, t: Task, outcome: Outcome): (Control, Stage, seq<Call>)
  {
    if !Current(c, t) then
      var late := t.stage.AwaitStart? && outcome.Resolved? && outcome.turn.Some?;
      (c, Done, if late then [InterruptTurn(t.s, outcome.turn.value)] else [])
    else if outcome.Rejected? then (Abort(c, t.s), Done, [])
    else
      match t.stage
      case AwaitResume => (c, AwaitAttachments, [])
      case AwaitAttachments => (c, AwaitStart, [StartTurn(t.s, t.generation)])
      case AwaitStart => (if outcome.turn.Some? then SetTurn(c, t.s, outcome.turn.value) else c, Done, [])
      case Done => (c, Done, [])
  }

  function Next(sys: System, step: Step): System
    requires Enabled(sys, step)
  {
    match step
    case Turn(s, request, known, read) =>
      if Admit(sys.c, s, request, known) != Accepted then sys
      else
        var c := Begin(sys.c, s, read);
        sys.(c := c, tasks := sys.tasks + [Task(s, c.GenerationOf(s), AwaitResume)])
    case Settle(k, outcome) =>
      var t := sys.tasks[k];
      var (c, stage, calls) := Continue(sys.c, t, outcome);
      System(c, sys.tasks[k := t.(stage := stage)], sys.calls + calls)
    case Cancel(s) => sys.(c := Interrupt(sys.c, s))
    case Event(m) => sys.(c := Broadcast(sys.c, m))
    case ReleaseIdle(s) => sys.(c := sys.c.(live := sys.c.live - {s}, gate := sys.c.gate - {s}))
  }

  // ---- Generations ----

  lemma BroadcastKeepsGenerations(c: Control, m: Message)
    ensures Broadcast(c, m).generations == c.generations && Broadcast(c, m).tombs == c.tombs
  {
  }

  lemma BeginBumps(c: Control, s: Sid, read: Option<Session>)
    ensures Begin(c, s, read).generations == c.generations[s := c.GenerationOf(s) + 1]
    ensures Begin(c, s, read).tombs == Without(c.tombs, s)
  {
  }

  lemma InterruptBumps(c: Control, s: Sid)
    ensures Interrupt(c, s).generations == c.generations[s := c.GenerationOf(s) + 1]
    ensures Interrupt(c, s).tombs == Entomb(c.tombs, s)
  {
  }

  lemma ContinueKeepsGenerations(c: Control, t: Task, outcome: Outcome)
    ensures Continue(c, t, outcome).0.generations == c.generations && Continue(c, t, outcome).0.tombs == c.tombs
  {
  }

  /** Tasks of one session have increasing generations, none beyond the session's. */
  ghost predicate Numbered(sys: System)
  {
    && (forall i :: 0 <= i < |sys.tasks| ==> sys.tasks[i].generation <= sys.c.GenerationOf(sys.tasks[i].s))
    && (forall i, j :: 0 <= i < j < |sys.tasks| && sys.tasks[i].s == sys.tasks[j].s ==>
      sys.tasks[i].generation < sys.tasks[j].generation)
  }

  /** What a step does to the generations and to the identity of the tasks. */
  lemma StepGenerations(sys: System, step: Step)
    requires Enabled(sys, step)
    ensures var sys' := Next(sys, step);
      && (forall s :: sys.c.GenerationOf(s) <= sys'.c.GenerationOf(s))
      && |sys.tasks| <= |sys'.tasks| <= |sys.tasks| + 1
      && (forall i :: 0 <= i < |sys.tasks| ==>
        sys'.tasks[i].s == sys.tasks[i].s && sys'.tasks[i].generation == sys.tasks[i].generation)
      && (|sys'.tasks| > |sys.tasks| ==>
        var t := sys'.tasks[|sys.tasks|];
        t.generation == sys'.c.GenerationOf(t.s) == sys.c.GenerationOf(t.s) + 1)
  {
    match step
    case Turn(s, _, _, read) =>
      hide Begin;
      BeginBumps(sys.c, s, read);
    case Settle(k, outcome) =>
      hide Continue;
      ContinueKeepsGenerations(sys.c, sys.tasks[k], outcome);
    case Cancel(s) =>
      hide Interrupt;
      InterruptBumps(sys.c, s);
    case Event(m) =>
      hide Broadcast;
      BroadcastKeepsGenerations(sys.c, m);
    case ReleaseIdle(s) =>
  }

  lemma StepKeepsNumbered(sys: System, step: Step)
    requires Numbered(sys) && Enabled(sys, step)
    ensures Numbered(Next(sys, step))
  {
    StepGenerations(sys, step);
    hide Next;
  }

  // ---- Whole runs ----

  ghost predicate Possible(sys: System, steps: seq<Step>)
    decreases |steps|
  {
    steps != [] ==> Enabled(sys, steps[0]) && Possible(Next(sys, steps[0]), steps[1..])
  }

  ghost function Run(sys: System, steps: seq<Step>): System
    requires Possible(sys, steps)
    decreases |steps|
  {
    if steps == [] then sys else Run(Next(sys, steps[0]), steps[1..])
  }

  ghost predicate Superseded(sys: System, k: nat)
  {
    k < |sys.tasks| && sys.tasks[k].generation < sys.c.GenerationOf(sys.tasks[k].s)
  }

  /** In every reachable state at most one continuation per session is current, and
      a superseded continuation stays superseded. */
  lemma {:induction false} EveryRunKeepsGenerations(sys: System, steps: seq<Step>, k: nat)
    requires Numbered(sys) && Possible(sys, steps)
    ensures Numbered(Run(sys, steps))
    ensures Superseded(sys, k) ==> Superseded(Run(sys, steps), k)
    ensures var sys' := Run(sys, steps);
      forall i, j :: 0 <= i < j < |sys'.tasks| && sys'.tasks[i].s == sys'.tasks[j].s ==>
        !(Current(sys'.c, sys'.tasks[i]) && Current(sys'.c, sys'.tasks[j]))
    decreases |steps|
  {
    if steps == [] {
    } else {
      StepKeepsNumbered(sys, steps[0]);
      StepGenerations(sys, steps[0]);
      EveryRunKeepsGenerations(Next(sys, steps[0]), steps[1..], k);
    }
  }

  function Starts(calls: seq<Call>): seq<Call>
  {
    if calls == [] then []
    else Starts(calls[..|calls| - 1]) + if calls[|calls| - 1].StartTurn? then [calls[|calls| - 1]] else []
  }

  lemma {:induction false} StartsConcat(a: seq<Call>, b: seq<Call>)
    ensures Starts(a + b) == Starts(a) + Starts(b)
  {
    if b == [] {
      assert a + b == a;
    } else {
      assert (a + b)[..|a + b| - 1] == a + b[..|b| - 1];
      StartsConcat(a, b[..|b| - 1]);
    }
  }

  /** Equal except for the progress of continuation `k` and late interrupts. */
  ghost predicate SameBut(a: System, b: System, k: nat)
  {
    && a.c == b.c && |a.tasks| == |b.tasks| && k < |a.tasks|
    && (forall i :: 0 <= i < |a.tasks| && i != k ==> a.tasks[i] == b.tasks[i])
    && a.tasks[k].s == b.tasks[k].s && a.tasks[k].generation == b.tasks[k].generation
    && Starts(a.calls) == Starts(b.calls)
  }

  lemma SupersededStep(a: System, b: System, k: nat, outcome: Outcome)
    requires SameBut(a, b, k) && Superseded(a, k) && Enabled(a, Settle(k, outcome))
    ensures SameBut(Next(a, Settle(k, outcome)), b, k)
  {
    var (_, _, calls) := Continue(a.c, a.tasks[k], outcome);
    assert Starts(calls) == [] by { assert |calls| == 1 ==> calls[..0] == []; }
    StartsConcat(a.calls, calls);
  }

  lemma OtherStep(a: System, b: System, k: nat, step: Step)
    requires SameBut(a, b, k) && Enabled(a, step) && !(step.Settle? && step.k == k)
    ensures Enabled(b, step) && SameBut(Next(a, step), Next(b, step), k)
  {
    hide Begin;
    hide Interrupt;
    hide Broadcast;
    if step.Settle? {
      assert a.tasks[step.k] == b.tasks[step.k];
      hide Continue;
      var (_, _, calls) := Continue(a.c, a.tasks[step.k], step.outcome);
      StartsConcat(a.calls, calls);
      StartsConcat(b.calls, calls);
    }
  }

  function Erased(steps: seq<Step>, k: nat): seq<Step>
  {
    if steps == [] then []
    else if steps[0].Settle? && steps[0].k == k then Erased(steps[1..], k)
    else [steps[0]] + Erased(steps[1..], k)
  }

  /** A superseded continuation never acts again: erasing all its steps from a run
      leaves the same sessions, gate, live set, tombstones, broadcasts, other
      continuations and started turns. */
  lemma {:induction false} SupersededNeverActs(a: System, b: System, steps: seq<Step>, k: nat)
    requires SameBut(a, b, k) && Superseded(a, k) && Possible(a, steps)
    ensures Possible(b, Erased(steps, k)) && SameBut(Run(a, steps), Run(b, Erased(steps, k)), k)
    decreases |steps|
  {
    if steps == [] {
    } else {
      var step, rest := steps[0], steps[1..];
      StepGenerations(a, step);
      hide Next;
      if step.Settle? && step.k == k {
        SupersededStep(a, b, k, step.outcome);
        SupersededNeverActs(Next(a, step), b, rest, k);
      } else {
        OtherStep(a, b, k, step);
        SupersededNeverActs(Next(a, step), Next(b, step), rest, k);
        assert ([step] + Erased(rest, k))[1..] == Erased(rest, k);
      }
    }
  }

  // ---- After an interrupt ----

  /** Interrupted: terminal, not live, entombed, all its continuations superseded. */
  ghost predicate Settled(sys: System, s: Sid)
  {
    && s in sys.c.tombs && |sys.c.tombs| <= TOMBSTONES && Distinct(sys.c.tombs)
    && s !in sys.c.live
    && s in sys.c.stored && !IsLive(sys.c.stored[s].status)
    && forall i :: 0 <= i < |sys.tasks| && sys.tasks[i].s == s ==> sys.tasks[i].generation < sys.c.GenerationOf(s)
  }

  /** How many tombstones are newer than that of `s`. */
  function Newer(tombs: seq<Sid>, s: Sid): nat
  {
    if tombs == [] then 0 else if tombs[0] == s then |tombs| - 1 else Newer(tombs[1..], s)
  }

  lemma {:induction false} NewerAppend(tombs: seq<Sid>, s: Sid, o: Sid)
    requires s in tombs
    ensures Newer(tombs + [o], s) == Newer(tombs, s) + 1
  {
    if tombs[0] != s {
      assert (tombs + [o])[1..] == tombs[1..] + [o];
      NewerAppend(tombs[1..], s, o);
    }
  }

  lemma {:induction false} NewerWithout(tombs: seq<Sid>, s: Sid, o: Sid)
    requires s in tombs && s != o
    ensures s in Without(tombs, o) && Newer(Without(tombs, o), s) <= Newer(tombs, s)
  {
    if tombs[0] != s { NewerWithout(tombs[1..], s, o); }
  }

  lemma {:induction false} NewerBound(tombs: seq<Sid>, s: Sid)
    requires s in tombs
    ensures Newer(tombs, s) < |tombs| && (Newer(tombs, s) == |tombs| - 1 <==> tombs[0] == s)
  {
    if tombs[0] == s {
    } else {
      NewerBound(tombs[1..], s);
    }
  }

  /** A tombstone outlives another interrupt if and only if that session already has
      one, or fewer than 9,999 are newer. */
  lemma EntombOther(tombs: seq<Sid>, s: Sid, o: Sid)
    requires s in tombs && s != o && |tombs| <= TOMBSTONES && Distinct(tombs)
    ensures s in Entomb(tombs, o) <==> o in tombs || Newer(tombs, s) + 1 < TOMBSTONES
    ensures s in Entomb(tombs, o) ==> Newer(Entomb(tombs, o), s) <= Newer(tombs, s) + 1
  {
    NewerBound(tombs, s);
    NewerAppend(tombs, s, o);
    var more := tombs + [o];
    if o !in tombs && |more| > TOMBSTONES {
      assert more[1..] == tombs[1..] + [o];
    }
  }

  lemma EntombKeepsSet(tombs: seq<Sid>, s: Sid)
    requires |tombs| <= TOMBSTONES && Distinct(tombs)
    ensures |Entomb(tombs, s)| <= TOMBSTONES && Distinct(Entomb(tombs, s))
  {
  }

  ghost predicate Reopens(sys: System, step: Step, s: Sid)
  {
    || (step.Turn? && step.s == s &&
        Admit(sys.c, s, step.request, step.known) == Accepted)
    || step == Event(ApprovalRequested(s))
  }

  function Crowding(step: Step, s: Sid): nat { if step.Cancel? && step.s != s then 1 else 0 }

  lemma RecordSettled(c: Control, m: Message, s: Sid)
    requires s in c.tombs && s !in c.live && s in c.stored && !IsLive(c.stored[s].status)
    requires m != ApprovalRequested(s)
    ensures var c' := Broadcast(c, m);
      s in c'.tombs && s !in c'.live && s in c'.stored && !IsLive(c'.stored[s].status)
  {
  }

  lemma TurnElsewhere(c: Control, o: Sid, read: Option<Session>, s: Sid)
    requires s != o && s in c.tombs && s !in c.live && s in c.stored && !IsLive(c.stored[s].status)
    ensures var c' := Begin(c, o, read);
      s in c'.tombs && s !in c'.live && s in c'.stored && !IsLive(c'.stored[s].status)
  {
  }

  lemma InterruptAnywhere(c: Control, o: Sid, s: Sid)
    requires s == o || (s !in c.live && s in c.stored && !IsLive(c.stored[s].status))
    ensures var c' := Interrupt(c, o);
      s !in c'.live && s in c'.stored && !IsLive(c'.stored[s].status)
  {
  }

  lemma ContinueSettled(c: Control, t: Task, outcome: Outcome, s: Sid)
    requires s in c.tombs && s !in c.live && s in c.stored && !IsLive(c.stored[s].status)
    requires t.s == s ==> !Current(c, t)
    ensures var c' := Continue(c, t, outcome).0;
      s in c'.tombs && s !in c'.live && s in c'.stored && !IsLive(c'.stored[s].status)
  {
    if Current(c, t) && outcome.Rejected? {
      var c1 := c.(live := c.live - {t.s}, gate := c.gate - {t.s}, stored := Update(c.stored, t.s, "failed", true));
      RecordSettled(c1, Finished(t.s, None), s);
    }
  }

  lemma StepKeepsSettled(sys: System, step: Step, s: Sid)
    requires Settled(sys, s) && Enabled(sys, step) && !Reopens(sys, step, s)
    requires Newer(sys.c.tombs, s) + Crowding(step, s) < TOMBSTONES
    ensures Settled(Next(sys, step), s)
    ensures Newer(Next(sys, step).c.tombs, s) <= Newer(sys.c.tombs, s) + Crowding(step, s)
  {
    StepGenerations(sys, step);
    match step
    case Turn(o, _, _, read) =>
      if Next(sys, step) != sys {
        BeginBumps(sys.c, o, read);
        TurnElsewhere(sys.c, o, read, s);
        NewerWithout(sys.c.tombs, s, o);
        WithoutDistinct(sys.c.tombs, o);
        hide Begin;
      }
    case Settle(k, outcome) =>
      ContinueKeepsGenerations(sys.c, sys.tasks[k], outcome);
      ContinueSettled(sys.c, sys.tasks[k], outcome, s);
      hide Continue;
    case Cancel(o) =>
      InterruptBumps(sys.c, o);
      InterruptAnywhere(sys.c, o, s);
      if o != s { EntombOther(sys.c.tombs, s, o); }
      EntombKeepsSet(sys.c.tombs, o);
      hide Interrupt;
    case Event(m) =>
      BroadcastKeepsGenerations(sys.c, m);
      RecordSettled(sys.c, m, s);
      hide Broadcast;
    case ReleaseIdle(o) =>
  }

  ghost predicate StaysClosed(sys: System, steps: seq<Step>, s: Sid)
    requires Possible(sys, steps)
    decreases |steps|
  {
    steps != [] ==> !Reopens(sys, steps[0], s) && StaysClosed(Next(sys, steps[0]), steps[1..], s)
  }

  function CrowdingAll(steps: seq<Step>, s: Sid): nat
  {
    if steps == [] then 0 else Crowding(steps[0], s) + CrowdingAll(steps[1..], s)
  }

  /** No Codex event, continuation, interrupt or turn elsewhere brings an interrupted
      session back, as long as fewer than 10,000 newer tombstones pile up. */
  lemma {:induction false} SettledStays(sys: System, steps: seq<Step>, s: Sid)
    requires Settled(sys, s) && Possible(sys, steps) && StaysClosed(sys, steps, s)
    requires Newer(sys.c.tombs, s) + CrowdingAll(steps, s) < TOMBSTONES
    ensures Settled(Run(sys, steps), s)
    decreases |steps|
  {
    if steps == [] {
    } else {
      StepKeepsSettled(sys, steps[0], s);
      SettledStays(Next(sys, steps[0]), steps[1..], s);
    }
  }

  lemma EntombedNow(tombs: seq<Sid>, s: Sid)
    requires |tombs| <= TOMBSTONES
    ensures s in Entomb(tombs, s) && |Entomb(tombs, s)| <= TOMBSTONES
    ensures s !in tombs ==> Newer(Entomb(tombs, s), s) == 0
  {
    if s !in tombs {
      var more := tombs + [s];
      assert more[|tombs|] == s;
      NewestIsLast(tombs, s);
      if |more| > TOMBSTONES {
        assert more[1..] == tombs[1..] + [s];
        NewestIsLast(tombs[1..], s);
      }
    }
  }

  lemma {:induction false} NewestIsLast(tombs: seq<Sid>, s: Sid)
    requires s !in tombs
    ensures Newer(tombs + [s], s) == 0
  {
    if tombs == [] {
    } else {
      assert (tombs + [s])[1..] == tombs[1..] + [s];
      NewestIsLast(tombs[1..], s);
    }
  }

  ghost predicate TombsOk(tombs: seq<Sid>) { |tombs| <= TOMBSTONES && Distinct(tombs) }

  lemma StepKeepsTombs(sys: System, step: Step)
    requires TombsOk(sys.c.tombs) && Enabled(sys, step)
    ensures TombsOk(Next(sys, step).c.tombs)
  {
    match step
    case Turn(s, _, _, read) =>
      BeginBumps(sys.c, s, read);
      WithoutDistinct(sys.c.tombs, s);
      hide Begin;
    case Settle(k, outcome) =>
      ContinueKeepsGenerations(sys.c, sys.tasks[k], outcome);
      hide Continue;
    case Cancel(s) =>
      InterruptBumps(sys.c, s);
      EntombKeepsSet(sys.c.tombs, s);
      hide Interrupt;
    case Event(m) =>
      BroadcastKeepsGenerations(sys.c, m);
      hide Broadcast;
    case ReleaseIdle(_) =>
  }

  lemma {:induction false} RunKeepsTombs(sys: System, steps: seq<Step>)
    requires TombsOk(sys.c.tombs) && Possible(sys, steps)
    ensures TombsOk(Run(sys, steps).c.tombs)
    decreases |steps|
  {
    if steps == [] {
    } else {
      StepKeepsTombs(sys, steps[0]);
      RunKeepsTombs(Next(sys, steps[0]), steps[1..]);
    }
  }

  ghost const Start := System(Control({}, map[], [], {}, map[], []), [], [])

  /** Every state a new process can reach numbers its continuations and holds each
      tombstone once, at most 10,000 of them. */
  lemma EveryReachableState(steps: seq<Step>)
    requires Possible(Start, steps)
    ensures Numbered(Run(Start, steps)) && TombsOk(Run(Start, steps).c.tombs)
  {
    EveryRunKeepsGenerations(Start, steps, 0);
    RunKeepsTombs(Start, steps);
  }

  /** From an interrupt until the next accepted turn the session is not live, and any
      further live status of it changes nothing. A session interrupted again keeps the
      place of its first tombstone, so its newer ones count. */
  lemma InterruptedUntilNextTurn(sys: System, s: Sid, steps: seq<Step>, status: string)
    requires TombsOk(sys.c.tombs) && Numbered(sys)
    requires var sys1 := Next(sys, Cancel(s)); Possible(sys1, steps) && StaysClosed(sys1, steps, s)
    requires Newer(Entomb(sys.c.tombs, s), s) + CrowdingAll(steps, s) < TOMBSTONES
    ensures var end := Run(Next(sys, Cancel(s)), steps);
      Settled(end, s) && (IsLive(status) ==> Next(end, Event(StatusOf(s, Some(status)))) == end)
  {
    EntombedNow(sys.c.tombs, s);
    EntombKeepsSet(sys.c.tombs, s);
    InterruptBumps(sys.c, s);
    InterruptAnywhere(sys.c, s, s);
    SettledStays(Next(sys, Cancel(s)), steps, s);
  }

  /** The limit is exact: one more interrupt of a session without a tombstone lets a
      stale live status through if and only if 9,999 tombstones are already newer. */
  lemma CrowdedOutIff(sys: System, s: Sid, o: Sid, status: string)
    requires Settled(sys, s) && o != s && o !in sys.c.tombs && IsLive(status)
    ensures s in Next(Next(sys, Cancel(o)), Event(StatusOf(s, Some(status)))).c.live <==>
      Newer(sys.c.tombs, s) == TOMBSTONES - 1
  {
    EntombOther(sys.c.tombs, s, o);
    NewerBound(sys.c.tombs, s);
    InterruptBumps(sys.c, o);
    InterruptAnywhere(sys.c, o, s);
    hide Interrupt;
  }

  /** The finished messages of an interrupt and of a failed start carry their status
      outside `turn`, so the stored status ends as "completed" in both cases. */
  lemma StoredAsCompleted(c: Control, s: Sid)
    ensures s in Interrupt(c, s).stored && Interrupt(c, s).stored[s].status == "completed"
    ensures s in c.stored ==> Abort(c, s).stored[s].status == "completed"
  {
  }

  /** An accepted turn clears the stored turn id, but its own status message carries
      the session as it was read, so the previous turn id comes back. */
  lemma AcceptedTurnKeepsOldId(c: Control, s: Sid, read: Session)
    requires s in c.stored && c.stored[s] == read
    ensures Begin(c, s, Some(read)).stored[s] == Session("running", read.turn)
    ensures s in Begin(c, s, Some(read)).live && s in Begin(c, s, Some(read)).gate
  {
    assert s !in Without(c.tombs, s);
  }

  // ---- The gate ----

  /** The steps that end a turn: a finished event, a terminal status, an interrupt,
      a failed start of the current continuation, or the idle release. */
  ghost predicate Releases(sys: System, step: Step, s: Sid)
  {
    match step
    case Turn(_, _, _, _) => false
    case Settle(k, outcome) =>
      outcome.Rejected? && k < |sys.tasks| && sys.tasks[k].s == s && Current(sys.c, sys.tasks[k])
    case Cancel(o) => o == s
    case Event(m) => m.s == s && Ends(m)
    case ReleaseIdle(o) => o == s
  }

  ghost predicate Ends(m: Message)
  {
    match m
    case Carrying(_, status, _) => !IsLive(status)
    case Finished(_, _) => true
    case StatusOf(_, status) => status.Some? && status.value != "" && !IsLive(status.value)
    case ApprovalRequested(_) => false
    case Other(_) => false
  }

  lemma BroadcastGate(c: Control, m: Message)
    ensures Broadcast(c, m).gate == if Ends(m) then c.gate - {m.s} else c.gate
  {
  }

  /** A held gate is given up by exactly the steps that end a turn. */
  lemma GateHeldIff(sys: System, step: Step, s: Sid)
    requires Enabled(sys, step) && s in sys.c.gate
    ensures s in Next(sys, step).c.gate <==> !Releases(sys, step, s)
  {
    match step
    case Event(m) =>
      BroadcastGate(sys.c, m);
      hide Broadcast;
    case _ =>
  }

  ghost predicate NeverReleased(sys: System, steps: seq<Step>, s: Sid)
    requires Possible(sys, steps)
    decreases |steps|
  {
    steps != [] ==> !Releases(sys, steps[0], s) && NeverReleased(Next(sys, steps[0]), steps[1..], s)
  }

  lemma {:induction false} GateStaysHeld(sys: System, steps: seq<Step>, s: Sid)
    requires s in sys.c.gate && Possible(sys, steps) && NeverReleased(sys, steps, s)
    ensures s in Run(sys, steps).c.gate
    decreases |steps|
  {
    if steps == [] {
    } else {
      GateHeldIff(sys, steps[0], s);
      GateStaysHeld(Next(sys, steps[0]), steps[1..], s);
    }
  }

  /** From an accepted turn until a step that ends it, the session accepts no second
      one, whatever else happens. */
  lemma OneTurnAtATime(sys: System, turn: Step, steps: seq<Step>, request: Option<string>, known: Option<string>)
    requires turn.Turn? && Enabled(sys, turn) && Admit(sys.c, turn.s, turn.request, turn.known) == Accepted
    requires Possible(Next(sys, turn), steps) && NeverReleased(Next(sys, turn), steps, turn.s)
    ensures turn.s in Next(sys, turn).c.live
    ensures Admit(Run(Next(sys, turn), steps).c, turn.s, request, known) != Accepted
  {
    assert turn.s !in Without(sys.c.tombs, turn.s);
    assert turn.s in Next(sys, turn).c.gate;
    GateStaysHeld(Next(sys, turn), steps, turn.s);
  }

  // ---- The mutable objects ----

  class TurnGate {
    var activeSessions: set<Sid>

    constructor ()
      ensures activeSessions == {}
    {
      activeSessions := {};
    }

    method Acquire(s: Sid, request: Option<string>, known: Option<string>) returns (r: Admission)
      modifies this
      ensures r.Duplicate? <==> request.Some? && request.value != "" && request == known
      ensures r.Accepted? ==> s !in old(activeSessions) && activeSessions == old(activeSessions) + {s}
      ensures !r.Accepted? ==> activeSessions == old(activeSessions)
      ensures r.Busy? ==> s in old(activeSessions)
    {
      if request.Some? && request.value != "" && request == known { return Duplicate; }
      if s in activeSessions { return Busy; }
      activeSessions := activeSessions + {s};
      return Accepted;
    }

    method Release(s: Sid)
      modifies this
      ensures activeSessions == old(activeSessions) - {s}
    {
      activeSessions := activeSessions - {s};
    }
  }

  class SessionRunState {
    var generations: map<Sid, Generation>

    function Of(s: Sid): Generation reads this { if s in generations then generations[s] else 0 }

    constructor ()
      ensures generations == map[]
    {
      generations := map[];
    }

    method BeginRun(s: Sid) returns (g: Generation)
      modifies this
      ensures g == old(Of(s)) + 1 && generations == old(generations)[s := g]
    {
      g := (if s in generations then generations[s] else 0) + 1;
      generations := generations[s := g];
    }

    predicate IsCurrent(s: Sid, g: Generation)
      reads this
    {
      s in generations && generations[s] == g
    }
  }

  /** The module state of index.ts around the two objects. */
  class Gateway {
    const gate: TurnGate
    const runs: SessionRunState
    var cancelled: seq<Sid>
    var live: set<Sid>
    var stored: map<Sid, Session>
    var sent: seq<Message>

    ghost function View(): Control
      reads this, gate, runs
    {
      Control(gate.activeSessions, runs.generations, cancelled, live, stored, sent)
    }

    constructor ()
      ensures fresh(gate) && fresh(runs)
      ensures View() == Control({}, map[], [], {}, map[], [])
    {
      gate := new TurnGate();
      runs := new SessionRunState();
      cancelled, live, stored, sent := [], {}, map[], [];
    }

    method BroadcastGateway(m: Message)
      modifies this, gate
      ensures View() == Broadcast(old(View()), m)
    {
      match m {
        case Carrying(s, status, turn) =>
          if s in cancelled && IsLive(status) { return; }
          if IsLive(status) {
            live := live + {s};
          } else {
            live := live - {s};
            gate.Release(s);
          }
          stored := Upsert(stored, s, status, turn);
        case Finished(s, turnStatus) =>
          live := live - {s};
          gate.Release(s);
          stored := Update(stored, s, InferFinishedStatus(turnStatus), true);
        case StatusOf(s, status) =>
          if status.Some? && status.value != "" {
            if s in cancelled && IsLive(status.value) { return; }
            if IsLive(status.value) {
              live := live + {s};
            } else {
              live := live - {s};
              gate.Release(s);
            }
            stored := Update(stored, s, status.value, false);
          }
        case ApprovalRequested(s) =>
          stored := Update(stored, s, "waiting-approval", false);
        case Other(s) =>
      }
      sent := sent + [m];
    }

    /** The continuation of an accepted turn after one of its awaits. */
    method ContinueTurn(t: Task, outcome: Outcome) returns (stage: Stage, calls: seq<Call>)
      requires t.generation > 0
      modifies this, gate
      ensures (View(), stage, calls) == Continue(old(View()), t, outcome)
    {
      hide Broadcast;
      stage, calls := Done, [];
      if !runs.IsCurrent(t.s, t.generation) {
        if t.stage.AwaitStart? && outcome.Resolved? && outcome.turn.Some? {
          calls := [InterruptTurn(t.s, outcome.turn.value)];
        }
        return;
      }
      if outcome.Rejected? {
        live := live - {t.s};
        gate.Release(t.s);
        stored := Update(stored, t.s, "failed", true);
        BroadcastGateway(Finished(t.s, None));
        return;
      }
      match t.stage {
        case AwaitResume =>
          stage := AwaitAttachments;
        case AwaitAttachments =>
          stage, calls := AwaitStart, [StartTurn(t.s, t.generation)];
        case AwaitStart =>
          if outcome.turn.Some? && t.s in stored {
            stored := stored[t.s := stored[t.s].(turn := outcome.turn)];
          }
        case Done =>
      }
    }

    method SettleInterruptedSession(s: Sid)
      modifies this, gate, runs
      ensures View() == Interrupt(old(View()), s)
    {
      hide Broadcast;
      var _ := runs.BeginRun(s);
      if s !in cancelled { cancelled := cancelled + [s]; }
      if |cancelled| > TOMBSTONES { cancelled := cancelled[1..]; }
      live := live - {s};
      gate.Release(s);
      stored := Upsert(stored, s, "cancelled", Some(None));
      BroadcastGateway(Finished(s, None));
    }

    /** The synchronous part of POST /sessions/:id/turns. */
    method AcceptTurn(s: Sid, request: Option<string>, known: Option<string>) returns (r: Admission, g: Generation)
      modifies this, gate, runs
      ensures r == Admit(old(View()), s, request, known)
      ensures r.Accepted? ==> View() == Begin(old(View()), s, if s in old(stored) then Some(old(stored)[s]) else None)
      ensures r.Accepted? ==> g == View().GenerationOf(s)
      ensures !r.Accepted? ==> View() == old(View())
    {
      hide Broadcast;
      var read := if s in stored then Some(stored[s]) else None;
      g := 0;
      r := gate.Acquire(s, request, known);
      if !r.Accepted? { return; }
      cancelled := Without(cancelled, s);
      g := runs.BeginRun(s);
      live := live + {s};
      stored := Upsert(stored, s, "running", Some(None));
      BroadcastGateway(Other(s));
      BroadcastGateway(Carrying(s, "running", if read.Some? then Some(read.value.turn) else None));
      BeginBumps(old(View()), s, read);
    }
  }
}
