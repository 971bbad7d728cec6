/** What an accepted turn does while it stays current (index.ts): it is started exactly
    once, after its attachments, and the turn id it gets is stored; and what each
    message of the gateway records. */
module TurnStart {
  import opened OrderedMaps
  import opened TurnControl

  // ---- Counting starts ----

  function StartsOf(calls: seq<Call>, s: Sid, g: Generation): nat
  {
    if calls == [] then 0
    else StartsOf(calls[..|calls| - 1], s, g) + if calls[|calls| - 1] == StartTurn(s, g) then 1 else 0
  }

  lemma {:induction false} StartsOfConcat(a: seq<Call>, b: seq<Call>, s: Sid, g: Generation)
    ensures StartsOf(a + b, s, g) == StartsOf(a, s, g) + StartsOf(b, s, g)
  {
    if b == [] {
      assert a + b == a;
    } else {
      assert (a + b)[..|a + b| - 1] == a + b[..|b| - 1];
      StartsOfConcat(a, b[..|b| - 1], s, g);
    }
  }

  /** Generations that were not given out yet have no start. */
  ghost predicate FutureUnstarted(sys: System)
  {
    forall s, g :: g > sys.c.GenerationOf(s) ==> StartsOf(sys.calls, s, g) == 0
  }

  /** The calls a settled await makes are of its own continuation. */
  lemma CallsOfStep(c: Control, t: Task, outcome: Outcome, s: Sid, g: Generation)
    ensures StartsOf(Continue(c, t, outcome).2, s, g) ==
      if t.s == s && t.generation == g && Current(c, t) && t.stage.AwaitAttachments? && outcome.Resolved? then 1 else 0
  {
    var calls := Continue(c, t, outcome).2;
    assert |calls| <= 1;
    if |calls| == 1 { assert calls[..0] == []; }
  }

  lemma StepStarts(sys: System, step: Step, s: Sid, g: Generation)
    requires Enabled(sys, step)
    ensures StartsOf(Next(sys, step).calls, s, g) == StartsOf(sys.calls, s, g) +
      if step.Settle? && sys.tasks[step.k].s == s && sys.tasks[step.k].generation == g &&
         Current(sys.c, sys.tasks[step.k]) && sys.tasks[step.k].stage.AwaitAttachments? && step.outcome.Resolved?
      then 1 else 0
  {
    if step.Settle? {
      CallsOfStep(sys.c, sys.tasks[step.k], step.outcome, s, g);
      StartsOfConcat(sys.calls, Continue(sys.c, sys.tasks[step.k], step.outcome).2, s, g);
      hide Continue;
    }
  }

  lemma StepKeepsFuture(sys: System, step: Step)
    requires Enabled(sys, step) && Numbered(sys) && FutureUnstarted(sys)
    ensures FutureUnstarted(Next(sys, step))
  {
    StepGenerations(sys, step);
    var sys' := Next(sys, step);
    forall s, g | g > sys'.c.GenerationOf(s) ensures StartsOf(sys'.calls, s, g) == 0 {
      StepStarts(sys, step, s, g);
    }
  }

  lemma {:induction false} RunKeepsFuture(sys: System, steps: seq<Step>)
    requires Numbered(sys) && FutureUnstarted(sys) && Possible(sys, steps)
    ensures FutureUnstarted(Run(sys, steps)) && Numbered(Run(sys, steps))
    decreases |steps|
  {
    if steps == [] {
    } else {
      StepKeepsFuture(sys, steps[0]);
      StepKeepsNumbered(sys, steps[0]);
      hide Next;
      RunKeepsFuture(Next(sys, steps[0]), steps[1..]);
    }
  }

  // ---- The awaits of one continuation ----

  /** The outcomes of continuation `k`'s awaits, in order. */
  function OutcomesOf(steps: seq<Step>, k: nat): seq<Outcome>
  {
    if steps == [] then []
    else OutcomeOf(steps[0], k) + OutcomesOf(steps[1..], k)
  }

  ghost predicate AllResolved(outcomes: seq<Outcome>)
  {
    forall i :: 0 <= i < |outcomes| ==> outcomes[i].Resolved?
  }

  /** Where a continuation that stays current is after these outcomes. */
  ghost function StageAfter(outcomes: seq<Outcome>): Stage
  {
    if !AllResolved(outcomes) || |outcomes| >= 3 then Done
    else if |outcomes| == 2 then AwaitStart
    else if |outcomes| == 1 then AwaitAttachments
    else AwaitResume
  }

  /** It has started its turn once, if thread and attachments were ready. */
  ghost function StartsAfter(outcomes: seq<Outcome>): nat
  {
    if |outcomes| >= 2 && AllResolved(outcomes[..2]) then 1 else 0
  }

  lemma OneMoreOutcome(outcomes: seq<Outcome>, o: Outcome)
    requires !StageAfter(outcomes).Done?
    ensures StageAfter(outcomes + [o]) ==
      if o.Rejected? then Done
      else match StageAfter(outcomes)
           case AwaitResume => AwaitAttachments
           case AwaitAttachments => AwaitStart
           case _ => Done
    ensures StartsAfter(outcomes + [o]) ==
      StartsAfter(outcomes) + if StageAfter(outcomes).AwaitAttachments? && o.Resolved? then 1 else 0
  {
    var more := outcomes + [o];
    assert more[|outcomes|] == o;
    assert forall i :: 0 <= i < |outcomes| ==> more[i] == outcomes[i];
    assert AllResolved(more) <==> o.Resolved?;
    if |outcomes| >= 1 {
      assert |more| >= 2;
      assert more[..2] == if |outcomes| >= 2 then outcomes[..2] else outcomes + [o];
    }
  }

  /** Other steps leave the stage of a current continuation alone. */
  lemma StageStep(sys: System, step: Step, k: nat)
    requires Enabled(sys, step) && k < |sys.tasks| && Current(sys.c, sys.tasks[k])
    ensures k < |Next(sys, step).tasks|
    ensures Next(sys, step).tasks[k].stage ==
      if !(step.Settle? && step.k == k) then sys.tasks[k].stage
      else if step.outcome.Rejected? then Done
      else match sys.tasks[k].stage
           case AwaitResume => AwaitAttachments
           case AwaitAttachments => AwaitStart
           case _ => Done
  {
    hide Abort;
    hide SetTurn;
    hide Begin;
    hide Interrupt;
    hide Broadcast;
  }

  /** Continuation `k` has got exactly as far as these outcomes take it. */
  ghost predicate At(sys: System, k: nat, outcomes: seq<Outcome>)
  {
    k < |sys.tasks| && sys.tasks[k].stage == StageAfter(outcomes) &&
    StartsOf(sys.calls, sys.tasks[k].s, sys.tasks[k].generation) == StartsAfter(outcomes)
  }

  function OutcomeOf(step: Step, k: nat): seq<Outcome>
  {
    if step.Settle? && step.k == k then [step.outcome] else []
  }

  lemma FollowStep(sys: System, step: Step, k: nat, outcomes: seq<Outcome>)
    requires Numbered(sys) && Enabled(sys, step) && At(sys, k, outcomes) && Current(sys.c, sys.tasks[k])
    ensures At(Next(sys, step), k, outcomes + OutcomeOf(step, k))
  {
    StepGenerations(sys, step);
    StageStep(sys, step, k);
    StepStarts(sys, step, sys.tasks[k].s, sys.tasks[k].generation);
    hide Next;
    hide StartsAfter;
    hide StageAfter;
    hide StartsOf;
    if step.Settle? && step.k == k {
      OneMoreOutcome(outcomes, step.outcome);
    } else {
      if step.Settle? { SameSessionOtherGeneration(sys, k, step.k); }
      assert outcomes + [] == outcomes;
    }
  }

  lemma {:induction false} ContinuationFollows(sys: System, steps: seq<Step>, k: nat, before: seq<Outcome>)
    requires Numbered(sys) && Possible(sys, steps) && k < |sys.tasks| && At(sys, k, before)
    requires k < |Run(sys, steps).tasks| && Current(Run(sys, steps).c, Run(sys, steps).tasks[k])
    ensures At(Run(sys, steps), k, before + OutcomesOf(steps, k))
    ensures Run(sys, steps).tasks[k].s == sys.tasks[k].s &&
      Run(sys, steps).tasks[k].generation == sys.tasks[k].generation
    decreases |steps|
  {
    hide Next;
    hide At;
    hide Numbered;
    hide OutcomesOf;
    hide Enabled;
    hide Current;
    OutcomesJoin(before, steps, k);
    if steps == [] {
    } else {
      var step, rest := steps[0], steps[1..];
      CurrentNow(sys, steps, k);
      TaskKept(sys, step, k);
      StepKeepsNumbered(sys, step);
      FollowStep(sys, step, k, before);
      ContinuationFollows(Next(sys, step), rest, k, before + OutcomeOf(step, k));
    }
  }

  lemma OutcomesJoin(before: seq<Outcome>, steps: seq<Step>, k: nat)
    ensures steps == [] ==> before + OutcomesOf(steps, k) == before
    ensures steps != [] ==>
      before + OutcomeOf(steps[0], k) + OutcomesOf(steps[1..], k) == before + OutcomesOf(steps, k)
  {
  }

  lemma TaskKept(sys: System, step: Step, k: nat)
    requires Enabled(sys, step) && k < |sys.tasks|
    ensures k < |Next(sys, step).tasks|
    ensures Next(sys, step).tasks[k].s == sys.tasks[k].s &&
      Next(sys, step).tasks[k].generation == sys.tasks[k].generation
  {
    StepGenerations(sys, step);
    hide Next;
  }

  lemma SameSessionOtherGeneration(sys: System, i: nat, j: nat)
    requires Numbered(sys) && i < |sys.tasks| && j < |sys.tasks| && i != j
    ensures !(sys.tasks[i].s == sys.tasks[j].s && sys.tasks[i].generation == sys.tasks[j].generation)
  {
  }

  /** A continuation that is current at the end was current before. */
  lemma CurrentNow(sys: System, steps: seq<Step>, k: nat)
    requires Numbered(sys) && Possible(sys, steps) && k < |sys.tasks|
    requires k < |Run(sys, steps).tasks| && Current(Run(sys, steps).c, Run(sys, steps).tasks[k])
    ensures Current(sys.c, sys.tasks[k])
  {
    EveryRunKeepsGenerations(sys, steps, k);
  }

  lemma {:induction false} StoredStays(sys: System, steps: seq<Step>, s: Sid)
    requires Possible(sys, steps) && s in sys.c.stored
    ensures s in Run(sys, steps).c.stored
    decreases |steps|
  {
    if steps == [] {
    } else {
      StepKeepsStored(sys, steps[0], s);
      hide Next;
      StoredStays(Next(sys, steps[0]), steps[1..], s);
    }
  }

  lemma StepKeepsStored(sys: System, step: Step, s: Sid)
    requires Enabled(sys, step) && s in sys.c.stored
    ensures s in Next(sys, step).c.stored
  {
  }

  /** An accepted turn that stays current, with any other steps in between: it starts
      exactly one Codex turn, after its thread and its attachments are ready and never
      before or after a rejection, and the id the start returns is the stored one. */
  lemma AcceptedTurnIsStarted(sys: System, turn: Step, steps: seq<Step>, id: string)
    requires Numbered(sys) && FutureUnstarted(sys)
    requires turn.Turn? && Enabled(sys, turn) && Admit(sys.c, turn.s, turn.request, turn.known) == Accepted
    requires Possible(Next(sys, turn), steps)
    requires var k, end := |sys.tasks|, Run(Next(sys, turn), steps);
      k < |end.tasks| && Current(end.c, end.tasks[k])
    ensures var k, end, outcomes := |sys.tasks|, Run(Next(sys, turn), steps), OutcomesOf(steps, |sys.tasks|);
      var t := end.tasks[k];
      && t.s == turn.s && t.stage == StageAfter(outcomes)
      && StartsOf(end.calls, t.s, t.generation) == StartsAfter(outcomes)
      && (t.stage.AwaitStart? ==>
        turn.s in Next(end, Settle(k, Resolved(Some(id)))).c.stored &&
        Next(end, Settle(k, Resolved(Some(id)))).c.stored[turn.s].turn == Some(id))
  {
    var sys1, k := Next(sys, turn), |sys.tasks|;
    StepGenerations(sys, turn);
    StepKeepsNumbered(sys, turn);
    FreshTask(sys, turn);
    hide Begin;
    hide Next;
    assert [] + OutcomesOf(steps, k) == OutcomesOf(steps, k);
    ContinuationFollows(sys1, steps, k, []);
    StoredStays(sys1, steps, turn.s);
    var end := Run(sys1, steps);
    if end.tasks[k].stage.AwaitStart? { StartStoresTurn(end, k, id); }
  }

  lemma FreshTask(sys: System, turn: Step)
    requires Numbered(sys) && FutureUnstarted(sys)
    requires turn.Turn? && Enabled(sys, turn) && Admit(sys.c, turn.s, turn.request, turn.known) == Accepted
    ensures var sys1, k := Next(sys, turn), |sys.tasks|;
      && k < |sys1.tasks| && sys1.tasks[k].s == turn.s && sys1.tasks[k].stage.AwaitResume? && turn.s in sys1.c.stored
      && StartsOf(sys1.calls, turn.s, sys1.tasks[k].generation) == 0
  {
    BeginBumps(sys.c, turn.s, turn.read);
    assert turn.s in Begin(sys.c, turn.s, turn.read).stored;
    hide Begin;
  }

  lemma StartStoresTurn(sys: System, k: nat, id: string)
    requires k < |sys.tasks| && sys.tasks[k].stage.AwaitStart? && Current(sys.c, sys.tasks[k])
    requires sys.tasks[k].s in sys.c.stored
    ensures var sys', s := Next(sys, Settle(k, Resolved(Some(id)))), sys.tasks[k].s;
      && s in sys'.c.stored && sys'.c.stored[s] == sys.c.stored[s].(turn := Some(id))
      && (forall o :: o != s && o in sys.c.stored ==> o in sys'.c.stored && sys'.c.stored[o] == sys.c.stored[o])
      && sys'.c.gate == sys.c.gate && sys'.c.live == sys.c.live && sys'.c.sent == sys.c.sent
  {
  }

  lemma StartIsUnstarted()
    ensures Numbered(Start) && FutureUnstarted(Start)
  {
  }

  /** The same for every turn a new process accepts. */
  lemma EveryAcceptedTurnIsStarted(before: seq<Step>, turn: Step, steps: seq<Step>, id: string)
    requires Possible(Start, before) && turn.Turn? && Enabled(Run(Start, before), turn)
    requires Admit(Run(Start, before).c, turn.s, turn.request, turn.known) == Accepted
    requires Possible(Next(Run(Start, before), turn), steps)
    requires var k, end := |Run(Start, before).tasks|, Run(Next(Run(Start, before), turn), steps);
      k < |end.tasks| && Current(end.c, end.tasks[k])
    ensures var k, end := |Run(Start, before).tasks|, Run(Next(Run(Start, before), turn), steps);
      && end.tasks[k].stage == StageAfter(OutcomesOf(steps, k))
      && StartsOf(end.calls, turn.s, end.tasks[k].generation) == StartsAfter(OutcomesOf(steps, k))
      && (end.tasks[k].stage.AwaitStart? ==>
        turn.s in Next(end, Settle(k, Resolved(Some(id)))).c.stored &&
        Next(end, Settle(k, Resolved(Some(id)))).c.stored[turn.s].turn == Some(id))
  {
    StartIsUnstarted();
    RunKeepsFuture(Start, before);
    AcceptedTurnIsStarted(Run(Start, before), turn, steps, id);
  }

  // ---- What a message records ----

  /** A message that is not stale is sent on; a status it carries is stored and decides
      the live set; a finished turn and a requested approval are recorded as such. */
  lemma MessageIsRecorded(c: Control, m: Message)
    requires !Ignored(c, m)
    ensures var c' := Broadcast(c, m);
      && c'.sent == c.sent + [m]
      && (m.Carrying? ==>
        m.s in c'.stored && c'.stored[m.s].status == m.carried && (m.s in c'.live <==> IsLive(m.carried)))
      && (m.Carrying? && m.turn.Some? ==> c'.stored[m.s].turn == m.turn.value)
      && (m.StatusOf? && m.status.Some? && m.status.value != "" ==>
        (m.s in c'.live <==> IsLive(m.status.value)) && (m.s in c.stored ==> c'.stored[m.s].status == m.status.value))
      && (m.Finished? ==> m.s !in c'.live && (m.s in c.stored ==>
        c'.stored[m.s] == Session(InferFinishedStatus(m.turnStatus), None)))
      && (m.ApprovalRequested? && m.s in c.stored ==> c'.stored[m.s].status == "waiting-approval")
      && (forall o :: o != m.s ==> (o in c'.stored <==> o in c.stored) && (o in c'.live <==> o in c.live))
      && (forall o :: o != m.s && o in c.stored ==> c'.stored[o] == c.stored[o])
  {
  }

  /** What the routes tell the browsers. */
  lemma RoutesAnnounce(c: Control, s: Sid, read: Option<Session>)
    ensures Begin(c, s, read).sent ==
      c.sent + [Other(s)] + [Carrying(s, "running", if read.Some? then Some(read.value.turn) else None)]
    ensures Interrupt(c, s).sent == c.sent + [Finished(s, None)]
    ensures Abort(c, s).sent == c.sent + [Finished(s, None)]
    ensures s !in Abort(c, s).live && s !in Abort(c, s).gate
  {
    assert s !in Without(c.tombs, s);
  }

  /** A start that returns too late is interrupted in Codex and changes nothing here. */
  lemma LateTurnIsInterrupted(sys: System, k: nat, id: string)
    requires k < |sys.tasks| && sys.tasks[k].stage.AwaitStart? && !Current(sys.c, sys.tasks[k])
    ensures var sys' := Next(sys, Settle(k, Resolved(Some(id))));
      sys'.c == sys.c && sys'.calls == sys.calls + [InterruptTurn(sys.tasks[k].s, id)] && sys'.tasks[k].stage.Done?
  {
  }
}
