/** Approval requests of the Codex app-server (codexBridge.ts): a bounded policy
    memory decides between asking and accepting, and a pending table settles what
    was asked. Code between two awaits is one step. */
module Approvals {
  import opened OrderedMaps

  type Rid = string
  type Thread = string // "" stands for a missing id, as it is tested for truth
  type Turn = string

  const MAX_POLICIES: nat := 10_000
  const MAX_PENDING: nat := 256

  datatype Mode = Confirm | FullAccess

  datatype Method = CommandExecution | FileChange | ExecCommand | ApplyPatch | UserInput | OtherMethod

  predicate IsApprovalRequest(m: Method) { !m.OtherMethod? }

  datatype Decision = Approve(amendment: seq<string>) | Deny

  datatype Result = Accept | ForSession | Amended(rules: seq<string>) | Cancel | Answers(given: bool) | Null

  predicate Positive(r: Result) { r.Accept? || r.ForSession? || r.Amended? || (r.Answers? && r.given) }

  function ApprovalResult(m: Method, d: Decision): (r: Result)
    ensures Positive(r) <==> d.Approve?
  {
    if m.UserInput? then Answers(d.Approve?)
    else if d.Approve? && d.amendment != [] then Amended(d.amendment)
    else if m.ExecCommand? || m.ApplyPatch? then if d.Approve? then ForSession else Cancel
    else if d.Approve? then Accept else Cancel
  }

  function AutomaticResult(m: Method): (r: Result)
    ensures Positive(r) <==> IsApprovalRequest(m)
  {
    match m
    case CommandExecution => Accept
    case FileChange => Accept
    case ExecCommand => ForSession
    case ApplyPatch => ForSession
    case UserInput => Answers(true)
    case OtherMethod => Null
  }

  // ---- The policy memory ----

  type Policies = OrderedMap<Thread, Mode>

  function Remember(p: Policies, t: Thread, m: Mode): Policies { p.Touch(t, m).Trim(MAX_POLICIES) }

  function ModeOf(p: Policies, t: Thread): Mode
  {
    if t != "" && t in p.vals then p.vals[t] else Confirm
  }

  function Threads(history: seq<(Thread, Mode)>): (r: seq<Thread>)
    ensures |r| == |history| && forall i :: 0 <= i < |r| ==> r[i] == history[i].0
  {
    if history == [] then [] else Threads(history[..|history| - 1]) + [history[|history| - 1].0]
  }

  /** The last mode remembered for a thread, however long ago. */
  function Latest(history: seq<(Thread, Mode)>, t: Thread): Option<Mode>
  {
    if history == [] then None
    else if history[|history| - 1].0 == t then Some(history[|history| - 1].1)
    else Latest(history[..|history| - 1], t)
  }

  ghost predicate Remembers(p: Policies, history: seq<(Thread, Mode)>)
  {
    && p.Valid()
    && p.keys == LruKeys(Threads(history), MAX_POLICIES)
    && forall t :: t in p.vals ==> Latest(history, t) == Some(p.vals[t])
  }

  lemma RememberKeeps(p: Policies, history: seq<(Thread, Mode)>, t: Thread, m: Mode)
    requires Remembers(p, history)
    ensures Remembers(Remember(p, t, m), history + [(t, m)])
  {
    var more := history + [(t, m)];
    assert more[..|history|] == history;
    assert Threads(more)[..|history|] == Threads(history);
    TouchMovesToEnd(p, t, m);
    var touched := p.Touch(t, m);
    TrimKeepsNewest(touched, MAX_POLICIES);
  }

  lemma {:induction false} LatestIffRemembered(history: seq<(Thread, Mode)>, t: Thread)
    ensures Latest(history, t).Some? <==> t in Threads(history)
  {
    if history == [] {
    } else {
      LatestIffRemembered(history[..|history| - 1], t);
      assert Threads(history)[|history| - 1] == history[|history| - 1].0;
    }
  }

  /** The memory answers full access exactly when that is the thread's latest policy
      and fewer than 10,000 other threads were used since; anything evicted or never
      seen falls back to confirm. */
  lemma FullAccessExactly(p: Policies, history: seq<(Thread, Mode)>, t: Thread)
    requires Remembers(p, history) && t != ""
    ensures ModeOf(p, t) == FullAccess <==>
      Latest(history, t) == Some(FullAccess) && |Since(Threads(history), t)| < MAX_POLICIES
  {
    LatestIffRemembered(history, t);
    if t in Threads(history) {
      EvictedExactlyWhenCrowdedOut(Threads(history), t, MAX_POLICIES);
    }
  }

  // ---- Requests ----

  datatype Settlement = Decided(d: Decision, thread: Thread, turn: Turn) | Expired | Rejected

  datatype Stage =
    | Arrived                              // audit of the request
    | Asked                                // audit of the approval
    | Waiting                              // promise in the pending table
    | Answered(result: Result, automatic: bool)

  /** `settled` lists the calls of the promise's resolve; `full` says whether the mode
      was chosen with full access as the thread's policy (FullNow). */
  datatype Request = Request(
    id: Rid, m: Method, thread: Thread, turn: Turn, stage: Stage,
    armed: bool, settled: seq<Settlement>, full: bool)

  datatype Bridge = Bridge(
    policies: Policies, history: seq<(Thread, Mode)>,
    pending: map<Rid, nat>, requests: seq<Request>)

  datatype Step =
    | Policy(t: Thread, mode: Mode)
    | Arrive(id: Rid, m: Method, thread: Thread, turn: Turn)
    | Choose(k: nat)
    | Post(k: nat)
    | Resolve(id: Rid, d: Decision, thread: Thread, turn: Turn)
    | Expire(k: nat)
    | RejectAll
    | Wake(k: nat)

  /** Requests that have not been answered have different ids. */
  predicate Enabled(b: Bridge, step: Step)
  {
    match step
    case Arrive(id, _, _, _) => forall i :: 0 <= i < |b.requests| && !b.requests[i].stage.Answered? ==>
      b.requests[i].id != id
    case Choose(k) => k < |b.requests| && b.requests[k].stage.Arrived?
    case Post(k) => k < |b.requests| && b.requests[k].stage.Asked?
    case Expire(k) => k < |b.requests| && b.requests[k].armed
    case Wake(k) => k < |b.requests| && b.requests[k].stage.Waiting? && b.requests[k].settled != []
    case _ => true
  }

  /** The thread's latest policy is full access, with fewer than 10,000 other threads
      used since. */
  ghost predicate FullNow(history: seq<(Thread, Mode)>, t: Thread)
  {
    t != "" && Latest(history, t) == Some(FullAccess) && |Since(Threads(history), t)| < 10_000
  }

  function Chosen(r: Request, mode: Mode): Request
  {
    if mode.Confirm? && IsApprovalRequest(r.m) then
      if r.thread == "" then r.(stage := Answered(ApprovalResult(r.m, Deny), false)) else r.(stage := Asked)
    else r.(stage := Answered(AutomaticResult(r.m), true))
  }

  function Settle(r: Request, s: Settlement): Request
  {
    r.(armed := false, settled := r.settled + [s])
  }

  /** A promise keeps its first resolution. */
  function DecisionOf(s: Settlement): Decision { if s.Decided? then s.d else Deny }

  predicate Matches(r: Request, thread: Thread, turn: Turn)
  {
    (thread == "" || r.thread == thread) && r.turn != "" && turn != "" && r.turn == turn
  }

  predicate Listed(b: Bridge, k: nat)
    requires k < |b.requests|
  {
    b.requests[k].id in b.pending && b.pending[b.requests[k].id] == k
  }

  /** Every listed request rejected, except those with ids in `left`. */
  function RejectedBut(pending: map<Rid, nat>, requests: seq<Request>, left: set<Rid>): seq<Request>
  {
    seq(|requests|, k requires 0 <= k < |requests| =>
      if requests[k].id in pending && pending[requests[k].id] == k && requests[k].id !in left
      then Settle(requests[k], Rejected) else requests[k])
  }

  ghost function Next(b: Bridge, step: Step): Bridge
    requires Enabled(b, step)
  {
    match step
    case Policy(t, mode) => b.(policies := Remember(b.policies, t, mode), history := b.history + [(t, mode)])
    case Arrive(id, m, thread, turn) =>
      b.(requests := b.requests + [Request(id, m, thread, turn, Arrived, false, [], false)])
    case Choose(k) =>
      var r := b.requests[k];
      b.(requests := b.requests[k := Chosen(r, ModeOf(b.policies, r.thread)).(full := FullNow(b.history, r.thread))])
    case Post(k) =>
      var r := b.requests[k];
      if |b.pending.Keys| >= MAX_PENDING then
        b.(requests := b.requests[k := r.(stage := Answered(ApprovalResult(r.m, Deny), false))])
      else b.(pending := b.pending[r.id := k], requests := b.requests[k := r.(stage := Waiting, armed := true)])
    case Resolve(id, d, thread, turn) =>
      if id in b.pending && b.pending[id] < |b.requests| && Matches(b.requests[b.pending[id]], thread, turn) then
        var k := b.pending[id];
        b.(pending := b.pending - {id}, requests := b.requests[k := Settle(b.requests[k], Decided(d, thread, turn))])
      else b
    case Expire(k) =>
      b.(pending := b.pending - {b.requests[k].id}, requests := b.requests[k := Settle(b.requests[k], Expired)])
    case RejectAll => b.(pending := map[], requests := RejectedBut(b.pending, b.requests, {}))
    case Wake(k) =>
      var r := b.requests[k];
      b.(requests := b.requests[k := r.(stage := Answered(ApprovalResult(r.m, DecisionOf(r.settled[0])), false))])
  }

  // ---- What every reachable state satisfies ----

  /** An approving decision that matches the request. */
  ghost predicate Approved(r: Request)
  {
    && |r.settled| == 1 && r.settled[0].Decided? && r.settled[0].d.Approve?
    && r.thread != "" && (r.settled[0].thread == "" || r.settled[0].thread == r.thread)
    && r.settled[0].turn == r.turn != ""
  }

  /** What a request asked in confirm mode was answered: positively exactly if it was
      approved, and then with exactly the rules of the decision. */
  ghost predicate AnsweredAsDecided(r: Request)
    requires r.stage.Answered?
  {
    && IsApprovalRequest(r.m) && !r.full
    && (Positive(r.stage.result) <==> Approved(r))
    && (Approved(r) && r.settled[0].d.amendment != [] && !r.m.UserInput? ==>
      r.stage.result == Amended(r.settled[0].d.amendment))
  }

  /** What a request answered without asking was answered. */
  ghost predicate AnsweredAutomatically(r: Request)
    requires r.stage.Answered?
  {
    r.settled == [] && (Positive(r.stage.result) <==> IsApprovalRequest(r.m)) && (IsApprovalRequest(r.m) ==> r.full)
  }

  ghost predicate RequestOk(r: Request)
  {
    && |r.settled| <= 1
    && (r.armed <==> r.stage.Waiting? && r.settled == [])
    && (r.stage.Arrived? || r.stage.Asked? ==> r.settled == [])
    && (r.stage.Asked? || r.stage.Waiting? ==> IsApprovalRequest(r.m) && r.thread != "" && !r.full)
    && (r.settled != [] && r.settled[0].Decided? ==>
      r.thread != "" && Matches(r, r.settled[0].thread, r.settled[0].turn))
    && (r.stage.Answered? ==> if r.stage.automatic then AnsweredAutomatically(r) else AnsweredAsDecided(r))
  }

  ghost predicate TableOk(b: Bridge)
  {
    && |b.pending.Keys| <= MAX_PENDING
    && (forall id :: id in b.pending ==>
      b.pending[id] < |b.requests| && b.requests[b.pending[id]].id == id && b.requests[b.pending[id]].armed)
    && (forall k :: 0 <= k < |b.requests| && b.requests[k].armed ==> Listed(b, k))
  }

  ghost predicate IdsOk(requests: seq<Request>)
  {
    forall i, j :: 0 <= i < j < |requests| && !requests[i].stage.Answered? && !requests[j].stage.Answered? ==>
      requests[i].id != requests[j].id
  }

  ghost predicate Inv(b: Bridge)
  {
    && Remembers(b.policies, b.history)
    && TableOk(b) && IdsOk(b.requests)
    && forall k :: 0 <= k < |b.requests| ==> RequestOk(b.requests[k])
  }

  // ---- Every step keeps it ----

  /** Progress of one outstanding request, with the table following its timer. */
  lemma UpdateKeeps(b: Bridge, k: nat, r: Request, pending: map<Rid, nat>)
    requires Inv(b) && k < |b.requests| && !b.requests[k].stage.Answered?
    requires r.id == b.requests[k].id && RequestOk(r) && |pending.Keys| <= MAX_PENDING
    requires forall id :: id != r.id ==> (id in pending <==> id in b.pending)
    requires forall id :: id != r.id && id in pending ==> pending[id] == b.pending[id]
    requires if r.armed then r.id in pending && pending[r.id] == k else r.id !in pending
    ensures Inv(b.(pending := pending, requests := b.requests[k := r]))
  {
    hide RequestOk;
    hide Remembers;
    UpdateKeepsTable(b, k, r, pending);
    UpdateKeepsIds(b.requests, k, r);
    hide TableOk;
    hide IdsOk;
  }

  lemma UpdateKeepsIds(requests: seq<Request>, k: nat, r: Request)
    requires IdsOk(requests) && k < |requests| && !requests[k].stage.Answered? && r.id == requests[k].id
    ensures IdsOk(requests[k := r])
  {
  }

  lemma UpdateKeepsTable(b: Bridge, k: nat, r: Request, pending: map<Rid, nat>)
    requires TableOk(b) && IdsOk(b.requests) && k < |b.requests| && !b.requests[k].stage.Answered?
    requires forall i :: 0 <= i < |b.requests| ==> RequestOk(b.requests[i])
    requires r.id == b.requests[k].id && |pending.Keys| <= MAX_PENDING
    requires forall id :: id != r.id ==> (id in pending <==> id in b.pending)
    requires forall id :: id != r.id && id in pending ==> pending[id] == b.pending[id]
    requires if r.armed then r.id in pending && pending[r.id] == k else r.id !in pending
    ensures TableOk(b.(pending := pending, requests := b.requests[k := r]))
  {
    var b' := b.(pending := pending, requests := b.requests[k := r]);
    hide RequestOk;
    forall i | 0 <= i < |b'.requests| && b'.requests[i].armed ensures Listed(b', i) {
      if i != k {
        assert Listed(b, i);
        assert RequestOk(b.requests[i]);
        ArmedIsOutstanding(b.requests[i]);
      }
    }
    forall id | id in pending
      ensures pending[id] < |b'.requests| && b'.requests[pending[id]].id == id && b'.requests[pending[id]].armed
    {
      if id != r.id { assert id in b.pending; }
    }
  }

  lemma ArmedIsOutstanding(r: Request)
    requires RequestOk(r) && r.armed
    ensures !r.stage.Answered?
  {
  }

  /** An outstanding request that is not waiting has nothing in the table. */
  lemma NotListed(b: Bridge, k: nat)
    requires Inv(b) && k < |b.requests| && !b.requests[k].stage.Answered? && !b.requests[k].armed
    ensures b.requests[k].id !in b.pending
  {
    hide RequestOk;
    var id := b.requests[k].id;
    if id in b.pending {
      var j := b.pending[id];
      ArmedIsOutstanding(b.requests[j]);
    }
  }

  lemma ChooseKeeps(b: Bridge, k: nat)
    requires Inv(b) && Enabled(b, Choose(k))
    ensures Inv(Next(b, Choose(k)))
  {
    var r := b.requests[k];
    assert RequestOk(r);
    if r.thread != "" { FullAccessExactly(b.policies, b.history, r.thread); }
    var r' := Chosen(r, ModeOf(b.policies, r.thread)).(full := FullNow(b.history, r.thread));
    assert RequestOk(r');
    NotListed(b, k);
    hide Chosen;
    hide FullNow;
    UpdateKeeps(b, k, r', b.pending);
  }

  lemma PostKeeps(b: Bridge, k: nat)
    requires Inv(b) && Enabled(b, Post(k))
    ensures Inv(Next(b, Post(k)))
  {
    hide Remembers;
    var r := b.requests[k];
    assert RequestOk(r);
    NotListed(b, k);
    var denied, waiting := r.(stage := Answered(ApprovalResult(r.m, Deny), false)), r.(stage := Waiting, armed := true);
    assert RequestOk(denied) && !denied.armed && RequestOk(waiting);
    hide RequestOk;
    hide TableOk;
    hide IdsOk;
    if |b.pending.Keys| >= MAX_PENDING {
      TableIsSmall(b);
      UpdateKeeps(b, k, denied, b.pending);
    } else {
      assert b.pending[r.id := k].Keys == b.pending.Keys + {r.id};
      UpdateKeeps(b, k, waiting, b.pending[r.id := k]);
    }
  }

  lemma TableIsSmall(b: Bridge)
    requires Inv(b)
    ensures |b.pending.Keys| <= MAX_PENDING
  {
  }

  /** Whichever way a listed request is settled, it leaves the table and its timer. */
  lemma SettleKeeps(b: Bridge, k: nat, s: Settlement)
    requires Inv(b) && k < |b.requests| && b.requests[k].armed
    requires s.Decided? ==> Matches(b.requests[k], s.thread, s.turn)
    ensures Inv(b.(pending := b.pending - {b.requests[k].id}, requests := b.requests[k := Settle(b.requests[k], s)]))
  {
    var r := b.requests[k];
    assert RequestOk(r);
    ArmedIsOutstanding(r);
    var r' := Settle(r, s);
    assert RequestOk(r') && !r'.armed;
    var less := b.pending - {r.id};
    assert less.Keys == b.pending.Keys - {r.id};
    hide Settle;
    UpdateKeeps(b, k, r', less);
  }

  lemma WakeKeeps(b: Bridge, k: nat)
    requires Inv(b) && Enabled(b, Wake(k))
    ensures Inv(Next(b, Wake(k)))
  {
    var r := b.requests[k];
    assert RequestOk(r);
    NotListed(b, k);
    var r' := r.(stage := Answered(ApprovalResult(r.m, DecisionOf(r.settled[0])), false));
    assert RequestOk(r');
    UpdateKeeps(b, k, r', b.pending);
  }

  lemma RejectAllKeeps(b: Bridge)
    requires Inv(b)
    ensures Inv(Next(b, RejectAll))
  {
    hide Remembers;
    var b' := Next(b, RejectAll);
    forall k | 0 <= k < |b'.requests|
      ensures RequestOk(b'.requests[k]) && !b'.requests[k].armed
      ensures b'.requests[k].stage == b.requests[k].stage && b'.requests[k].id == b.requests[k].id
    {
      assert RequestOk(b.requests[k]);
      if b.requests[k].armed { assert Listed(b, k); }
    }
    hide RequestOk;
  }

  lemma ArriveKeeps(b: Bridge, id: Rid, m: Method, thread: Thread, turn: Turn)
    requires Inv(b) && Enabled(b, Arrive(id, m, thread, turn))
    ensures Inv(Next(b, Arrive(id, m, thread, turn)))
  {
    var b' := Next(b, Arrive(id, m, thread, turn));
    assert RequestOk(b'.requests[|b.requests|]);
    forall k | 0 <= k < |b.requests| ensures b'.requests[k] == b.requests[k] && RequestOk(b'.requests[k]) { }
    hide RequestOk;
    forall k | 0 <= k < |b'.requests| && b'.requests[k].armed ensures Listed(b', k) { assert Listed(b, k); }
  }

  lemma StepKeeps(b: Bridge, step: Step)
    requires Inv(b) && Enabled(b, step)
    ensures Inv(Next(b, step))
  {
    match step
    case Policy(t, mode) => PolicyKeeps(b, t, mode);
    case Arrive(id, m, thread, turn) => ArriveKeeps(b, id, m, thread, turn);
    case Choose(k) => ChooseKeeps(b, k);
    case Post(k) => PostKeeps(b, k);
    case Resolve(id, d, thread, turn) =>
      if Next(b, step) != b { SettleKeeps(b, b.pending[id], Decided(d, thread, turn)); }
    case Expire(k) => SettleKeeps(b, k, Expired);
    case RejectAll => RejectAllKeeps(b);
    case Wake(k) => WakeKeeps(b, k);
  }

  lemma PolicyKeeps(b: Bridge, t: Thread, mode: Mode)
    requires Inv(b)
    ensures Inv(b.(policies := Remember(b.policies, t, mode), history := b.history + [(t, mode)]))
  {
    RememberKeeps(b.policies, b.history, t, mode);
    hide Remember;
    PolicyKeepsRest(b, b.(policies := Remember(b.policies, t, mode), history := b.history + [(t, mode)]));
  }

  lemma PolicyKeepsRest(b: Bridge, b': Bridge)
    requires Inv(b) && b'.pending == b.pending && b'.requests == b.requests && Remembers(b'.policies, b'.history)
    ensures Inv(b')
  {
    hide RequestOk;
    forall k | 0 <= k < |b'.requests| && b'.requests[k].armed ensures Listed(b', k) { assert Listed(b, k); }
  }

  // ---- Whole runs ----

  ghost predicate Possible(b: Bridge, steps: seq<Step>)
    decreases |steps|
  {
    steps != [] ==> Enabled(b, steps[0]) && Possible(Next(b, steps[0]), steps[1..])
  }

  ghost function Run(b: Bridge, steps: seq<Step>): Bridge
    requires Possible(b, steps)
    decreases |steps|
  {
    if steps == [] then b else Run(Next(b, steps[0]), steps[1..])
  }

  ghost const Start := Bridge(Empty(), [], map[], [])

  /** Every approval is settled at most once, by a decision, its expiry or a
      reject-all; a positive answer was approved for that thread and turn, or the
      thread's latest policy was full access; at most 256 approvals are pending. */
  lemma {:induction false} EveryRunIsSound(b: Bridge, steps: seq<Step>)
    requires Inv(b) && Possible(b, steps)
    ensures Inv(Run(b, steps))
    decreases |steps|
  {
    if steps == [] {
    } else {
      StepKeeps(b, steps[0]);
      EveryRunIsSound(Next(b, steps[0]), steps[1..]);
    }
  }

  lemma StartIsSound()
    ensures Inv(Start)
  {
  }

  /** The same from a bridge that has just started. */
  lemma EveryReachableBridgeIsSound(steps: seq<Step>)
    requires Possible(Start, steps)
    ensures Inv(Run(Start, steps))
  {
    StartIsSound();
    EveryRunIsSound(Start, steps);
  }

  /** A waiting approval is either in the table with its timer running or has been
      settled exactly once. */
  lemma SettledExactlyOnce(b: Bridge, k: nat)
    requires Inv(b) && k < |b.requests| && b.requests[k].stage.Waiting?
    ensures Listed(b, k) <==> b.requests[k].settled == []
    ensures !Listed(b, k) <==> |b.requests[k].settled| == 1
  {
    assert RequestOk(b.requests[k]);
    if b.requests[k].armed { assert Listed(b, k); }
  }

  // ---- From a request to its answer ----

  /** What is chosen for a request: accepted at once exactly for an approval request with
      full access now, asked exactly for one with a thread and without it, denied at once
      exactly for one without a thread, answered null otherwise. */
  lemma ChosenExactly(b: Bridge, k: nat)
    requires Inv(b) && Enabled(b, Choose(k))
    ensures var r, r' := b.requests[k], Next(b, Choose(k)).requests[k];
      var approval, full := IsApprovalRequest(r.m), FullNow(b.history, r.thread);
      && (r'.stage.Answered? && r'.stage.automatic && Positive(r'.stage.result) <==> approval && full)
      && (r'.stage.Asked? <==> approval && r.thread != "" && !full)
      && (r'.stage.Answered? && !r'.stage.automatic <==> approval && r.thread == "")
      && (r'.stage == Answered(Null, true) <==> !approval)
  {
    var r := b.requests[k];
    if r.thread != "" { FullAccessExactly(b.policies, b.history, r.thread); }
    hide Remembers;
    hide TableOk;
  }

  /** Full access answers what an approval without amendment would. */
  lemma AutomaticIsPlainApprove(m: Method)
    requires IsApprovalRequest(m)
    ensures AutomaticResult(m) == ApprovalResult(m, Approve([]))
  {
  }

  /** An asked request waits in the table exactly if fewer than 256 wait already. */
  lemma PostIff(b: Bridge, k: nat)
    requires Inv(b) && Enabled(b, Post(k))
    ensures var b' := Next(b, Post(k));
      if |b.pending.Keys| < 256 then b'.requests[k].stage.Waiting? && b'.requests[k].armed && Listed(b', k)
      else b'.requests[k].stage.Answered? && !Positive(b'.requests[k].stage.result) && b'.pending == b.pending
  {
  }

  /** How a listed request is settled by a matching decision, its expiry or a reject-all. */
  lemma ListedIsSettled(b: Bridge, id: Rid, d: Decision, thread: Thread, turn: Turn)
    requires Inv(b) && id in b.pending
    ensures var k := b.pending[id];
      var r := b.requests[k];
      && (((thread == "" || r.thread == thread) && r.turn != "" && r.turn == turn) ==>
        Next(b, Resolve(id, d, thread, turn)).requests[k].settled == [Decided(d, thread, turn)])
      && Enabled(b, Expire(k)) && Next(b, Expire(k)).requests[k].settled == [Expired]
      && Next(b, RejectAll).requests[k].settled == [Rejected]
  {
    assert RequestOk(b.requests[b.pending[id]]);
    hide Remembers;
  }

  /** A step keeps what a request is and what it was settled with. */
  lemma StepKeepsSettlement(b: Bridge, step: Step, k: nat)
    requires Enabled(b, step) && k < |b.requests|
    ensures k < |Next(b, step).requests|
    ensures var r, r' := b.requests[k], Next(b, step).requests[k];
      r'.id == r.id && r'.m == r.m && r'.thread == r.thread && r'.turn == r.turn && r.settled <= r'.settled
  {
    hide Remember;
  }

  lemma {:induction false} RunKeepsSettlement(b: Bridge, steps: seq<Step>, k: nat)
    requires Possible(b, steps) && k < |b.requests|
    ensures k < |Run(b, steps).requests|
    ensures var r, r' := b.requests[k], Run(b, steps).requests[k];
      r'.id == r.id && r'.m == r.m && r'.thread == r.thread && r'.turn == r.turn && r.settled <= r'.settled
    decreases |steps|
  {
    if steps == [] {
    } else {
      StepKeepsSettlement(b, steps[0], k);
      hide Next;
      RunKeepsSettlement(Next(b, steps[0]), steps[1..], k);
    }
  }

  /** Once settled, a request's answer is decided, whatever happens before it is given:
      positive if and only if it was approved, with the rules of the amendment. */
  lemma SettlementDecides(b: Bridge, steps: seq<Step>, k: nat, s: Settlement)
    requires Inv(b) && Possible(b, steps) && k < |b.requests| && b.requests[k].settled == [s]
    ensures k < |Run(b, steps).requests|
    ensures var r := Run(b, steps).requests[k];
      && r.settled == [s] && (r.stage.Waiting? || r.stage.Answered?)
      && (r.stage.Answered? ==> (Positive(r.stage.result) <==> s.Decided? && s.d.Approve?))
      && (r.stage.Answered? && s.Decided? && s.d.Approve? && s.d.amendment != [] && !r.m.UserInput? ==>
        r.stage.result == Amended(s.d.amendment))
  {
    EveryRunIsSound(b, steps);
    RunKeepsSettlement(b, steps, k);
    var r := Run(b, steps).requests[k];
    assert RequestOk(r);
  }

  /** A settled request that waits is answered when its continuation runs. */
  lemma WakeAnswers(b: Bridge, k: nat)
    requires Inv(b) && k < |b.requests| && b.requests[k].stage.Waiting? && b.requests[k].settled != []
    ensures Enabled(b, Wake(k)) && Next(b, Wake(k)).requests[k].stage.Answered?
  {
  }

  /** From a matching approve to the answer, with any steps in between. */
  lemma ApproveIsAnswered(b: Bridge, id: Rid, rules: seq<string>, thread: Thread, turn: Turn, steps: seq<Step>)
    requires Inv(b) && id in b.pending && Matches(b.requests[b.pending[id]], thread, turn)
    requires Possible(Next(b, Resolve(id, Approve(rules), thread, turn)), steps)
    ensures var k, end := b.pending[id], Run(Next(b, Resolve(id, Approve(rules), thread, turn)), steps);
      && k < |end.requests|
      && (end.requests[k].stage.Waiting? || (end.requests[k].stage.Answered? && Positive(end.requests[k].stage.result)))
      && (end.requests[k].stage.Answered? && rules != [] && !end.requests[k].m.UserInput? ==>
        end.requests[k].stage.result == Amended(rules))
  {
    var step := Resolve(id, Approve(rules), thread, turn);
    ListedIsSettled(b, id, Approve(rules), thread, turn);
    StepKeeps(b, step);
    StepKeepsSettlement(b, step, b.pending[id]);
    hide Next;
    SettlementDecides(Next(b, step), steps, b.pending[id], Decided(Approve(rules), thread, turn));
  }

  // ---- The bridge object ----

  class CodexBridge {
    var policyByThread: Policies
    var pendingApprovals: map<Rid, nat>
    var requests: seq<Request>
    ghost var history: seq<(Thread, Mode)>

    ghost function View(): Bridge reads this { Bridge(policyByThread, history, pendingApprovals, requests) }

    constructor ()
      ensures View() == Start
    {
      policyByThread, pendingApprovals, requests, history := Empty(), map[], [], [];
    }

    method RememberPolicy(t: Thread, mode: Mode)
      requires Inv(View())
      modifies this`policyByThread, this`history
      ensures View() == Next(old(View()), Policy(t, mode)) && Inv(View())
    {
      PolicyKeeps(View(), t, mode);
      hide Inv;
      hide OrderedMap.Trim;
      policyByThread := policyByThread.Delete(t);
      policyByThread := policyByThread.Set(t, mode);
      policyByThread := EvictOldest(policyByThread, MAX_POLICIES);
      history := history + [(t, mode)];
    }

    method ResolveApproval(id: Rid, d: Decision, thread: Thread, turn: Turn) returns (ok: bool)
      requires Inv(View())
      modifies this`pendingApprovals, this`requests
      ensures View() == Next(old(View()), Resolve(id, d, thread, turn)) && Inv(View())
      ensures ok <==> id in old(pendingApprovals) && Matches(old(requests)[old(pendingApprovals)[id]], thread, turn)
    {
      StepKeeps(View(), Resolve(id, d, thread, turn));
      if id !in pendingApprovals { return false; }
      var k := pendingApprovals[id];
      if thread != "" && requests[k].thread != thread { return false; }
      if requests[k].turn == "" || turn == "" || requests[k].turn != turn { return false; }
      pendingApprovals := pendingApprovals - {id};
      requests := requests[k := Settle(requests[k], Decided(d, thread, turn))];
      return true;
    }

    /** The approvals loop of rejectAll. */
    method RejectAllApprovals()
      requires Inv(View())
      modifies this`pendingApprovals, this`requests
      ensures View() == Next(old(View()), RejectAll) && Inv(View())
    {
      StepKeeps(View(), RejectAll);
      ghost var all, was := pendingApprovals, requests;
      RejectBegins(all, was);
      while pendingApprovals.Keys != {}
        invariant pendingApprovals.Keys <= all.Keys
        invariant forall id :: id in pendingApprovals ==> pendingApprovals[id] == all[id]
        invariant requests == RejectedBut(all, was, pendingApprovals.Keys)
        decreases |pendingApprovals.Keys|
      {
        var id :| id in pendingApprovals.Keys;
        var k := pendingApprovals[id];
        assert all[id] < |was| && was[all[id]].id == id;
        RejectStep(all, was, pendingApprovals.Keys, id);
        requests := requests[k := Settle(requests[k], Rejected)];
        ghost var left := pendingApprovals.Keys;
        pendingApprovals := pendingApprovals - {id};
        assert pendingApprovals.Keys == left - {id};
      }
      assert pendingApprovals == map[];
    }
  }

  lemma RejectBegins(pending: map<Rid, nat>, requests: seq<Request>)
    ensures RejectedBut(pending, requests, pending.Keys) == requests
  {
  }

  lemma RejectStep(pending: map<Rid, nat>, requests: seq<Request>, left: set<Rid>, id: Rid)
    requires id in left && id in pending && pending[id] < |requests| && requests[pending[id]].id == id
    ensures var k := pending[id];
      RejectedBut(pending, requests, left - {id}) ==
        RejectedBut(pending, requests, left)[k := Settle(RejectedBut(pending, requests, left)[k], Rejected)]
  {
    hide Settle;
  }
}
