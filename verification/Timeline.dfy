/** The timeline reducer (aggregator.ts): events of a session folded into turns, with
    placeholder and pending turns adopting the ids Codex assigns later. An empty
    string stands for a missing field wherever the reducer tests it for truth. */
module Timeline {
  import CodexFraming

  type Sid = string

  datatype Call = Call(id: string, callId: string)

  datatype Tool =
    | Command(id: string, command: string, output: string, status: string)
    | FileEdit(id: string, path: string, kind: string, diff: string, status: string)
    | SubAgent(agent: string, path: string, kind: string, status: string, call: Call)

  datatype Approval = Approval(requestId: string, status: string)

  datatype Turn = Turn(
    id: string, session: Sid, prompt: string, request: string, status: string,
    text: string, tools: seq<Tool>, diffs: seq<string>, approvals: seq<Approval>)

  datatype Change = Change(id: string, path: string, kind: string, diff: string)

  /** A session-output payload. `fallbackId` is the id a new tool would get; a user
      message is `structured` if it came as jsonPayload and not as text in chunk. */
  datatype Output =
    | AgentDelta(chunk: string)
    | CommandDelta(itemId: string, chunk: string, fallbackId: string)
    | UserMessage(text: string, structured: bool)
    | CommandCompleted(itemId: string, command: string, aggregated: string, hasOutput: bool, status: string,
      fallbackId: string)
    | FilesChanged(changes: seq<Change>, status: string)
    | AgentMessage(text: string)
    | DiffUpdated(diff: string)
    | OtherOutput

  datatype Body =
    | SessionStarted(prompt: string)
    | UserInput(request: string, prompt: string, inputId: string)
    | StatusChanged(status: string)
    | Finished(status: string, texts: seq<string>)
    | ApprovalRequested(turn: string, requestId: string)
    | ApprovalResolved(requestId: string, approve: bool)
    | ApprovalExpired(requestId: string, known: bool)
    | SubagentStarted(turn: string, agent: string, path: string)
    | SubagentTool(turn: string, agent: string, call: Call, status: string)
    | SubagentFinished(turn: string, agent: string, status: string)
    | SessionOutput(turn: string, out: Output)
    | OtherEvent

  /** `stamp` is the clock-based turn id used when nothing else names a turn. */
  datatype Event = Event(session: Sid, stamp: string, body: Body)

  function EmptyTurn(id: string, s: Sid, prompt: string): Turn
  {
    Turn(id, s, prompt, "", "idle", "", [], [], [])
  }

  // ---- getOrCreateTurn ----

  predicate Placeholder(turns: seq<Turn>)
  {
    && |turns| == 1 && (turns[0].id == "turn-0" || turns[0].id == "initial-turn")
    && turns[0].text == "" && turns[0].tools == []
  }

  /** findIndex, with the length standing for "not found". */
  function IndexOf(turns: seq<Turn>, id: string): (i: nat)
    ensures i <= |turns|
    ensures i < |turns| ==> turns[i].id == id
    ensures forall j :: 0 <= j < i ==> turns[j].id != id
  {
    if turns == [] || turns[0].id == id then 0 else IndexOf(turns[1..], id) + 1
  }

  predicate Pending(t: Turn, s: Sid, fallback: string)
  {
    && t.session == s && (t.status == "streaming" || t.status == "waiting-approval")
    && t.text == "" && t.tools == [] && (t.prompt != "" || fallback != "")
  }

  /** The last pending turn, with the length standing for "none". */
  function LastPending(turns: seq<Turn>, s: Sid, fallback: string, n: nat): (i: nat)
    requires n <= |turns|
    ensures i == |turns| || (i < n && Pending(turns[i], s, fallback))
    ensures forall j :: 0 <= j < n && (i == |turns| || i < j) ==> !Pending(turns[j], s, fallback)
  {
    if n == 0 then |turns|
    else if Pending(turns[n - 1], s, fallback) then n - 1
    else LastPending(turns, s, fallback, n - 1)
  }

  function Adopt(t: Turn, id: string, fallback: string): Turn
  {
    t.(id := id, prompt := if t.prompt == "" then fallback else t.prompt)
  }

  function TargetId(turns: seq<Turn>, target: string, stamp: string): string
  {
    if target != "" then target else if turns != [] then turns[|turns| - 1].id else stamp
  }

  /** The turn an event belongs to: the turns afterwards and its position. */
  function GetOrCreate(turns: seq<Turn>, target: string, fallback: string, s: Sid, stamp: string): (r: (seq<Turn>, nat))
    ensures r.1 < |r.0|
  {
    var id := TargetId(turns, target, stamp);
    if Placeholder(turns) then (turns[0 := Adopt(turns[0], id, fallback)], 0) else
    var i := IndexOf(turns, id);
    if i < |turns| then (turns, i) else
    var p := LastPending(turns, s, fallback, |turns|);
    if p < |turns| then (turns[p := Adopt(turns[p], id, fallback)], p)
    else (turns + [EmptyTurn(id, s, fallback)], |turns|)
  }

  // ---- What an event does to its turn ----

  function FindApproval(list: seq<Approval>, id: string): (i: nat)
    ensures i <= |list| && (i < |list| ==> list[i].requestId == id)
  {
    if list == [] || list[0].requestId == id then 0 else FindApproval(list[1..], id) + 1
  }

  function Ask(t: Turn, id: string): Turn
  {
    var i := FindApproval(t.approvals, id);
    t.(status := "waiting-approval",
       approvals := if i < |t.approvals| then t.approvals[i := Approval(id, "pending")]
                    else t.approvals + [Approval(id, "pending")])
  }

  function Answer(t: Turn, id: string, status: string): Turn
  {
    var i := FindApproval(t.approvals, id);
    if i == |t.approvals| then t
    else t.(approvals := t.approvals[i := Approval(id, status)],
            status := if t.status == "waiting-approval" then "streaming" else t.status)
  }

  function AnswerAll(turns: seq<Turn>, id: string, status: string): (r: seq<Turn>)
    ensures |r| == |turns|
  {
    seq(|turns|, i requires 0 <= i < |turns| => Answer(turns[i], id, status))
  }

  function FindCommand(tools: seq<Tool>, id: string): (i: nat)
    ensures i <= |tools| && (i < |tools| ==> tools[i].Command? && tools[i].id == id)
  {
    if tools == [] || (tools[0].Command? && tools[0].id == id) then 0 else FindCommand(tools[1..], id) + 1
  }

  function LastRunning(tools: seq<Tool>, n: nat): (i: nat)
    requires n <= |tools|
    ensures i <= |tools| && (i < |tools| ==> tools[i].Command?)
  {
    if n == 0 then |tools|
    else if tools[n - 1].Command? && tools[n - 1].status == "running" then n - 1
    else LastRunning(tools, n - 1)
  }

  function FindFile(tools: seq<Tool>, id: string): (i: nat)
    ensures i <= |tools| && (i < |tools| ==> tools[i].FileEdit? && tools[i].id == id)
  {
    if tools == [] || (tools[0].FileEdit? && tools[0].id == id) then 0 else FindFile(tools[1..], id) + 1
  }

  function FindAgent(tools: seq<Tool>, agent: string): (i: nat)
    ensures i <= |tools| && (i < |tools| ==> tools[i].SubAgent? && tools[i].agent == agent)
  {
    if tools == [] || (tools[0].SubAgent? && tools[0].agent == agent) then 0 else FindAgent(tools[1..], agent) + 1
  }

  function CallKey(c: Call): string { if c.id != "" then c.id else c.callId }

  predicate SameCall(t: Tool, agent: string, key: string)
  {
    t.SubAgent? && t.agent == agent && key != "" && (t.call.id == key || t.call.callId == key)
  }

  function FindCall(tools: seq<Tool>, agent: string, key: string): (i: nat)
    ensures i <= |tools| && (i < |tools| ==> SameCall(tools[i], agent, key))
  {
    if tools == [] || SameCall(tools[0], agent, key) then 0 else FindCall(tools[1..], agent, key) + 1
  }

  function RunCommand(tools: seq<Tool>, itemId: string, chunk: string, fallbackId: string): seq<Tool>
  {
    var byId := if itemId != "" then FindCommand(tools, itemId) else |tools|;
    var i := if byId < |tools| then byId else LastRunning(tools, |tools|);
    if i < |tools| then tools[i := tools[i].(output := tools[i].output + chunk, status := "running")]
    else tools + [Command(fallbackId, "正在执行命令...", chunk, "running")]
  }

  function CompleteCommand(tools: seq<Tool>, out: Output): seq<Tool>
    requires out.CommandCompleted?
  {
    var i := if out.itemId != "" then FindCommand(tools, out.itemId) else LastRunning(tools, |tools|);
    if i < |tools| then
      tools[i := Command(tools[i].id, if out.command != "" then out.command else tools[i].command,
                         if out.hasOutput then out.aggregated else tools[i].output, out.status)]
    else tools + [Command(out.fallbackId, out.command, out.aggregated, out.status)]
  }

  function ChangeFiles(tools: seq<Tool>, changes: seq<Change>, status: string): seq<Tool>
  {
    if changes == [] then tools else
    var before := ChangeFiles(tools, changes[..|changes| - 1], status);
    var c := changes[|changes| - 1];
    var next := FileEdit(c.id, c.path, c.kind, c.diff, status);
    var i := FindFile(before, c.id);
    if i < |before| then before[i := next] else before + [next]
  }

  function StartAgent(tools: seq<Tool>, agent: string, path: string): seq<Tool>
  {
    var i := FindAgent(tools, agent);
    if i < |tools| then
      var known := if path != "" then path else tools[i].path;
      tools[i := tools[i].(path := known, kind := "started", status := "running")]
    else tools + [SubAgent(agent, path, "started", "running", Call("", ""))]
  }

  function CallTool(tools: seq<Tool>, agent: string, call: Call, status: string): seq<Tool>
  {
    var i := FindCall(tools, agent, CallKey(call));
    if i < |tools| then tools[i := tools[i].(call := call, status := if status != "" then status else tools[i].status)]
    else tools + [SubAgent(agent, "", "toolCall", "running", call)]
  }

  function FinishAgent(tools: seq<Tool>, agent: string, status: string): seq<Tool>
  {
    seq(|tools|, i requires 0 <= i < |tools| =>
      if tools[i].SubAgent? && tools[i].agent == agent
      then tools[i].(kind := "completed", status := status) else tools[i])
  }

  function Emit(t: Turn, out: Output): Turn
  {
    match out
    case AgentDelta(chunk) => t.(text := t.text + chunk, status := "streaming")
    case CommandDelta(itemId, chunk, fallbackId) => t.(tools := RunCommand(t.tools, itemId, chunk, fallbackId))
    case UserMessage(text, _) => if t.prompt == "" then t.(prompt := text) else t
    case CommandCompleted(_, _, _, _, _, _) => t.(tools := CompleteCommand(t.tools, out))
    case FilesChanged(changes, status) => t.(tools := ChangeFiles(t.tools, changes, status))
    case AgentMessage(text) => if t.text == "" then t.(text := text) else t
    case DiffUpdated(diff) =>
      if CodexFraming.Trim(diff) != "" && diff !in t.diffs then t.(diffs := t.diffs + [diff]) else t
    case OtherOutput => t
  }

  function StatusAfter(before: string, status: string): string
  {
    if status == "running" then if before == "idle" then "streaming" else before
    else if status in ["waiting-approval", "completed", "cancelled", "failed"] then status
    else before
  }

  function FirstText(texts: seq<string>): string
  {
    if texts == [] then "" else if texts[0] != "" then texts[0] else FirstText(texts[1..])
  }

  function Finish(t: Turn, status: string, texts: seq<string>): Turn
  {
    t.(status := if status == "cancelled" || status == "failed" then status else "completed",
       text := if t.text == "" then FirstText(texts) else t.text)
  }

  predicate Duplicates(t: Turn, s: Sid, request: string, prompt: string)
  {
    if request != "" then t.request == request else t.prompt == prompt && t.status == "streaming" && t.session == s
  }

  function FindDuplicate(turns: seq<Turn>, s: Sid, request: string, prompt: string): (i: nat)
    ensures i <= |turns| && (i < |turns| ==> Duplicates(turns[i], s, request, prompt))
  {
    if turns == [] || Duplicates(turns[0], s, request, prompt) then 0
    else FindDuplicate(turns[1..], s, request, prompt) + 1
  }

  function Input(turns: seq<Turn>, s: Sid, request: string, prompt: string, id: string): seq<Turn>
  {
    var i := FindDuplicate(turns, s, request, prompt);
    if i < |turns| then turns[i := turns[i].(prompt := if turns[i].prompt == "" then prompt else turns[i].prompt)]
    else turns + [EmptyTurn(id, s, prompt).(request := request, status := "streaming")]
  }

  // ---- applyLiveEventToTurns ----

  /** The turn an event is directed at, and what it does to it. */
  predicate Directed(b: Body)
  {
    b.ApprovalRequested? || b.SubagentStarted? || b.SubagentTool? || b.SubagentFinished? || b.SessionOutput?
  }

  function Act(t: Turn, b: Body): Turn
  {
    match b
    case ApprovalRequested(_, id) => Ask(t, id)
    case SubagentStarted(_, agent, path) => t.(tools := StartAgent(t.tools, agent, path))
    case SubagentTool(_, agent, call, status) => t.(tools := CallTool(t.tools, agent, call, status))
    case SubagentFinished(_, agent, status) => t.(tools := FinishAgent(t.tools, agent, status))
    case SessionOutput(_, out) => Emit(t, out)
    case _ => t
  }

  function Apply(turns: seq<Turn>, e: Event): seq<Turn>
  {
    if Directed(e.body) then
      var (found, k) := GetOrCreate(turns, e.body.turn, "", e.session, e.stamp);
      found[k := Act(found[k], e.body)]
    else
      match e.body
      case SessionStarted(prompt) =>
        if prompt != "" && turns == [] then [EmptyTurn("turn-0", e.session, prompt).(status := "streaming")] else turns
      case UserInput(request, prompt, id) => Input(turns, e.session, request, prompt, id)
      case StatusChanged(status) =>
        if turns == [] then turns else
        var n := |turns| - 1;
        turns[n := turns[n].(status := StatusAfter(turns[n].status, status))]
      case Finished(status, texts) =>
        if turns == [] then turns else
        var n := |turns| - 1;
        turns[n := Finish(turns[n], status, texts)]
      case ApprovalResolved(id, approve) =>
        if id == "" then turns else AnswerAll(turns, id, if approve then "approved" else "denied")
      case ApprovalExpired(id, known) => if known then AnswerAll(turns, id, "expired") else turns
      case _ => turns
  }

  function Fold(turns: seq<Turn>, events: seq<Event>): seq<Turn>
  {
    if events == [] then turns else Apply(Fold(turns, events[..|events| - 1]), events[|events| - 1])
  }

  // ---- Nothing shown is ever taken back ----

  ghost predicate SameTool(a: Tool, b: Tool)
  {
    (a.Command? && b.Command? && a.id == b.id) || (a.FileEdit? && b.FileEdit? && a.id == b.id) ||
    (a.SubAgent? && b.SubAgent? && a.agent == b.agent)
  }

  ghost predicate ToolsGrow(a: seq<Tool>, b: seq<Tool>)
  {
    |a| <= |b| && forall i :: 0 <= i < |a| ==> SameTool(a[i], b[i])
  }

  ghost predicate ApprovalsGrow(a: seq<Approval>, b: seq<Approval>)
  {
    |a| <= |b| && forall i :: 0 <= i < |a| ==> a[i].requestId == b[i].requestId
  }

  /** A turn afterwards: its text extended, its tools and approvals still there, its
      prompt and session kept, and its id kept once it has shown anything. */
  ghost predicate TurnGrows(a: Turn, b: Turn)
  {
    && a.text <= b.text && a.diffs <= b.diffs
    && ToolsGrow(a.tools, b.tools) && ApprovalsGrow(a.approvals, b.approvals)
    && a.session == b.session && (a.prompt != "" ==> b.prompt == a.prompt)
    && (a.text != "" || a.tools != [] ==> b.id == a.id)
  }

  ghost predicate Grows(a: seq<Turn>, b: seq<Turn>)
  {
    |a| <= |b| && forall i :: 0 <= i < |a| ==> TurnGrows(a[i], b[i])
  }

  lemma TurnGrowsJoins(a: Turn, b: Turn, c: Turn)
    requires TurnGrows(a, b) && TurnGrows(b, c)
    ensures TurnGrows(a, c)
  {
    if a.text != "" { assert b.text[0] == a.text[0]; }
  }

  lemma GrowsJoins(a: seq<Turn>, b: seq<Turn>, c: seq<Turn>)
    requires Grows(a, b) && Grows(b, c)
    ensures Grows(a, c)
  {
    forall i | 0 <= i < |a| ensures TurnGrows(a[i], c[i]) { TurnGrowsJoins(a[i], b[i], c[i]); }
  }

  lemma {:induction false} ChangeFilesGrows(tools: seq<Tool>, changes: seq<Change>, status: string)
    ensures ToolsGrow(tools, ChangeFiles(tools, changes, status))
  {
    if changes == [] {
    } else {
      ChangeFilesGrows(tools, changes[..|changes| - 1], status);
    }
  }

  lemma EmitGrows(t: Turn, out: Output)
    ensures TurnGrows(t, Emit(t, out))
  {
    if out.FilesChanged? { ChangeFilesGrows(t.tools, out.changes, out.status); }
  }

  lemma ActGrows(t: Turn, b: Body)
    ensures TurnGrows(t, Act(t, b))
  {
    if b.SessionOutput? { EmitGrows(t, b.out); hide Emit; }
  }

  lemma GetOrCreateGrows(turns: seq<Turn>, target: string, fallback: string, s: Sid, stamp: string)
    ensures Grows(turns, GetOrCreate(turns, target, fallback, s, stamp).0)
  {
  }

  lemma OneTurnGrows(turns: seq<Turn>, k: nat, t: Turn)
    requires k < |turns| && TurnGrows(turns[k], t)
    ensures Grows(turns, turns[k := t])
  {
  }

  lemma TurnGrowsFromItself(t: Turn)
    ensures TurnGrows(t, t)
  {
  }

  lemma GrowsFromItself(turns: seq<Turn>)
    ensures Grows(turns, turns)
    ensures forall t: Turn :: Grows(turns, turns + [t])
  {
    forall i | 0 <= i < |turns| ensures TurnGrows(turns[i], turns[i]) { TurnGrowsFromItself(turns[i]); }
    hide TurnGrows;
  }

  lemma AnswerAllGrows(turns: seq<Turn>, id: string, status: string)
    ensures Grows(turns, AnswerAll(turns, id, status))
  {
  }

  lemma UndirectedGrows(turns: seq<Turn>, e: Event)
    requires !Directed(e.body)
    ensures Grows(turns, Apply(turns, e))
  {
    GrowsFromItself(turns);
    hide Grows;
    match e.body
    case SessionStarted(prompt) =>
      var first := EmptyTurn("turn-0", e.session, prompt).(status := "streaming");
      if turns == [] { assert turns + [first] == [first]; }
    case UserInput(request, prompt, id) =>
      var i := FindDuplicate(turns, e.session, request, prompt);
      if i < |turns| {
        OneTurnGrows(turns, i, turns[i].(prompt := if turns[i].prompt == "" then prompt else turns[i].prompt));
      }
    case StatusChanged(status) =>
      var n := |turns| - 1;
      if turns != [] { OneTurnGrows(turns, n, turns[n].(status := StatusAfter(turns[n].status, status))); }
    case Finished(status, texts) =>
      var n := |turns| - 1;
      if turns != [] { OneTurnGrows(turns, n, Finish(turns[n], status, texts)); }
    case ApprovalResolved(id, approve) =>
      AnswerAllGrows(turns, id, if approve then "approved" else "denied");
    case ApprovalExpired(id, _) =>
      AnswerAllGrows(turns, id, "expired");
    case _ =>
  }

  lemma StepGrows(turns: seq<Turn>, e: Event)
    ensures Grows(turns, Apply(turns, e))
  {
    hide Grows;
    if !Directed(e.body) { UndirectedGrows(turns, e); }
    if Directed(e.body) {
      var (found, k) := GetOrCreate(turns, e.body.turn, "", e.session, e.stamp);
      GetOrCreateGrows(turns, e.body.turn, "", e.session, e.stamp);
      hide GetOrCreate;
      ActGrows(found[k], e.body);
      hide Act;
      OneTurnGrows(found, k, Act(found[k], e.body));
      GrowsJoins(turns, found, found[k := Act(found[k], e.body)]);
    }
  }

  /** Over any events: no turn, tool or approval is removed or reordered, old text
      is a prefix of new text, and a turn that has shown output keeps its id. */
  lemma {:induction false} FoldGrows(turns: seq<Turn>, events: seq<Event>)
    ensures Grows(turns, Fold(turns, events))
  {
    if events == [] {
    } else {
      FoldGrows(turns, events[..|events| - 1]);
      StepGrows(Fold(turns, events[..|events| - 1]), events[|events| - 1]);
      hide Apply;
      GrowsJoins(turns, Fold(turns, events[..|events| - 1]), Fold(turns, events));
    }
  }

  // ---- Conservation of text ----

  function TotalText(turns: seq<Turn>): nat
  {
    if turns == [] then 0 else TotalText(turns[..|turns| - 1]) + |turns[|turns| - 1].text|
  }

  lemma {:induction false} TotalTextUpdate(turns: seq<Turn>, k: nat, t: Turn)
    requires k < |turns|
    ensures TotalText(turns[k := t]) == TotalText(turns) - |turns[k].text| + |t.text|
  {
    var n := |turns| - 1;
    if k == n {
      assert turns[k := t][..n] == turns[..n];
    } else {
      assert turns[k := t][..n] == turns[..n][k := t];
      TotalTextUpdate(turns[..n], k, t);
    }
  }

  lemma TotalTextPush(turns: seq<Turn>, t: Turn)
    ensures TotalText(turns + [t]) == TotalText(turns) + |t.text|
  {
    assert (turns + [t])[..|turns|] == turns;
  }

  lemma GetOrCreateKeepsText(turns: seq<Turn>, target: string, fallback: string, s: Sid, stamp: string)
    ensures TotalText(GetOrCreate(turns, target, fallback, s, stamp).0) == TotalText(turns)
  {
    var id := TargetId(turns, target, stamp);
    var i, p := IndexOf(turns, id), LastPending(turns, s, fallback, |turns|);
    hide TotalText;
    if Placeholder(turns) {
      TotalTextUpdate(turns, 0, Adopt(turns[0], id, fallback));
    } else if i == |turns| && p < |turns| {
      TotalTextUpdate(turns, p, Adopt(turns[p], id, fallback));
    } else if i == |turns| {
      TotalTextPush(turns, EmptyTurn(id, s, fallback));
    }
  }

  /** An agent delta makes the timeline longer by exactly its own length. */
  lemma DeltaAddsItsLength(turns: seq<Turn>, e: Event)
    requires e.body.SessionOutput? && e.body.out.AgentDelta?
    ensures TotalText(Apply(turns, e)) == TotalText(turns) + |e.body.out.chunk|
  {
    var (found, k) := GetOrCreate(turns, e.body.turn, "", e.session, e.stamp);
    GetOrCreateKeepsText(turns, e.body.turn, "", e.session, e.stamp);
    hide GetOrCreate;
    hide TotalText;
    TotalTextUpdate(found, k, Act(found[k], e.body));
  }

  ghost predicate AddsText(b: Body)
  {
    b.Finished? || (b.SessionOutput? && (b.out.AgentDelta? || b.out.AgentMessage?))
  }

  lemma {:induction false} AnswerAllKeepsText(turns: seq<Turn>, id: string, status: string)
    ensures TotalText(AnswerAll(turns, id, status)) == TotalText(turns)
  {
    if turns == [] {
    } else {
      var n := |turns| - 1;
      AnswerAllKeepsText(turns[..n], id, status);
      assert AnswerAll(turns, id, status)[..n] == AnswerAll(turns[..n], id, status);
    }
  }

  /** Events other than messages of the agent add no text. */
  lemma OthersAddNoText(turns: seq<Turn>, e: Event)
    requires !AddsText(e.body)
    ensures TotalText(Apply(turns, e)) == TotalText(turns)
  {
    hide TotalText;
    if Directed(e.body) {
      var (found, k) := GetOrCreate(turns, e.body.turn, "", e.session, e.stamp);
      GetOrCreateKeepsText(turns, e.body.turn, "", e.session, e.stamp);
      hide GetOrCreate;
      assert Act(found[k], e.body).text == found[k].text;
      TotalTextUpdate(found, k, Act(found[k], e.body));
    } else {
      UndirectedAddsNoText(turns, e);
      hide Apply;
    }
  }

  lemma UndirectedAddsNoText(turns: seq<Turn>, e: Event)
    requires !AddsText(e.body) && !Directed(e.body)
    ensures TotalText(Apply(turns, e)) == TotalText(turns)
  {
    hide TotalText;
    match e.body
    case SessionStarted(prompt) =>
      if prompt != "" && turns == [] {
        var first := EmptyTurn("turn-0", e.session, prompt).(status := "streaming");
        TotalTextPush(turns, first);
        assert turns + [first] == [first];
      }
    case UserInput(request, prompt, id) => InputKeepsText(turns, e.session, request, prompt, id);
    case StatusChanged(status) =>
      if turns != [] {
        var n := |turns| - 1;
        TotalTextUpdate(turns, n, turns[n].(status := StatusAfter(turns[n].status, status)));
      }
    case ApprovalResolved(id, approve) => AnswerAllKeepsText(turns, id, if approve then "approved" else "denied");
    case ApprovalExpired(id, _) => AnswerAllKeepsText(turns, id, "expired");
    case _ =>
  }

  lemma InputKeepsText(turns: seq<Turn>, s: Sid, request: string, prompt: string, id: string)
    ensures TotalText(Input(turns, s, request, prompt, id)) == TotalText(turns)
  {
    var i := FindDuplicate(turns, s, request, prompt);
    hide TotalText;
    if i < |turns| {
      TotalTextUpdate(turns, i, turns[i].(prompt := if turns[i].prompt == "" then prompt else turns[i].prompt));
    } else {
      TotalTextPush(turns, EmptyTurn(id, s, prompt).(request := request, status := "streaming"));
    }
  }

  // ---- Command output and approvals ----

  function OutputOf(tool: Tool): nat { if tool.Command? then |tool.output| else 0 }

  function TotalOutput(tools: seq<Tool>): nat
  {
    if tools == [] then 0 else TotalOutput(tools[..|tools| - 1]) + OutputOf(tools[|tools| - 1])
  }

  lemma {:induction false} TotalOutputUpdate(tools: seq<Tool>, k: nat, tool: Tool)
    requires k < |tools|
    ensures TotalOutput(tools[k := tool]) == TotalOutput(tools) - OutputOf(tools[k]) + OutputOf(tool)
  {
    var n := |tools| - 1;
    if k == n {
      assert tools[k := tool][..n] == tools[..n];
    } else {
      assert tools[k := tool][..n] == tools[..n][k := tool];
      TotalOutputUpdate(tools[..n], k, tool);
    }
  }

  lemma TotalOutputPush(tools: seq<Tool>, tool: Tool)
    ensures TotalOutput(tools + [tool]) == TotalOutput(tools) + OutputOf(tool)
  {
    assert (tools + [tool])[..|tools|] == tools;
  }

  lemma RunCommandAdds(tools: seq<Tool>, itemId: string, chunk: string, fallbackId: string) returns (k: nat)
    ensures var after := RunCommand(tools, itemId, chunk, fallbackId);
      && TotalOutput(after) == TotalOutput(tools) + |chunk|
      && k < |after| && after[k].Command? && after[k].status == "running"
      && after[k].output == (if k < |tools| && tools[k].Command? then tools[k].output else "") + chunk
      && forall i :: 0 <= i < |tools| && i != k ==> after[i] == tools[i]
  {
    var byId := if itemId != "" then FindCommand(tools, itemId) else |tools|;
    k := if byId < |tools| then byId else LastRunning(tools, |tools|);
    hide TotalOutput;
    hide FindCommand;
    hide LastRunning;
    if k < |tools| {
      TotalOutputUpdate(tools, k, tools[k].(output := tools[k].output + chunk, status := "running"));
    } else {
      TotalOutputPush(tools, Command(fallbackId, "正在执行命令...", chunk, "running"));
    }
  }

  /** A command delta makes the turn's command output longer by its own length and
      leaves everything else of the turn alone. */
  lemma CommandDeltaAddsItsLength(t: Turn, itemId: string, chunk: string, fallbackId: string) returns (k: nat)
    ensures var t' := Emit(t, CommandDelta(itemId, chunk, fallbackId));
      && TotalOutput(t'.tools) == TotalOutput(t.tools) + |chunk|
      && t' == t.(tools := t'.tools)
      && k < |t'.tools| && t'.tools[k].Command? && t'.tools[k].status == "running"
      && t'.tools[k].output == (if k < |t.tools| && t.tools[k].Command? then t.tools[k].output else "") + chunk
      && forall i :: 0 <= i < |t.tools| && i != k ==> t'.tools[i] == t.tools[i]
  {
    k := RunCommandAdds(t.tools, itemId, chunk, fallbackId);
    hide RunCommand;
    hide TotalOutput;
  }

  ghost predicate Settles(b: Body, id: string)
  {
    (b.ApprovalResolved? && b.requestId == id != "") || (b.ApprovalExpired? && b.known && b.requestId == id)
  }

  /** The status a request shows after an event that settles it. */
  function VerdictOf(b: Body): string
  {
    if b.ApprovalExpired? then "expired" else if b.ApprovalResolved? && b.approve then "approved" else "denied"
  }

  /** If this turn lists the request, it shows one of these statuses. */
  ghost predicate Shows(t: Turn, id: string, allowed: set<string>)
  {
    var i := FindApproval(t.approvals, id);
    i < |t.approvals| ==> t.approvals[i].status in allowed
  }

  lemma {:induction false} FindUpdated(list: seq<Approval>, id: string, k: nat, status: string)
    requires k < |list|
    ensures FindApproval(list[k := Approval(list[k].requestId, status)], id) == FindApproval(list, id)
  {
    if k == 0 {
      assert list[0 := Approval(list[0].requestId, status)][1..] == list[1..];
    } else {
      FindUpdated(list[1..], id, k - 1, status);
      assert list[k := Approval(list[k].requestId, status)][1..] ==
        list[1..][k - 1 := Approval(list[k].requestId, status)];
    }
  }

  lemma {:induction false} FindAppended(list: seq<Approval>, id: string, a: Approval)
    requires a.requestId != id
    ensures FindApproval(list + [a], id) == FindApproval(list, id) + if FindApproval(list, id) == |list| then 1 else 0
  {
    if list == [] {
      assert [a][1..] == [];
    } else {
      assert (list + [a])[1..] == list[1..] + [a];
      FindAppended(list[1..], id, a);
    }
  }

  lemma AnswerShows(t: Turn, id: string, other: string, status: string, allowed: set<string>)
    requires other == id ==> status in allowed
    requires other != id ==> Shows(t, id, allowed)
    ensures Shows(Answer(t, other, status), id, allowed)
  {
    var k := FindApproval(t.approvals, other);
    if k < |t.approvals| { FindUpdated(t.approvals, id, k, status); }
  }

  lemma AskShows(t: Turn, id: string, other: string, allowed: set<string>)
    requires Shows(t, id, allowed) && other != id
    ensures Shows(Ask(t, other), id, allowed)
  {
    var k := FindApproval(t.approvals, other);
    if k < |t.approvals| {
      FindUpdated(t.approvals, id, k, "pending");
    } else {
      FindAppended(t.approvals, id, Approval(other, "pending"));
    }
  }

  lemma ActShows(t: Turn, id: string, b: Body, allowed: set<string>)
    requires Shows(t, id, allowed) && !(b.ApprovalRequested? && b.requestId == id)
    ensures Shows(Act(t, b), id, allowed)
  {
    if b.ApprovalRequested? {
      AskShows(t, id, b.requestId, allowed);
    } else {
      assert Act(t, b).approvals == t.approvals;
    }
  }

  ghost predicate Everywhere(turns: seq<Turn>, id: string, allowed: set<string>)
  {
    forall k :: 0 <= k < |turns| ==> Shows(turns[k], id, allowed)
  }

  lemma GetOrCreateShows(turns: seq<Turn>, target: string, s: Sid, stamp: string, id: string, allowed: set<string>)
    requires Everywhere(turns, id, allowed)
    ensures Everywhere(GetOrCreate(turns, target, "", s, stamp).0, id, allowed)
  {
  }

  lemma AnswerAllShows(turns: seq<Turn>, e: Event, id: string, allowed: set<string>)
    requires e.body.ApprovalResolved? || e.body.ApprovalExpired?
    requires e.body.requestId == id ==> VerdictOf(e.body) in allowed
    requires e.body.requestId != id ==> Everywhere(turns, id, allowed)
    ensures Everywhere(AnswerAll(turns, e.body.requestId, VerdictOf(e.body)), id, allowed)
  {
    var other, status := e.body.requestId, VerdictOf(e.body);
    forall k | 0 <= k < |turns| ensures Shows(Answer(turns[k], other, status), id, allowed) {
      AnswerShows(turns[k], id, other, status, allowed);
    }
    hide Shows;
  }

  lemma StepShows(turns: seq<Turn>, e: Event, id: string, allowed: set<string>)
    requires Everywhere(turns, id, allowed) && !(e.body.ApprovalRequested? && e.body.requestId == id)
    requires Settles(e.body, id) ==> VerdictOf(e.body) in allowed
    ensures Everywhere(Apply(turns, e), id, allowed)
  {
    if Directed(e.body) {
      var (found, k) := GetOrCreate(turns, e.body.turn, "", e.session, e.stamp);
      GetOrCreateShows(turns, e.body.turn, e.session, e.stamp, id, allowed);
      hide GetOrCreate;
      ActShows(found[k], id, e.body, allowed);
      hide Act;
      hide Shows;
    } else {
      UndirectedShows(turns, e, id, allowed);
      hide Apply;
    }
  }

  lemma UndirectedShows(turns: seq<Turn>, e: Event, id: string, allowed: set<string>)
    requires Everywhere(turns, id, allowed) && !Directed(e.body)
    requires Settles(e.body, id) ==> VerdictOf(e.body) in allowed
    ensures Everywhere(Apply(turns, e), id, allowed)
  {
    hide Everywhere;
    var n := |turns| - 1;
    match e.body
    case SessionStarted(prompt) =>
      var first := EmptyTurn("turn-0", e.session, prompt).(status := "streaming");
      NewTurnShows([], first, id, allowed);
      assert [] + [first] == [first];
    case UserInput(request, prompt, inputId) =>
      var i := FindDuplicate(turns, e.session, request, prompt);
      if i < |turns| {
        OneTurnShows(turns, i, turns[i].(prompt := if turns[i].prompt == "" then prompt else turns[i].prompt), id,
          allowed);
      }
      NewTurnShows(turns, EmptyTurn(inputId, e.session, prompt).(request := request, status := "streaming"), id,
        allowed);
    case StatusChanged(status) =>
      if turns != [] {
        OneTurnShows(turns, n, turns[n].(status := StatusAfter(turns[n].status, status)), id, allowed);
      }
    case Finished(status, texts) =>
      if turns != [] { OneTurnShows(turns, n, Finish(turns[n], status, texts), id, allowed); }
    case ApprovalResolved(other, _) =>
      if other != "" { AnswerAllShows(turns, e, id, allowed); }
    case ApprovalExpired(_, known) =>
      if known { AnswerAllShows(turns, e, id, allowed); }
    case _ =>
  }

  lemma OneTurnShows(turns: seq<Turn>, k: nat, t: Turn, id: string, allowed: set<string>)
    requires Everywhere(turns, id, allowed) && k < |turns| && t.approvals == turns[k].approvals
    ensures Everywhere(turns[k := t], id, allowed)
  {
  }

  lemma NewTurnShows(turns: seq<Turn>, t: Turn, id: string, allowed: set<string>)
    requires t.approvals == []
    ensures Everywhere(turns, id, allowed) || turns == [] ==> Everywhere(turns + [t], id, allowed)
  {
  }

  /** Once resolved or expired, a request shows that verdict in every turn that lists it,
      or a verdict of a later event that settles it, over any events, until it is asked
      for again. */
  lemma {:induction false} SettledUntilAskedAgain(turns: seq<Turn>, e: Event, events: seq<Event>, id: string,
      allowed: set<string>)
    requires Settles(e.body, id) && VerdictOf(e.body) in allowed
    requires forall i :: 0 <= i < |events| ==> !(events[i].body.ApprovalRequested? && events[i].body.requestId == id)
    requires forall i :: 0 <= i < |events| && Settles(events[i].body, id) ==> VerdictOf(events[i].body) in allowed
    ensures Everywhere(Fold(Apply(turns, e), events), id, allowed)
  {
    if events == [] {
      AnswerAllShows(turns, e, id, allowed);
      hide Everywhere;
    } else {
      hide Apply;
      hide Everywhere;
      SettledUntilAskedAgain(turns, e, events[..|events| - 1], id, allowed);
      StepShows(Fold(Apply(turns, e), events[..|events| - 1]), events[|events| - 1], id, allowed);
    }
  }

  /** Settling a request ends the waiting of exactly the turns that list it. */
  lemma SettlingEndsWaiting(turns: seq<Turn>, e: Event, id: string, k: nat)
    requires Settles(e.body, id) && k < |turns|
    ensures var t, t' := turns[k], Apply(turns, e)[k];
      if FindApproval(t.approvals, id) == |t.approvals| then t' == t
      else t'.status == (if t.status == "waiting-approval" then "streaming" else t.status) && t'.text == t.text
  {
  }

  /** A requested approval is listed as pending in its turn, which then waits. */
  lemma AskedIsPending(t: Turn, id: string) returns (i: nat)
    ensures var t' := Ask(t, id);
      && i < |t'.approvals| && t'.approvals[i] == Approval(id, "pending") && t'.status == "waiting-approval"
      && t' == t.(status := t'.status, approvals := t'.approvals)
  {
    i := FindApproval(t.approvals, id);
  }

  // ---- What other events show ----

  /** A status or a finish is shown by the last turn, and by no other. */
  lemma LastTurnShows(turns: seq<Turn>, e: Event)
    requires turns != [] && (e.body.StatusChanged? || e.body.Finished?)
    ensures var n, after := |turns| - 1, Apply(turns, e);
      && |after| == |turns| && after[..n] == turns[..n]
      && (e.body.Finished? ==>
        after[n].status == if e.body.status in ["cancelled", "failed"] then e.body.status else "completed")
      && (e.body.StatusChanged? && e.body.status == "running" ==>
        after[n].status == (if turns[n].status == "idle" then "streaming" else turns[n].status))
      && (e.body.StatusChanged? && e.body.status in ["waiting-approval", "completed", "cancelled", "failed"] ==>
        after[n].status == e.body.status)
      && (e.body.StatusChanged? ==> after[n].text == turns[n].text)
      && (e.body.Finished? ==>
        after[n].text == (if turns[n].text == "" then FirstText(e.body.texts) else turns[n].text))
  {
  }

  lemma {:induction false} FirstTextIsFirst(texts: seq<string>)
    ensures FirstText(texts) == "" ==> forall i :: 0 <= i < |texts| ==> texts[i] == ""
    ensures FirstText(texts) != "" ==> exists i :: FirstAt(texts, i)
  {
    if texts == [] {
    } else if texts[0] != "" {
      assert FirstAt(texts, 0);
    } else {
      FirstTextIsFirst(texts[1..]);
      if FirstText(texts) != "" {
        var i :| FirstAt(texts[1..], i);
        assert forall j :: 0 <= j < i + 1 ==> texts[j] == if j == 0 then texts[0] else texts[1..][j - 1];
        assert FirstAt(texts, i + 1);
      }
    }
  }

  ghost predicate FirstAt(texts: seq<string>, i: int)
  {
    0 <= i < |texts| && texts[i] == FirstText(texts) && forall j :: 0 <= j < i ==> texts[j] == ""
  }

  /** The turn already has this request or, for an input without one, streams the same
      prompt in the same session. */
  ghost predicate Repeats(t: Turn, s: Sid, request: string, prompt: string)
  {
    || (request != "" && t.request == request)
    || (request == "" && t.prompt == prompt && t.status == "streaming" && t.session == s)
  }

  /** A user input that repeats nothing becomes the last turn, streaming. */
  lemma InputIsShown(turns: seq<Turn>, e: Event)
    requires e.body.UserInput?
    requires forall i :: 0 <= i < |turns| ==> !Repeats(turns[i], e.session, e.body.request, e.body.prompt)
    ensures Apply(turns, e) ==
      turns + [Turn(e.body.inputId, e.session, e.body.prompt, e.body.request, "streaming", "", [], [], [])]
  {
  }

  /** What an output does to its turn. */
  lemma OutputIsShown(t: Turn, out: Output)
    ensures var t' := Emit(t, out);
      && (out.AgentDelta? ==> t' == t.(text := t.text + out.chunk, status := "streaming"))
      && (out.AgentMessage? ==> t' == t.(text := if t.text == "" then out.text else t.text))
      && (out.UserMessage? ==> t' == t.(prompt := if t.prompt == "" then out.text else t.prompt))
      && (out.DiffUpdated? && CodexFraming.Trim(out.diff) != "" ==> out.diff in t'.diffs)
      && (out.CommandCompleted? ==> exists i :: 0 <= i < |t'.tools| && Completed(t'.tools[i], out))
      && (out.FilesChanged? && out.changes != [] ==>
        var c := out.changes[|out.changes| - 1];
        FileEdit(c.id, c.path, c.kind, c.diff, out.status) in t'.tools)
  {
    if out.CommandCompleted? {
      var i := if out.itemId != "" then FindCommand(t.tools, out.itemId) else LastRunning(t.tools, |t.tools|);
      assert Completed(Emit(t, out).tools[i], out);
    } else if out.FilesChanged? && out.changes != [] {
      var before := ChangeFiles(t.tools, out.changes[..|out.changes| - 1], out.status);
      var c := out.changes[|out.changes| - 1];
      var i := FindFile(before, c.id);
      assert Emit(t, out).tools[i] == FileEdit(c.id, c.path, c.kind, c.diff, out.status);
    }
  }

  /** A completed command or file change with a known id is updated in place. */
  lemma KnownToolIsUpdated(t: Turn, out: Output, i: nat)
    requires i < |t.tools|
    ensures out.CommandCompleted? && out.itemId != "" && t.tools[i].Command? && t.tools[i].id == out.itemId ==>
      |Emit(t, out).tools| == |t.tools|
    ensures out.CommandCompleted? && out.itemId == "" && t.tools[i].Command? && t.tools[i].status == "running" ==>
      |Emit(t, out).tools| == |t.tools|
    ensures out.FilesChanged? && |out.changes| == 1 && t.tools[i].FileEdit? && t.tools[i].id == out.changes[0].id ==>
      |Emit(t, out).tools| == |t.tools|
  {
    if out.CommandCompleted? {
      FindsCommand(t.tools, out.itemId, i);
      if t.tools[i].Command? && t.tools[i].status == "running" { FindsRunning(t.tools, i, |t.tools|); }
    } else if out.FilesChanged? && |out.changes| == 1 {
      assert out.changes[..|out.changes| - 1] == [];
      assert ChangeFiles(t.tools, out.changes[..|out.changes| - 1], out.status) == t.tools;
      FindsFile(t.tools, out.changes[0].id, i);
    }
  }

  lemma {:induction false} FindsCommand(tools: seq<Tool>, id: string, i: nat)
    requires i < |tools|
    ensures tools[i].Command? && tools[i].id == id ==> FindCommand(tools, id) <= i
  {
    if i == 0 {
    } else {
      FindsCommand(tools[1..], id, i - 1);
    }
  }

  lemma {:induction false} FindsRunning(tools: seq<Tool>, i: nat, n: nat)
    requires i < n <= |tools| && tools[i].Command? && tools[i].status == "running"
    ensures i <= LastRunning(tools, n) < n
  {
    if n == i + 1 {
    } else {
      FindsRunning(tools, i, n - 1);
    }
  }

  lemma {:induction false} FindsFile(tools: seq<Tool>, id: string, i: nat)
    requires i < |tools|
    ensures tools[i].FileEdit? && tools[i].id == id ==> FindFile(tools, id) <= i
  {
    if i == 0 {
    } else {
      FindsFile(tools[1..], id, i - 1);
    }
  }

  ghost predicate Completed(tool: Tool, out: Output)
    requires out.CommandCompleted?
  {
    && tool.Command? && tool.status == out.status && (out.command != "" ==> tool.command == out.command)
    && (out.hasOutput ==> tool.output == out.aggregated)
  }

  /** What sub-agent events show among the tools. */
  lemma AgentIsShown(tools: seq<Tool>, agent: string, path: string, call: Call, status: string)
    ensures exists t :: t in StartAgent(tools, agent, path) && t.SubAgent? && t.agent == agent && t.status == "running"
    ensures exists t :: t in CallTool(tools, agent, call, status) && t.SubAgent? && t.agent == agent && t.call == call
    ensures forall i :: 0 <= i < |tools| && tools[i].SubAgent? && tools[i].agent == agent ==>
      FinishAgent(tools, agent, status)[i] == tools[i].(kind := "completed", status := status)
    ensures forall i :: 0 <= i < |tools| && !(tools[i].SubAgent? && tools[i].agent == agent) ==>
      FinishAgent(tools, agent, status)[i] == tools[i]
  {
    var i, j := FindAgent(tools, agent), FindCall(tools, agent, CallKey(call));
    assert StartAgent(tools, agent, path)[i] in StartAgent(tools, agent, path);
    assert CallTool(tools, agent, call, status)[j] in CallTool(tools, agent, call, status);
  }

  /** An event that names an unknown turn adds no row while a turn is pending: the last
      pending one takes the name, with its prompt; otherwise one empty turn is added. */
  lemma PendingIsAdopted(turns: seq<Turn>, target: string, s: Sid, stamp: string, i: nat)
    requires target != "" && !Placeholder(turns) && i < |turns|
    requires forall j :: 0 <= j < |turns| ==> turns[j].id != target
    ensures var (found, k) := GetOrCreate(turns, target, "", s, stamp);
      if Pending(turns[i], s, "") && (forall j :: i < j < |turns| ==> !Pending(turns[j], s, ""))
      then k == i && found == turns[i := turns[i].(id := target)]
      else (forall j :: 0 <= j < |turns| ==> !Pending(turns[j], s, "")) ==>
        found == turns + [EmptyTurn(target, s, "")] && k == |turns|
  {
    var p := LastPending(turns, s, "", |turns|);
    hide LastPending;
  }

  /** The one placeholder turn takes the name of the first event directed at a turn. */
  lemma PlaceholderIsAdopted(turns: seq<Turn>, target: string, s: Sid, stamp: string)
    requires target != "" && Placeholder(turns)
    ensures GetOrCreate(turns, target, "", s, stamp) == ([turns[0].(id := target)], 0)
  {
    var t := turns[0].(id := target);
    assert Adopt(turns[0], target, "") == t;
    assert turns[0 := t] == [t];
  }

  /** An input that repeats a turn adds none and changes at most an empty prompt. */
  lemma DuplicateAddsNothing(turns: seq<Turn>, e: Event, i: nat)
    requires e.body.UserInput? && i < |turns| && Repeats(turns[i], e.session, e.body.request, e.body.prompt)
    ensures |Apply(turns, e)| == |turns|
    ensures forall j :: 0 <= j < |turns| ==>
      Apply(turns, e)[j] == turns[j] || Apply(turns, e)[j] == turns[j].(prompt := e.body.prompt)
  {
    FindsDuplicate(turns, e.session, e.body.request, e.body.prompt, i);
  }

  lemma {:induction false} FindsDuplicate(turns: seq<Turn>, s: Sid, request: string, prompt: string, i: nat)
    requires i < |turns| && Duplicates(turns[i], s, request, prompt)
    ensures FindDuplicate(turns, s, request, prompt) <= i
  {
    if i == 0 || Duplicates(turns[0], s, request, prompt) {
    } else {
      FindsDuplicate(turns[1..], s, request, prompt, i - 1);
    }
  }

  // ---- Turn ids ----

  ghost predicate DistinctIds(turns: seq<Turn>)
  {
    forall i, j :: 0 <= i < j < |turns| ==> turns[i].id != turns[j].id
  }

  /** A user input names a turn of its own. */
  ghost predicate FreshInput(turns: seq<Turn>, e: Event)
  {
    e.body.UserInput? ==> forall i :: 0 <= i < |turns| ==> turns[i].id != e.body.inputId
  }

  lemma GetOrCreateKeepsIds(turns: seq<Turn>, target: string, fallback: string, s: Sid, stamp: string)
    requires DistinctIds(turns)
    ensures DistinctIds(GetOrCreate(turns, target, fallback, s, stamp).0)
    ensures var (found, k) := GetOrCreate(turns, target, fallback, s, stamp);
      found[k].id == TargetId(turns, target, stamp)
  {
  }

  lemma StepKeepsIds(turns: seq<Turn>, e: Event)
    requires DistinctIds(turns) && FreshInput(turns, e)
    ensures DistinctIds(Apply(turns, e))
  {
    if Directed(e.body) {
      GetOrCreateKeepsIds(turns, e.body.turn, "", e.session, e.stamp);
      var (found, k) := GetOrCreate(turns, e.body.turn, "", e.session, e.stamp);
      hide GetOrCreate;
      assert Act(found[k], e.body).id == found[k].id;
      hide Act;
    } else {
      UndirectedKeepsIds(turns, e);
      hide Apply;
    }
  }

  lemma UndirectedKeepsIds(turns: seq<Turn>, e: Event)
    requires !Directed(e.body) && DistinctIds(turns) && FreshInput(turns, e)
    ensures DistinctIds(Apply(turns, e))
  {
  }

  ghost predicate FreshInputs(turns: seq<Turn>, events: seq<Event>)
  {
    events != [] ==>
      FreshInputs(turns, events[..|events| - 1]) &&
      FreshInput(Fold(turns, events[..|events| - 1]), events[|events| - 1])
  }

  /** Turn ids stay distinct as long as user inputs bring new ones. */
  lemma {:induction false} FoldKeepsIds(turns: seq<Turn>, events: seq<Event>)
    requires DistinctIds(turns) && FreshInputs(turns, events)
    ensures DistinctIds(Fold(turns, events))
  {
    if events == [] {
    } else {
      FoldKeepsIds(turns, events[..|events| - 1]);
      StepKeepsIds(Fold(turns, events[..|events| - 1]), events[|events| - 1]);
    }
  }

  /** An event that names a turn lands in a turn of that id. */
  lemma LandsInItsTurn(turns: seq<Turn>, e: Event) returns (k: nat)
    requires Directed(e.body) && e.body.turn != "" && DistinctIds(turns)
    ensures k < |Apply(turns, e)| && Apply(turns, e)[k].id == e.body.turn
    ensures forall i :: 0 <= i < |turns| && i != k ==> Apply(turns, e)[i] == turns[i]
    ensures |Apply(turns, e)| <= |turns| + 1
  {
    GetOrCreateKeepsIds(turns, e.body.turn, "", e.session, e.stamp);
    var (found, k') := GetOrCreate(turns, e.body.turn, "", e.session, e.stamp);
    k := k';
    assert Act(found[k], e.body).id == found[k].id;
    hide Act;
  }

  // ---- Batch and live ----

  /** A session with a prompt, and the status its placeholder shows. */
  datatype Session = Session(id: Sid, prompt: string, status: string)

  predicate IsInput(e: Event)
  {
    e.body.UserInput? || (e.body.SessionOutput? && e.body.out.UserMessage? && e.body.out.structured)
  }

  predicate HasInput(events: seq<Event>)
  {
    exists i :: 0 <= i < |events| && IsInput(events[i])
  }

  /** The placeholder turn of a session whose history holds no user input. */
  function Initial(events: seq<Event>, session: Session): seq<Turn>
  {
    if session.prompt == "" || HasInput(events) then [] else
    var status :=
      if session.status == "running" then "streaming"
      else if session.status == "cancelled" then "cancelled"
      else "completed";
    [EmptyTurn("initial-turn", session.id, session.prompt).(status := status)]
  }

  function Aggregate(events: seq<Event>, session: Session): seq<Turn>
  {
    Fold(Initial(events, session), events)
  }

  /** The placeholder is there exactly for a prompt without an input event, and shows the
      session's status. */
  lemma InitialShows(events: seq<Event>, session: Session)
    ensures Initial(events, session) != [] <==> session.prompt != "" && !HasInput(events)
    ensures Initial(events, session) != [] ==>
      var t := Initial(events, session)[0];
      && |Initial(events, session)| == 1 && t.prompt == session.prompt && t.session == session.id && t.text == ""
      && (t.status == "streaming" <==> session.status == "running")
      && (t.status == "cancelled" <==> session.status == "cancelled")
      && t.status in ["streaming", "cancelled", "completed"]
  {
  }

  lemma {:induction false} FoldConcat(turns: seq<Turn>, a: seq<Event>, b: seq<Event>)
    ensures Fold(turns, a + b) == Fold(Fold(turns, a), b)
  {
    hide Apply;
    if b == [] {
      assert a + b == a;
    } else {
      assert (a + b)[..|a + b| - 1] == a + b[..|b| - 1];
      FoldConcat(turns, a, b[..|b| - 1]);
    }
  }

  /** The initial-placeholder decision is the same for `a` and for `a + b`. */
  predicate SameStart(a: seq<Event>, b: seq<Event>, session: Session)
  {
    session.prompt == "" || HasInput(a) || !HasInput(b)
  }

  lemma SameStartIff(a: seq<Event>, b: seq<Event>, session: Session)
    ensures SameStart(a, b, session) <==> Initial(a + b, session) == Initial(a, session)
  {
    var all := a + b;
    if HasInput(a) {
      var i :| 0 <= i < |a| && IsInput(a[i]);
      assert IsInput(all[i]);
    }
    if HasInput(b) {
      var i :| 0 <= i < |b| && IsInput(b[i]);
      assert IsInput(all[|a| + i]);
    }
    if HasInput(all) {
      var i :| 0 <= i < |all| && IsInput(all[i]);
      assert if i < |a| then IsInput(a[i]) else IsInput(b[i - |a|]);
    }
  }

  /** Reloading the whole history gives what live updates gave, whenever the
      placeholder decision is the same. */
  lemma LiveEqualsBatch(a: seq<Event>, b: seq<Event>, session: Session)
    requires SameStart(a, b, session)
    ensures Aggregate(a + b, session) == Fold(Aggregate(a, session), b)
  {
    SameStartIff(a, b, session);
    FoldConcat(Initial(a, session), a, b);
  }

  // ---- When the placeholder decision changes ----

  /** Events that only touch turns which exist. */
  predicate Passive(e: Event)
  {
    !Directed(e.body) && !e.body.SessionStarted? && !e.body.UserInput?
  }

  lemma {:induction false} PassiveOnNothing(events: seq<Event>)
    requires forall i :: 0 <= i < |events| ==> Passive(events[i])
    ensures Fold([], events) == []
  {
    if events == [] {
    } else {
      PassiveOnNothing(events[..|events| - 1]);
      assert Passive(events[|events| - 1]);
    }
  }

  /** A placeholder that no event was directed at. */
  ghost predicate Untouched(p: Turn, session: Session)
  {
    && p.id == "initial-turn" && p.session == session.id && p.prompt == session.prompt
    && p.request == "" && p.approvals == []
  }

  lemma {:induction false} PassiveOnPlaceholder(p: Turn, events: seq<Event>, session: Session)
    requires Untouched(p, session) && forall i :: 0 <= i < |events| ==> Passive(events[i])
    ensures |Fold([p], events)| == 1 && Untouched(Fold([p], events)[0], session)
  {
    if events == [] {
    } else {
      PassiveOnPlaceholder(p, events[..|events| - 1], session);
      assert Passive(events[|events| - 1]);
    }
  }

  /** The placeholder as live updates show it after passive events. */
  function StandingPlaceholder(a: seq<Event>, session: Session): (p: Turn)
    requires session.prompt != "" && forall i :: 0 <= i < |a| ==> Passive(a[i])
    ensures Aggregate(a, session) == [p] && Untouched(p, session)
  {
    NoInputIn(a);
    PassiveOnPlaceholder(Initial(a, session)[0], a, session);
    Aggregate(a, session)[0]
  }

  lemma NoInputIn(a: seq<Event>)
    requires forall i :: 0 <= i < |a| ==> Passive(a[i])
    ensures !HasInput(a)
  {
  }

  lemma FirstInputBatch(a: seq<Event>, e: Event, session: Session)
    requires e.body.UserInput? && forall i :: 0 <= i < |a| ==> Passive(a[i])
    ensures Aggregate(a + [e], session) == Apply([], e) && |Apply([], e)| == 1
  {
    var all := a + [e];
    assert all[|a|] == e && IsInput(all[|a|]);
    assert HasInput(all);
    assert all[..|all| - 1] == a;
    PassiveOnNothing(a);
  }

  /** When the first user input arrives live after passive events only, live updates
      show the placeholder as one turn more than a reload, if and only if the input
      does not repeat the placeholder's prompt while it is streaming. */
  lemma PlaceholderStaysIff(a: seq<Event>, e: Event, session: Session)
    requires session.prompt != "" && e.body.UserInput? && forall i :: 0 <= i < |a| ==> Passive(a[i])
    ensures var p := StandingPlaceholder(a, session);
      var live, reload := Fold(Aggregate(a, session), [e]), Aggregate(a + [e], session);
      && (|live| == |reload| + 1 <==> !Duplicates(p, e.session, e.body.request, e.body.prompt))
      && (|live| == |reload| + 1 ==> live == [p] + reload)
      && (|live| == |reload| || |live| == |reload| + 1)
  {
    var p := StandingPlaceholder(a, session);
    FirstInputBatch(a, e, session);
    assert [e][..0] == [] && [e][0] == e;
    assert Fold([p], [e]) == Apply([p], e);
    assert [p][1..] == [];
  }

  predicate Reserved(id: string) { id == "turn-0" || id == "initial-turn" }

  /** Events that name no placeholder. */
  predicate Ordinary(e: Event)
  {
    (Directed(e.body) ==> !Reserved(e.body.turn)) && (e.body.UserInput? ==> !Reserved(e.body.inputId))
  }

  /** A finished placeholder in front of ordinary turns. */
  ghost predicate Beside(p: Turn, turns: seq<Turn>)
  {
    && p.id == "initial-turn" && p.request == "" && p.approvals == []
    && p.status != "streaming" && p.status != "waiting-approval"
    && turns != [] && forall i :: 0 <= i < |turns| ==> !Reserved(turns[i].id)
  }

  lemma IndexShifts(p: Turn, turns: seq<Turn>, id: string)
    requires p.id != id
    ensures IndexOf([p] + turns, id) == IndexOf(turns, id) + 1
  {
    assert ([p] + turns)[1..] == turns;
  }

  lemma {:induction false} PendingShifts(p: Turn, turns: seq<Turn>, s: Sid, fallback: string, n: nat)
    requires n <= |turns| && !Pending(p, s, fallback)
    ensures LastPending([p] + turns, s, fallback, n + 1) == LastPending(turns, s, fallback, n) + 1
  {
    var all := [p] + turns;
    if n == 0 {
      assert all[0] == p;
      assert LastPending(all, s, fallback, 0) == |all|;
    } else {
      assert all[n] == turns[n - 1];
      PendingShifts(p, turns, s, fallback, n - 1);
    }
  }

  lemma ConsUpdate(p: Turn, turns: seq<Turn>, k: nat, t: Turn)
    requires k < |turns|
    ensures ([p] + turns)[k + 1] == turns[k] && ([p] + turns)[k + 1 := t] == [p] + turns[k := t]
    ensures Beside(p, turns) && !Reserved(t.id) ==> Beside(p, turns[k := t])
  {
  }

  lemma ConsPush(p: Turn, turns: seq<Turn>, t: Turn)
    ensures ([p] + turns) + [t] == [p] + (turns + [t])
    ensures Beside(p, turns) && !Reserved(t.id) ==> Beside(p, turns + [t])
  {
  }

  lemma TargetBeside(p: Turn, turns: seq<Turn>, target: string, stamp: string)
    requires Beside(p, turns) && !Reserved(target)
    ensures TargetId([p] + turns, target, stamp) == TargetId(turns, target, stamp) &&
      !Reserved(TargetId(turns, target, stamp))
    ensures !Placeholder([p] + turns) && !Placeholder(turns) && p.id == "initial-turn"
  {
    var all := [p] + turns;
    assert all[|all| - 1] == turns[|turns| - 1];
  }

  lemma GetOrCreateBeside(p: Turn, turns: seq<Turn>, target: string, s: Sid, stamp: string)
    requires Beside(p, turns) && !Reserved(target)
    ensures var (found, k) := GetOrCreate(turns, target, "", s, stamp);
      GetOrCreate([p] + turns, target, "", s, stamp) == ([p] + found, k + 1) && Beside(p, found)
  {
    var id := TargetId(turns, target, stamp);
    TargetBeside(p, turns, target, stamp);
    IndexShifts(p, turns, id);
    PendingShifts(p, turns, s, "", |turns|);
    hide IndexOf;
    hide LastPending;
    hide TargetId;
    hide Placeholder;
    hide Beside;
    hide Pending;
    var i, q := IndexOf(turns, id), LastPending(turns, s, "", |turns|);
    if i < |turns| {
    } else if q < |turns| {
      ConsUpdate(p, turns, q, Adopt(turns[q], id, ""));
    } else {
      ConsPush(p, turns, EmptyTurn(id, s, ""));
    }
  }

  lemma BesideIds(p: Turn, turns: seq<Turn>, k: nat)
    requires Beside(p, turns) && k < |turns|
    ensures !Reserved(turns[k].id)
  {
  }

  lemma DirectedBeside(p: Turn, turns: seq<Turn>, e: Event)
    requires Beside(p, turns) && Directed(e.body) && !Reserved(e.body.turn)
    ensures Apply([p] + turns, e) == [p] + Apply(turns, e) && Beside(p, Apply(turns, e))
  {
    hide Beside;
    hide GetOrCreate;
    GetOrCreateBeside(p, turns, e.body.turn, e.session, e.stamp);
    var (found, k) := GetOrCreate(turns, e.body.turn, "", e.session, e.stamp);
    BesideIds(p, found, k);
    assert Act(found[k], e.body).id == found[k].id;
    ConsUpdate(p, found, k, Act(found[k], e.body));
    hide Act;
  }

  lemma InputBeside(p: Turn, turns: seq<Turn>, s: Sid, request: string, prompt: string, id: string)
    requires Beside(p, turns) && !Reserved(id)
    ensures Input([p] + turns, s, request, prompt, id) == [p] + Input(turns, s, request, prompt, id)
    ensures Beside(p, Input(turns, s, request, prompt, id))
  {
    var all := [p] + turns;
    assert all[1..] == turns && !Duplicates(p, s, request, prompt);
    var i := FindDuplicate(turns, s, request, prompt);
    assert FindDuplicate(all, s, request, prompt) == i + 1;
    if i < |turns| {
      var t := turns[i].(prompt := if turns[i].prompt == "" then prompt else turns[i].prompt);
      assert all[i + 1] == turns[i] && all[i + 1 := t] == [p] + turns[i := t];
    } else {
      var t := EmptyTurn(id, s, prompt).(request := request, status := "streaming");
      assert all + [t] == [p] + (turns + [t]);
    }
  }

  lemma AnswersBeside(p: Turn, turns: seq<Turn>, id: string, status: string)
    requires Beside(p, turns)
    ensures AnswerAll([p] + turns, id, status) == [p] + AnswerAll(turns, id, status)
    ensures Beside(p, AnswerAll(turns, id, status))
  {
    assert Answer(p, id, status) == p;
  }

  lemma LastBeside(p: Turn, turns: seq<Turn>, t: Turn)
    requires Beside(p, turns) && t.id == turns[|turns| - 1].id
    ensures ([p] + turns)[|turns|] == turns[|turns| - 1]
    ensures ([p] + turns)[|turns| := t] == [p] + turns[|turns| - 1 := t] && Beside(p, turns[|turns| - 1 := t])
  {
  }

  lemma StepBeside(p: Turn, turns: seq<Turn>, e: Event)
    requires Beside(p, turns) && Ordinary(e)
    ensures Apply([p] + turns, e) == [p] + Apply(turns, e) && Beside(p, Apply(turns, e))
  {
    if Directed(e.body) {
      DirectedBeside(p, turns, e);
    } else {
      hide Beside;
      var n := |turns| - 1;
      match e.body
      case UserInput(request, prompt, id) => InputBeside(p, turns, e.session, request, prompt, id);
      case StatusChanged(status) =>
        BesideIsShown(p, turns);
        LastBeside(p, turns, turns[n].(status := StatusAfter(turns[n].status, status)));
      case Finished(status, texts) =>
        BesideIsShown(p, turns);
        LastBeside(p, turns, Finish(turns[n], status, texts));
      case ApprovalResolved(id, approve) => AnswersBeside(p, turns, id, if approve then "approved" else "denied");
      case ApprovalExpired(id, _) => AnswersBeside(p, turns, id, "expired");
      case _ => BesideIsShown(p, turns);
    }
  }

  lemma BesideIsShown(p: Turn, turns: seq<Turn>)
    requires Beside(p, turns)
    ensures turns != [] && [p] + turns != []
  {
  }

  lemma {:induction false} FoldBeside(p: Turn, turns: seq<Turn>, events: seq<Event>)
    requires Beside(p, turns) && forall i :: 0 <= i < |events| ==> Ordinary(events[i])
    ensures Fold([p] + turns, events) == [p] + Fold(turns, events) && Beside(p, Fold(turns, events))
  {
    hide Beside;
    hide Apply;
    if events == [] {
    } else {
      var init, last := events[..|events| - 1], events[|events| - 1];
      assert Ordinary(last);
      FoldBeside(p, turns, init);
      StepBeside(p, Fold(turns, init), last);
    }
  }

  /** If the placeholder had finished, it stays in front of what a reload shows for as
      long as the session goes on. */
  lemma PlaceholderStaysForGood(a: seq<Event>, e: Event, rest: seq<Event>, session: Session)
    requires session.prompt != "" && e.body.UserInput? && forall i :: 0 <= i < |a| ==> Passive(a[i])
    requires Ordinary(e) && forall i :: 0 <= i < |rest| ==> Ordinary(rest[i])
    requires var p := StandingPlaceholder(a, session); p.status != "streaming" && p.status != "waiting-approval"
    ensures Fold(Aggregate(a, session), [e] + rest) ==
      [StandingPlaceholder(a, session)] + Aggregate(a + [e] + rest, session)
  {
    hide *;
    var p := StandingPlaceholder(a, session);
    FirstBeside(a, e, session);
    FoldConcat(Aggregate(a, session), [e], rest);
    FoldBeside(p, Aggregate(a + [e], session), rest);
    ReloadContinues(a, e, rest, session);
  }

  lemma FirstBeside(a: seq<Event>, e: Event, session: Session)
    requires session.prompt != "" && e.body.UserInput? && forall i :: 0 <= i < |a| ==> Passive(a[i])
    requires Ordinary(e)
    requires var p := StandingPlaceholder(a, session); p.status != "streaming" && p.status != "waiting-approval"
    ensures var p := StandingPlaceholder(a, session);
      Fold(Aggregate(a, session), [e]) == [p] + Aggregate(a + [e], session) && Beside(p, Aggregate(a + [e], session))
  {
    PlaceholderStaysIff(a, e, session);
    FirstInputBatch(a, e, session);
    assert Apply([], e)[0].id == e.body.inputId;
    hide Fold;
  }

  lemma ReloadContinues(a: seq<Event>, e: Event, rest: seq<Event>, session: Session)
    requires e.body.UserInput?
    ensures Aggregate(a + [e] + rest, session) == Fold(Aggregate(a + [e], session), rest)
  {
    assert IsInput((a + [e])[|a|]);
    LiveEqualsBatch(a + [e], rest, session);
  }

  // ---- The loops ----

  /** The backward search for a pending turn. */
  method FindPendingTurn(turns: seq<Turn>, s: Sid, fallback: string) returns (index: int)
    ensures index == -1 <==> LastPending(turns, s, fallback, |turns|) == |turns|
    ensures index != -1 ==> index == LastPending(turns, s, fallback, |turns|)
  {
    index := |turns| - 1;
    while index >= 0
      invariant -1 <= index < |turns|
      invariant LastPending(turns, s, fallback, |turns|) == LastPending(turns, s, fallback, index + 1)
    {
      if Pending(turns[index], s, fallback) { return; }
      index := index - 1;
    }
  }

  method GetOrCreateTurn(turns: seq<Turn>, target: string, fallback: string, s: Sid, stamp: string)
      returns (r: seq<Turn>, k: nat)
    ensures (r, k) == GetOrCreate(turns, target, fallback, s, stamp)
  {
    var id := if target != "" then target else if |turns| > 0 then turns[|turns| - 1].id else stamp;
    if Placeholder(turns) {
      return turns[0 := Adopt(turns[0], id, fallback)], 0;
    }
    var existing := 0;
    while existing < |turns| && turns[existing].id != id
      invariant existing <= |turns|
      invariant forall j :: 0 <= j < existing ==> turns[j].id != id
    {
      existing := existing + 1;
    }
    if existing < |turns| { return turns, existing; }
    var pending := FindPendingTurn(turns, s, fallback);
    if pending >= 0 {
      return turns[pending := Adopt(turns[pending], id, fallback)], pending;
    }
    return turns + [EmptyTurn(id, s, fallback)], |turns|;
  }

  /** The loop over all turns of approval-resolved and approval-expired. */
  method AnswerApprovals(turns: seq<Turn>, id: string, status: string) returns (r: seq<Turn>)
    ensures r == AnswerAll(turns, id, status)
  {
    r := turns;
    for i := 0 to |turns|
      invariant |r| == |turns|
      invariant forall j :: 0 <= j < i ==> r[j] == Answer(turns[j], id, status)
      invariant forall j :: i <= j < |r| ==> r[j] == turns[j]
    {
      r := r[i := Answer(r[i], id, status)];
    }
  }

  /** aggregateEventsToTurns */
  method AggregateEventsToTurns(events: seq<Event>, session: Session) returns (turns: seq<Turn>)
    ensures turns == Aggregate(events, session)
  {
    turns := Initial(events, session);
    for i := 0 to |events|
      invariant turns == Fold(Initial(events, session), events[..i])
    {
      assert events[..i + 1][..i] == events[..i];
      turns := Apply(turns, events[i]);
    }
    assert events[..|events|] == events;
  }
}
