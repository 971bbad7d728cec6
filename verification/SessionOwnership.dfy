/** Sessions and events in the relay's memory store (cloud-relay-go/store.go,
    session_sync.go): a session belongs to its first owner and device, whatever
    other accounts sync or append. */
module SessionOwnership {
  import opened OrderedMaps

  type Sid = string
  type User = string
  type Device = string

  const MAX_SYNC_ITEMS: nat := 10_000

  /** `updated` is the parsed UpdatedAt, None when it is empty. */
  datatype Record = Record(
    owner: User, device: Device, title: string, workspace: string,
    status: string, policy: string, updated: Option<int>)

  datatype Event = Event(payload: string, eventSeq: nat)

  datatype Store = Store(sessions: map<Sid, Record>, events: map<Sid, seq<Event>>)

  /** A normalized item of a sync; its owner and device are those of the sender. */
  datatype Item = Item(id: Sid, title: string, workspace: string, status: string, policy: string, updated: int)

  function RecordOf(x: Item, owner: User, device: Device): Record
  {
    Record(owner, device, x.title, x.workspace, x.status, x.policy, Some(x.updated))
  }

  // ---- One session, seen by one sync ----

  predicate OwnedBy(r: Record, owner: User, device: Device)
  {
    (r.owner == "" || r.owner == owner) && (r.device == "" || r.device == device)
  }

  predicate Complete(r: Record) { r.updated.Some? && r.title != "" && r.workspace != "" }

  predicate IsNewer(x: Item, existing: Record)
  {
    !Complete(existing) || x.updated >= existing.updated.value
  }

  predicate Accepts(e: Option<Record>, x: Item, owner: User, device: Device)
  {
    e.None? || (OwnedBy(e.value, owner, device) && IsNewer(x, e.value))
  }

  // ---- The store's operations ----

  function Lookup(sessions: map<Sid, Record>, id: Sid): Option<Record>
  {
    if id in sessions then Some(sessions[id]) else None
  }

  function SyncOne(sessions: map<Sid, Record>, x: Item, owner: User, device: Device): map<Sid, Record>
  {
    if Accepts(Lookup(sessions, x.id), x, owner, device) then sessions[x.id := RecordOf(x, owner, device)] else sessions
  }

  function SyncAll(sessions: map<Sid, Record>, items: seq<Item>, owner: User, device: Device): map<Sid, Record>
  {
    if items == [] then sessions
    else SyncOne(SyncAll(sessions, items[..|items| - 1], owner, device), items[|items| - 1], owner, device)
  }

  /** How many items of a sync are accepted. */
  function AcceptedCount(sessions: map<Sid, Record>, items: seq<Item>, owner: User, device: Device): nat
  {
    if items == [] then 0 else
    var n := |items| - 1;
    AcceptedCount(sessions, items[..n], owner, device) +
    if Accepts(Lookup(SyncAll(sessions, items[..n], owner, device), items[n].id), items[n], owner, device) then 1 else 0
  }

  datatype SyncReply = Synced(accepted: nat, skipped: nat) | Unauthorized | Invalid

  /** Whether a sync is stored at all; a malformed item is None. */
  function Refusal(blank: bool, items: seq<Option<Item>>): Option<SyncReply>
  {
    if blank then Some(Unauthorized)
    else if |items| > MAX_SYNC_ITEMS then Some(Invalid)
    else if exists i :: 0 <= i < |items| && items[i].None? then Some(Invalid)
    else None
  }

  function Values(items: seq<Option<Item>>): (r: seq<Item>)
    requires forall i :: 0 <= i < |items| ==> items[i].Some?
    ensures |r| == |items| && forall i :: 0 <= i < |r| ==> r[i] == items[i].value
  {
    seq(|items|, i requires 0 <= i < |items| => items[i].value)
  }

  predicate MayAppend(st: Store, s: Sid, owner: User)
  {
    s in st.sessions && st.sessions[s].owner != "" ==> st.sessions[s].owner == owner
  }

  function EventsOf(st: Store, s: Sid): seq<Event> { if s in st.events then st.events[s] else [] }

  function Append(st: Store, s: Sid, owner: User, payload: string, now: int): Store
  {
    if !MayAppend(st, s, owner) then st else
    Store(
      if s in st.sessions then st.sessions else st.sessions[s := Record(owner, "", "", "", "", "", Some(now))],
      st.events[s := EventsOf(st, s) + [Event(payload, |EventsOf(st, s)| + 1)]])
  }

  // ---- Runs by any accounts ----

  datatype Step =
    | Sync(owner: User, device: Device, items: seq<Item>)
    | AppendEvent(owner: User, s: Sid, payload: string, now: int)

  function Next(st: Store, step: Step): Store
  {
    match step
    case Sync(owner, device, items) => st.(sessions := SyncAll(st.sessions, items, owner, device))
    case AppendEvent(owner, s, payload, now) => Append(st, s, owner, payload, now)
  }

  function Run(st: Store, steps: seq<Step>): Store
  {
    if steps == [] then st else Next(Run(st, steps[..|steps| - 1]), steps[|steps| - 1])
  }

  /** The owner and device of a session, once set, stay. */
  ghost predicate Kept(before: Option<Record>, after: Option<Record>)
  {
    before.Some? ==>
      && after.Some?
      && (before.value.owner != "" ==> after.value.owner == before.value.owner)
      && (before.value.device != "" ==> after.value.device == before.value.device)
  }

  lemma {:induction false} SyncKeepsOwners(sessions: map<Sid, Record>, items: seq<Item>, owner: User, device: Device,
      s: Sid)
    requires owner != "" && device != ""
    ensures Kept(Lookup(sessions, s), Lookup(SyncAll(sessions, items, owner, device), s))
  {
    if items == [] {
    } else {
      SyncKeepsOwners(sessions, items[..|items| - 1], owner, device, s);
    }
  }

  /** A sync leaves alone what another account or another device owns. */
  lemma {:induction false} SyncSparesOthers(sessions: map<Sid, Record>, items: seq<Item>, owner: User, device: Device,
      s: Sid)
    requires s in sessions && !OwnedBy(sessions[s], owner, device)
    ensures Lookup(SyncAll(sessions, items, owner, device), s) == Some(sessions[s])
  {
    if items == [] {
    } else {
      SyncSparesOthers(sessions, items[..|items| - 1], owner, device, s);
    }
  }

  ghost predicate WellFormed(step: Step)
  {
    step.Sync? ==> step.owner != "" && step.device != ""
  }

  /** Event numbers of every session are exactly 1..n. */
  ghost predicate Counted(st: Store)
  {
    forall s :: s in st.events ==> forall i :: 0 <= i < |st.events[s]| ==> st.events[s][i].eventSeq == i + 1
  }

  /** In every run: owners and devices stay once set, event lists only grow, and
      each session's events are numbered 1..n. */
  lemma {:induction false} EveryRunKeepsOwnersAndNumbers(st: Store, steps: seq<Step>, s: Sid)
    requires Counted(st) && forall i :: 0 <= i < |steps| ==> WellFormed(steps[i])
    ensures var st' := Run(st, steps);
      && Counted(st')
      && (s in st.sessions ==> s in st'.sessions)
      && (s in st.sessions && st.sessions[s].owner != "" ==> st'.sessions[s].owner == st.sessions[s].owner)
      && (s in st.sessions && st.sessions[s].device != "" ==> st'.sessions[s].device == st.sessions[s].device)
      && EventsOf(st, s) <= EventsOf(st', s)
  {
    if steps == [] {
    } else {
      var init, last := steps[..|steps| - 1], steps[|steps| - 1];
      EveryRunKeepsOwnersAndNumbers(st, init, s);
      StepKeepsCounted(Run(st, init), last);
      StepKeepsOwner(Run(st, init), last, s);
      hide Next;
      hide Counted;
    }
  }

  lemma StepKeepsCounted(st: Store, step: Step)
    requires Counted(st)
    ensures Counted(Next(st, step))
  {
  }

  lemma StepKeepsOwner(st: Store, step: Step, s: Sid)
    requires WellFormed(step)
    ensures Kept(Lookup(st.sessions, s), Lookup(Next(st, step).sessions, s))
    ensures EventsOf(st, s) <= EventsOf(Next(st, step), s)
  {
    match step
    case Sync(owner, device, items) => SyncKeepsOwners(st.sessions, items, owner, device, s);
    case AppendEvent(owner, o, payload, now) =>
  }

  /** Whatever other accounts do, a session of `v` and its events do not change. */
  lemma {:induction false} OtherAccountsChangeNothing(st: Store, steps: seq<Step>, s: Sid)
    requires s in st.sessions && st.sessions[s].owner != ""
    requires forall i :: 0 <= i < |steps| ==> steps[i].owner != st.sessions[s].owner
    ensures var st' := Run(st, steps);
      s in st'.sessions && st'.sessions[s] == st.sessions[s] && EventsOf(st', s) == EventsOf(st, s)
  {
    if steps == [] {
    } else {
      var init, last := steps[..|steps| - 1], steps[|steps| - 1];
      OtherAccountsChangeNothing(st, init, s);
      var mid := Run(st, init);
      match last
      case Sync(owner, device, items) => SyncSparesOthers(mid.sessions, items, owner, device, s);
      case AppendEvent(owner, o, payload, now) =>
    }
  }

  // ---- Repeating a sync ----

  /** The items of a sync as one session sees them. */
  function Fold(id: Sid, e: Option<Record>, items: seq<Item>, owner: User, device: Device): Option<Record>
  {
    if items == [] then e else
    var d := Fold(id, e, items[..|items| - 1], owner, device);
    var x := items[|items| - 1];
    if x.id == id && Accepts(d, x, owner, device) then Some(RecordOf(x, owner, device)) else d
  }

  lemma {:induction false} SyncIsFold(sessions: map<Sid, Record>, items: seq<Item>, owner: User, device: Device,
      id: Sid)
    ensures Lookup(SyncAll(sessions, items, owner, device), id) == Fold(id, Lookup(sessions, id), items, owner, device)
  {
    if items == [] {
    } else {
      SyncIsFold(sessions, items[..|items| - 1], owner, device, id);
    }
  }

  ghost predicate Ours(e: Option<Record>, owner: User, device: Device)
  {
    e.None? || OwnedBy(e.value, owner, device)
  }

  /** Two runs of the same items, from `e` and from `r`: the second has caught up, or
      has not moved, or holds something older than the first. */
  ghost predicate Related(d: Option<Record>, d': Option<Record>, r: Record)
  {
    || d == d' || d' == Some(r)
    || (d.Some? && d'.Some? && Complete(d.value) && d'.value.updated.Some? &&
      d'.value.updated.value < d.value.updated.value)
  }

  lemma {:induction false} RunsStayRelated(id: Sid, e: Option<Record>, r: Record, items: seq<Item>, owner: User,
      device: Device)
    requires Ours(e, owner, device) && OwnedBy(r, owner, device)
    ensures var d, d' := Fold(id, e, items, owner, device), Fold(id, Some(r), items, owner, device);
      Related(d, d', r) && Ours(d, owner, device) && Ours(d', owner, device)
  {
    if items == [] {
    } else {
      RunsStayRelated(id, e, r, items[..|items| - 1], owner, device);
    }
  }

  lemma {:induction false} ForeignUntouched(id: Sid, e: Option<Record>, items: seq<Item>, owner: User, device: Device)
    requires !Ours(e, owner, device)
    ensures Fold(id, e, items, owner, device) == e
  {
    if items == [] {
    } else {
      ForeignUntouched(id, e, items[..|items| - 1], owner, device);
    }
  }

  lemma {:induction false} FoldTwice(id: Sid, e: Option<Record>, items: seq<Item>, owner: User, device: Device)
    requires Ours(e, owner, device)
    ensures var r := Fold(id, e, items, owner, device); Fold(id, r, items, owner, device) == r
  {
    if items == [] {
    } else {
      var init, x := items[..|items| - 1], items[|items| - 1];
      var d := Fold(id, e, init, owner, device);
      if x.id == id && Accepts(d, x, owner, device) {
        RunsStayRelated(id, e, RecordOf(x, owner, device), init, owner, device);
      } else {
        FoldTwice(id, e, init, owner, device);
      }
    }
  }

  /** A repeated sync of the same normalized items changes nothing, even when it names
      a session several times with different dates and missing titles. */
  lemma SyncIsIdempotent(sessions: map<Sid, Record>, items: seq<Item>, owner: User, device: Device)
    ensures var once := SyncAll(sessions, items, owner, device);
      SyncAll(once, items, owner, device) == once
  {
    var once := SyncAll(sessions, items, owner, device);
    var twice := SyncAll(once, items, owner, device);
    forall id ensures Lookup(twice, id) == Lookup(once, id) {
      var e := Lookup(sessions, id);
      SyncIsFold(sessions, items, owner, device, id);
      SyncIsFold(once, items, owner, device, id);
      if Ours(e, owner, device) {
        FoldTwice(id, e, items, owner, device);
      } else {
        ForeignUntouched(id, e, items, owner, device);
      }
    }
    SameLookups(once, twice);
  }

  /** An item without a date gets the time of the sync. Repeating such a sync leaves
      the store alone if and only if it happens at the same time. */
  lemma UndatedItemIsRedated(sessions: map<Sid, Record>, x: Item, owner: User, device: Device, now: int, later: int)
    requires Accepts(Lookup(sessions, x.id), x.(updated := now), owner, device) && now <= later
    ensures var once := SyncAll(sessions, [x.(updated := now)], owner, device);
      SyncAll(once, [x.(updated := later)], owner, device) == once <==> later == now
  {
    var first, second := x.(updated := now), x.(updated := later);
    SyncSingle(sessions, first, owner, device);
    var once := SyncAll(sessions, [first], owner, device);
    assert once == sessions[x.id := RecordOf(first, owner, device)];
    SyncSingle(once, second, owner, device);
    assert SyncAll(once, [second], owner, device) == once[x.id := RecordOf(second, owner, device)];
    assert once[x.id] == RecordOf(first, owner, device);
  }

  lemma SyncSingle(sessions: map<Sid, Record>, x: Item, owner: User, device: Device)
    ensures SyncAll(sessions, [x], owner, device) == SyncOne(sessions, x, owner, device)
  {
    assert [x][..0] == [];
  }

  lemma SameLookups(a: map<Sid, Record>, b: map<Sid, Record>)
    requires forall id :: Lookup(a, id) == Lookup(b, id)
    ensures a == b
  {
    forall id ensures (id in a <==> id in b) && (id in a ==> a[id] == b[id]) {
      assert Lookup(a, id) == Lookup(b, id);
    }
  }

  // ---- What a sync stores ----

  /** An item is stored exactly if its session is new, or belongs to the sender or to
      nobody, from this device or from none, and is incomplete or not dated later; what
      is stored are its fields. */
  lemma ItemStoredIff(sessions: map<Sid, Record>, x: Item, owner: User, device: Device)
    ensures var after := SyncAll(sessions, [x], owner, device);
      if x.id in sessions &&
         !(sessions[x.id].owner in ["", owner] && sessions[x.id].device in ["", device] &&
           (sessions[x.id].updated.None? || sessions[x.id].title == "" || sessions[x.id].workspace == "" ||
            x.updated >= sessions[x.id].updated.value))
      then after == sessions
      else
        && x.id in after && after[x.id].owner == owner && after[x.id].device == device
        && after[x.id].title == x.title && after[x.id].workspace == x.workspace
        && after[x.id].status == x.status && after[x.id].policy == x.policy && after[x.id].updated == Some(x.updated)
        && forall s :: s != x.id ==> Lookup(after, s) == Lookup(sessions, s)
  {
    SyncSingle(sessions, x, owner, device);
  }

  /** An event appended to an unknown session creates it for the sender, without a device. */
  lemma AppendCreatesSession(st: Store, s: Sid, owner: User, payload: string, now: int)
    requires s !in st.sessions
    ensures var st' := Append(st, s, owner, payload, now);
      s in st'.sessions && st'.sessions[s].owner == owner && st'.sessions[s].device == "" && !Complete(st'.sessions[s])
    ensures forall o :: o != s ==> EventsOf(Append(st, s, owner, payload, now), o) == EventsOf(st, o)
  {
  }

  // ---- The memory store ----

  class MemoryStore {
    var memorySessions: map<Sid, Record>
    var memoryEvents: map<Sid, seq<Event>>

    ghost function View(): Store reads this { Store(memorySessions, memoryEvents) }

    constructor ()
      ensures View() == Store(map[], map[])
    {
      memorySessions, memoryEvents := map[], map[];
    }

    method AppendOwnedEvent(s: Sid, owner: User, payload: string, now: int) returns (seqNo: Option<nat>)
      modifies this
      ensures View() == Append(old(View()), s, owner, payload, now)
      ensures seqNo.Some? <==> MayAppend(old(View()), s, owner)
      ensures seqNo.Some? ==> EventsOf(View(), s) == EventsOf(old(View()), s) + [Event(payload, seqNo.value)]
    {
      if s in memorySessions && memorySessions[s].owner != "" && memorySessions[s].owner != owner { return None; }
      if s !in memorySessions { memorySessions := memorySessions[s := Record(owner, "", "", "", "", "", Some(now))]; }
      var list := if s in memoryEvents then memoryEvents[s] else [];
      memoryEvents := memoryEvents[s := list + [Event(payload, |list| + 1)]];
      return Some(|list| + 1);
    }

    /** syncSessions with its memory branch: all items are checked before any is
        stored, then each is accepted or skipped. */
    method SyncSessions(owner: User, device: Device, blank: bool, items: seq<Option<Item>>) returns (reply: SyncReply)
      modifies this`memorySessions
      ensures Refusal(blank, items).Some? ==> reply == Refusal(blank, items).value && View() == old(View())
      ensures reply.Unauthorized? <==> blank
      ensures reply.Invalid? <==> !blank && (|items| > 10_000 || None in items)
      ensures Refusal(blank, items).None? ==>
        && memorySessions == SyncAll(old(memorySessions), Values(items), owner, device)
        && reply.Synced? && reply.accepted == AcceptedCount(old(memorySessions), Values(items), owner, device)
        && reply.accepted + reply.skipped == |items|
    {
      if blank { return Unauthorized; }
      if |items| > MAX_SYNC_ITEMS { return Invalid; }
      var normalized: seq<Item> := [];
      for i := 0 to |items|
        invariant |normalized| == i
        invariant forall j :: 0 <= j < i ==> items[j] == Some(normalized[j])
      {
        if items[i].None? { return Invalid; }
        normalized := normalized + [items[i].value];
      }
      assert normalized == Values(items);
      reply := SyncMemory(owner, device, normalized);
    }

    method SyncMemory(owner: User, device: Device, items: seq<Item>) returns (reply: SyncReply)
      modifies this`memorySessions
      ensures memorySessions == SyncAll(old(memorySessions), items, owner, device)
      ensures reply.Synced? && reply.accepted == AcceptedCount(old(memorySessions), items, owner, device)
      ensures reply.accepted + reply.skipped == |items|
    {
      var accepted, skipped := 0, 0;
      for i := 0 to |items|
        invariant memorySessions == SyncAll(old(memorySessions), items[..i], owner, device)
        invariant accepted == AcceptedCount(old(memorySessions), items[..i], owner, device)
        invariant accepted + skipped == i
      {
        var x := items[i];
        assert items[..i + 1][..i] == items[..i] && items[..i + 1][i] == x;
        if x.id in memorySessions && !OwnedBy(memorySessions[x.id], owner, device) {
          skipped := skipped + 1;
          continue;
        }
        if x.id in memorySessions && !IsNewer(x, memorySessions[x.id]) {
          skipped := skipped + 1;
          continue;
        }
        memorySessions := memorySessions[x.id := RecordOf(x, owner, device)];
        accepted := accepted + 1;
      }
      assert items[..|items|] == items;
      return Synced(accepted, skipped);
    }
  }
}
