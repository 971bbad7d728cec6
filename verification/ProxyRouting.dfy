/** The relay's pending-request table (cloud-relay-go/main.go): browsers ask, a
    device answers, and timers, failed routing and disconnects race with it. Every
    step below is one critical section or one action outside the lock. */
module ProxyRouting {
  import opened OrderedMaps

  type User = string
  type Device = string
  type Request = string

  const MAX_PENDING: nat := 128
  const MAX_BROWSERS: nat := 8

  datatype Peer = Peer(id: nat, owner: User)
  datatype Tag = Tag(n: nat)

  /** AfterFunc: armed, stopped in time, callback started, callback past its
      critical section, callback finished. */
  datatype Timer = Armed | Stopped | Firing | Expired | TimedOut

  /** Who took the entry out of the table, and how far that goroutine is. */
  datatype Claim =
    | Unclaimed
    | Taken(device: Device, owner: User)
    | Halted(device: Device, owner: User)
    | Forwarded
    | Cut
    | Abandoned

  /** The requesting goroutine after it created the entry. */
  datatype Route = Routing | Routed | Failing | Dropped | Quiet | Refused

  datatype Cause = FromDevice | Timeout | Offline | Disconnect

  /** A gateway-proxy-response handed to a browser's queue. */
  datatype Answer = Answer(to: Peer, cause: Cause, device: Device, owner: User)

  /** `deviceOwner` is the owner of the device as the store gave it to the request. */
  datatype Entry = Entry(
    browser: Peer, request: Request, device: Device, owner: User, deviceOwner: Option<User>,
    timer: Timer, claim: Claim, route: Route, answers: seq<Answer>)

  datatype Relay = Relay(
    browsers: set<Peer>, gone: set<Peer>, devices: map<Device, Peer>,
    pending: map<Request, Tag>, entries: map<Tag, Entry>)

  function Stop(t: Timer): Timer { if t.Armed? then Stopped else t }

  function Say(en: Entry, cause: Cause, device: Device, owner: User): seq<Answer>
  {
    en.answers + [Answer(en.browser, cause, device, owner)]
  }

  // ---- Admission ----

  function Load(st: Relay, b: Peer): nat
  {
    |LoadSet(st.pending, st.entries, b)|
  }

  function LoadSet(pending: map<Request, Tag>, entries: map<Tag, Entry>, b: Peer): set<Request>
  {
    set r | r in pending && pending[r] in entries && entries[pending[r]].browser == b
  }

  datatype Verdict = Forbidden | MissingId | TooMany | Duplicate | Accepted

  function Admit(st: Relay, b: Peer, r: Request, deviceOwner: Option<User>): Verdict
  {
    if deviceOwner != Some(b.owner) then Forbidden
    else if r == "" then MissingId
    else if Load(st, b) >= MAX_PENDING then TooMany
    else if r in st.pending then Duplicate
    else Accepted
  }

  function NewEntry(b: Peer, r: Request, d: Device, deviceOwner: Option<User>): Entry
  {
    Entry(b, r, d, b.owner, deviceOwner, Armed, Unclaimed, Routing, [])
  }

  // ---- Removal of a peer ----

  predicate Affected(en: Entry, p: Peer, cut: Option<Device>)
  {
    en.browser == p || (cut.Some? && en.device == cut.value)
  }

  function Swept(en: Entry, p: Peer): Entry
  {
    if en.browser == p then en.(timer := Stop(en.timer), claim := Abandoned)
    else en.(timer := Stop(en.timer), claim := Cut, answers := Say(en, Disconnect, en.device, en.owner))
  }

  predicate Current(pending: map<Request, Tag>, e: Tag, en: Entry)
  {
    en.request in pending && pending[en.request] == e
  }

  /** The sweep with the requests in `left` still to be visited. */
  function SweptBut(pending: map<Request, Tag>, entries: map<Tag, Entry>, p: Peer, cut: Option<Device>,
      left: set<Request>): map<Tag, Entry>
  {
    map e | e in entries ::
      if Current(pending, e, entries[e]) && entries[e].request !in left && Affected(entries[e], p, cut)
      then Swept(entries[e], p) else entries[e]
  }

  function KeptBut(pending: map<Request, Tag>, entries: map<Tag, Entry>, p: Peer, cut: Option<Device>,
      left: set<Request>): map<Request, Tag>
  {
    map r | r in pending && (r in left || !(pending[r] in entries && Affected(entries[pending[r]], p, cut))) ::
      pending[r]
  }

  function SweptEntries(pending: map<Request, Tag>, entries: map<Tag, Entry>, p: Peer, cut: Option<Device>)
    : map<Tag, Entry>
  {
    SweptBut(pending, entries, p, cut, {})
  }

  function KeptPending(pending: map<Request, Tag>, entries: map<Tag, Entry>, p: Peer, cut: Option<Device>)
    : map<Request, Tag>
  {
    KeptBut(pending, entries, p, cut, {})
  }

  /** remove: `registered` is the device id of a device peer, if it has one. */
  function Remove(st: Relay, p: Peer, registered: Option<Device>): Relay
  {
    var current := registered.Some? && registered.value in st.devices && st.devices[registered.value] == p;
    var cut := if current then registered else None;
    Relay(
      st.browsers - {p}, st.gone + {p},
      if current then st.devices - {registered.value} else st.devices,
      KeptPending(st.pending, st.entries, p, cut),
      SweptEntries(st.pending, st.entries, p, cut))
  }

  // ---- Steps ----

  datatype Step =
    | Join(b: Peer)
    | Hello(p: Peer, d: Device)
    | LoseLease(d: Device)
    | Ask(b: Peer, r: Request, d: Device, deviceOwner: Option<User>, e: Tag)
    | RouteDone(e: Tag)
    | RouteFail(e: Tag)
    | OfflineDelete(e: Tag)
    | OfflineStop(e: Tag)
    | OfflineSend(e: Tag)
    | Respond(r: Request, d: Device, owner: User)
    | ForwardStop(e: Tag)
    | ForwardSend(e: Tag)
    | Fire(e: Tag)
    | FireDelete(e: Tag)
    | FireSend(e: Tag)
    | Leave(p: Peer, registered: Option<Device>)

  /** The entry a step of one goroutine works on, in the state it must be in. */
  predicate Ready(en: Entry, step: Step)
  {
    match step
    case RouteDone(_) => en.route == Routing
    case RouteFail(_) => en.route == Routing
    case OfflineDelete(_) => en.route == Failing
    case OfflineStop(_) => en.route == Dropped
    case OfflineSend(_) => en.route == Quiet
    case ForwardStop(_) => en.claim.Taken?
    case ForwardSend(_) => en.claim.Halted?
    case Fire(_) => en.timer == Armed
    case FireDelete(_) => en.timer == Firing
    case FireSend(_) => en.timer == Expired
    case _ => false
  }

  predicate Enabled(st: Relay, step: Step)
  {
    match step
    case Join(b) => b !in st.browsers && b !in st.gone && Connections(st.browsers, b.owner) < MAX_BROWSERS
    case Hello(p, _) => p !in st.browsers
    case LoseLease(_) => true
    case Ask(b, _, _, _, e) => b in st.browsers && e !in st.entries
    case Respond(_, _, _) => true
    case Leave(_, _) => true
    case _ => step.e in st.entries && Ready(st.entries[step.e], step)
  }

  function Connected(browsers: set<Peer>, user: User): set<Peer> { set b | b in browsers && b.owner == user }

  function Connections(browsers: set<Peer>, user: User): nat { |Connected(browsers, user)| }

  /** What a step of one goroutine does to its own entry. */
  function Progress(en: Entry, step: Step): Entry
  {
    match step
    case RouteDone(_) => en.(route := Routed)
    case RouteFail(_) => en.(route := Failing)
    case OfflineDelete(_) => en.(route := Dropped)
    case OfflineStop(_) => en.(route := Quiet, timer := Stop(en.timer))
    case OfflineSend(_) => en.(route := Refused, answers := Say(en, Offline, en.device, en.owner))
    case ForwardStop(_) =>
      if en.claim.Taken? then en.(claim := Halted(en.claim.device, en.claim.owner), timer := Stop(en.timer)) else en
    case ForwardSend(_) =>
      if en.claim.Halted? then en.(claim := Forwarded, answers := Say(en, FromDevice, en.claim.device, en.claim.owner))
      else en
    case Fire(_) => en.(timer := Firing)
    case FireDelete(_) => en.(timer := Expired)
    case FireSend(_) => en.(timer := TimedOut, answers := Say(en, Timeout, en.device, en.owner))
    case _ => en
  }

  /** What it does to the table: the offline path deletes whatever is stored under
      its request id, the timer only its own entry. */
  function Unlisted(pending: map<Request, Tag>, e: Tag, en: Entry, step: Step): map<Request, Tag>
  {
    if step.OfflineDelete? || (step.FireDelete? && Current(pending, e, en)) then pending - {en.request} else pending
  }

  predicate Answers(en: Entry, d: Device, owner: User) { en.owner == owner && en.device == d }

  function Next(st: Relay, step: Step): Relay
    requires Enabled(st, step)
  {
    match step
    case Join(b) => st.(browsers := st.browsers + {b})
    case Hello(p, d) => st.(devices := st.devices[d := p])
    case LoseLease(d) => st.(devices := st.devices - {d})
    case Ask(b, r, d, deviceOwner, e) =>
      if Admit(st, b, r, deviceOwner) != Accepted then st
      else st.(pending := st.pending[r := e], entries := st.entries[e := NewEntry(b, r, d, deviceOwner)])
    case Respond(r, d, owner) =>
      if r in st.pending && st.pending[r] in st.entries && Answers(st.entries[st.pending[r]], d, owner) then
        var e := st.pending[r];
        st.(pending := st.pending - {r}, entries := st.entries[e := st.entries[e].(claim := Taken(d, owner))])
      else st
    case Leave(p, registered) => Remove(st, p, registered)
    case _ =>
      var e := step.e;
      st.(pending := Unlisted(st.pending, e, st.entries[e], step),
        entries := st.entries[e := Progress(st.entries[e], step)])
  }

  // ---- What every reachable state satisfies ----

  function Tally(answers: seq<Answer>, cause: Cause): nat
  {
    if answers == [] then 0
    else Tally(answers[..|answers| - 1], cause) + if answers[|answers| - 1].cause == cause then 1 else 0
  }

  /** An answer is already on its way. */
  ghost predicate InFlight(en: Entry)
  {
    en.timer.Firing? || en.timer.Expired? || en.claim.Taken? || en.claim.Halted? || en.route == Quiet
  }

  ghost predicate NeverLost(gone: set<Peer>, en: Entry)
  {
    en.answers != [] || en.timer.Armed? || InFlight(en) || en.browser in gone
  }

  ghost predicate WellAddressed(en: Entry)
  {
    forall a :: a in en.answers ==> a.to == en.browser && a.device == en.device && a.owner == en.owner
  }

  /** At most one answer of each kind, and never both a forwarded response and a
      disconnect notice. */
  ghost predicate CountedOnce(en: Entry)
  {
    && Tally(en.answers, FromDevice) == (if en.claim.Forwarded? then 1 else 0)
    && Tally(en.answers, Disconnect) == (if en.claim.Cut? then 1 else 0)
    && Tally(en.answers, Timeout) == (if en.timer.TimedOut? then 1 else 0)
    && Tally(en.answers, Offline) == (if en.route.Refused? then 1 else 0)
  }

  ghost predicate Claimant(en: Entry)
  {
    (en.claim.Taken? || en.claim.Halted?) ==> en.claim.device == en.device && en.claim.owner == en.owner
  }

  /** The device asked belongs to the owner of the asking browser. */
  ghost predicate OwnDevice(en: Entry)
  {
    en.deviceOwner == Some(en.browser.owner) && en.owner == en.browser.owner
  }

  ghost predicate EntryOk(gone: set<Peer>, en: Entry)
  {
    NeverLost(gone, en) && WellAddressed(en) && CountedOnce(en) && Claimant(en) && OwnDevice(en)
  }

  ghost predicate Listed(browsers: set<Peer>, r: Request, en: Entry)
  {
    && en.request == r && en.browser in browsers && en.claim.Unclaimed?
    && (en.timer.Armed? || en.timer.Firing?)
    && !(en.route.Dropped? || en.route.Quiet? || en.route.Refused?)
  }

  ghost predicate TableOk(browsers: set<Peer>, pending: map<Request, Tag>, entries: map<Tag, Entry>)
  {
    forall r :: r in pending ==> pending[r] in entries && Listed(browsers, r, entries[pending[r]])
  }

  ghost predicate EntriesOk(gone: set<Peer>, entries: map<Tag, Entry>)
  {
    forall e :: e in entries ==> EntryOk(gone, entries[e])
  }

  ghost predicate LoadOk(pending: map<Request, Tag>, entries: map<Tag, Entry>)
  {
    forall b :: |LoadSet(pending, entries, b)| <= MAX_PENDING
  }

  ghost predicate ConnectionsOk(browsers: set<Peer>)
  {
    forall u :: Connections(browsers, u) <= MAX_BROWSERS
  }

  ghost predicate Safe(st: Relay)
  {
    && TableOk(st.browsers, st.pending, st.entries)
    && EntriesOk(st.gone, st.entries)
    && LoadOk(st.pending, st.entries)
    && ConnectionsOk(st.browsers)
    && st.browsers !! st.gone
  }

  // ---- Every step keeps it ----

  lemma SayTally(en: Entry, cause: Cause, device: Device, owner: User, k: Cause)
    ensures Tally(Say(en, cause, device, owner), k) == Tally(en.answers, k) + if cause == k then 1 else 0
  {
    assert Say(en, cause, device, owner)[..|en.answers|] == en.answers;
  }

  lemma SayCounted(en: Entry, cause: Cause, device: Device, owner: User)
    ensures forall k :: Tally(Say(en, cause, device, owner), k) == Tally(en.answers, k) + if cause == k then 1 else 0
  {
    forall k ensures Tally(Say(en, cause, device, owner), k) == Tally(en.answers, k) + if cause == k then 1 else 0 {
      SayTally(en, cause, device, owner, k);
    }
  }

  /** A goroutine working on its entry never loses the answer it owes. */
  lemma ProgressOk(gone: set<Peer>, en: Entry, step: Step)
    requires EntryOk(gone, en) && Ready(en, step)
    ensures EntryOk(gone, Progress(en, step))
  {
    match step
    case OfflineSend(_) => SayCounted(en, Offline, en.device, en.owner);
    case ForwardSend(_) => SayCounted(en, FromDevice, en.claim.device, en.claim.owner);
    case FireSend(_) => SayCounted(en, Timeout, en.device, en.owner);
    case _ =>
  }

  lemma SweptOk(gone: set<Peer>, browsers: set<Peer>, en: Entry, p: Peer)
    requires EntryOk(gone, en) && Listed(browsers, en.request, en)
    ensures EntryOk(gone + {p}, Swept(en, p))
  {
    SayCounted(en, Disconnect, en.device, en.owner);
  }

  /** A smaller table whose entries keep their browsers is no fuller. */
  lemma LoadShrinks(pending: map<Request, Tag>, entries: map<Tag, Entry>, pending': map<Request, Tag>,
      entries': map<Tag, Entry>)
    requires LoadOk(pending, entries)
    requires forall r :: r in pending' ==> r in pending && pending'[r] == pending[r]
    requires forall e :: e in entries' ==> e in entries && entries'[e].browser == entries[e].browser
    ensures LoadOk(pending', entries')
  {
    forall b ensures |LoadSet(pending', entries', b)| <= MAX_PENDING {
      SubsetCardinality(LoadSet(pending', entries', b), LoadSet(pending, entries, b));
    }
  }

  lemma LoadSetGrows(pending: map<Request, Tag>, entries: map<Tag, Entry>, r: Request, e: Tag, en: Entry, o: Peer)
    requires r !in pending && e !in entries && forall q :: q in pending ==> pending[q] in entries
    ensures LoadSet(pending[r := e], entries[e := en], o) ==
      LoadSet(pending, entries, o) + if o == en.browser then {r} else {}
  {
    var pending', entries' := pending[r := e], entries[e := en];
    assert forall q :: q in pending ==> pending[q] in entries && entries'[pending[q]] == entries[pending[q]];
    assert entries'[pending'[r]] == en;
  }

  lemma AskKeepsLoad(st: Relay, b: Peer, r: Request, d: Device, owner: Option<User>, e: Tag)
    requires LoadOk(st.pending, st.entries) && TableOk(st.browsers, st.pending, st.entries)
    requires Load(st, b) < MAX_PENDING && r !in st.pending && e !in st.entries
    ensures LoadOk(st.pending[r := e], st.entries[e := NewEntry(b, r, d, owner)])
  {
    hide Listed;
    hide LoadSet;
    var pending', entries' := st.pending[r := e], st.entries[e := NewEntry(b, r, d, owner)];
    forall o ensures |LoadSet(pending', entries', o)| <= MAX_PENDING {
      assert |LoadSet(st.pending, st.entries, o)| <= MAX_PENDING;
      LoadSetGrows(st.pending, st.entries, r, e, NewEntry(b, r, d, owner), o);
    }
  }

  lemma AskKeepsTables(st: Relay, b: Peer, r: Request, d: Device, owner: Option<User>, e: Tag)
    requires Safe(st) && b in st.browsers && r !in st.pending && e !in st.entries && owner == Some(b.owner)
    ensures TableOk(st.browsers, st.pending[r := e], st.entries[e := NewEntry(b, r, d, owner)])
    ensures EntriesOk(st.gone, st.entries[e := NewEntry(b, r, d, owner)])
  {
    assert EntryOk(st.gone, NewEntry(b, r, d, owner));
    assert Listed(st.browsers, r, NewEntry(b, r, d, owner));
    hide EntryOk;
    hide Listed;
  }

  lemma AskKeeps(st: Relay, b: Peer, r: Request, d: Device, owner: Option<User>, e: Tag)
    requires Safe(st) && b in st.browsers && e !in st.entries
    ensures Safe(Next(st, Ask(b, r, d, owner, e)))
  {
    hide TableOk;
    hide EntriesOk;
    hide LoadOk;
    hide ConnectionsOk;
    if Admit(st, b, r, owner) == Accepted {
      AskKeepsLoad(st, b, r, d, owner, e);
      AskKeepsTables(st, b, r, d, owner, e);
    }
  }

  /** Replacing one entry by a sound one, and dropping requests from the table. */
  lemma UpdateKeeps(st: Relay, e: Tag, en': Entry, pending': map<Request, Tag>)
    requires Safe(st) && e in st.entries && EntryOk(st.gone, en') && en'.browser == st.entries[e].browser
    requires forall r :: r in pending' ==> r in st.pending && pending'[r] == st.pending[r]
    requires forall r :: r in pending' && pending'[r] == e ==> Listed(st.browsers, r, en')
    ensures Safe(st.(pending := pending', entries := st.entries[e := en']))
  {
    hide EntryOk;
    hide Listed;
    hide ConnectionsOk;
    LoadShrinks(st.pending, st.entries, pending', st.entries[e := en']);
    hide LoadOk;
  }

  lemma RespondKeeps(st: Relay, r: Request, d: Device, owner: User)
    requires Safe(st)
    ensures Safe(Next(st, Respond(r, d, owner)))
  {
    if r in st.pending && Answers(st.entries[st.pending[r]], d, owner) {
      var en := st.entries[st.pending[r]];
      assert EntryOk(st.gone, en) && Listed(st.browsers, r, en);
      var en' := en.(claim := Taken(d, owner));
      assert EntryOk(st.gone, en');
      forall q | q in st.pending && st.pending[q] == st.pending[r] ensures q == r {
        assert Listed(st.browsers, q, en);
      }
      hide EntryOk;
      hide Listed;
      UpdateKeeps(st, st.pending[r], en', st.pending - {r});
    }
  }

  ghost predicate OnEntry(step: Step)
  {
    !(step.Join? || step.Hello? || step.LoseLease? || step.Ask? || step.Respond? || step.Leave?)
  }

  lemma ProgressListed(browsers: set<Peer>, r: Request, en: Entry, step: Step)
    requires Listed(browsers, r, en) && Ready(en, step) && !step.OfflineDelete? && !step.FireDelete?
    ensures Listed(browsers, r, Progress(en, step))
  {
  }

  lemma ProgressKeeps(st: Relay, step: Step)
    requires Safe(st) && OnEntry(step) && Enabled(st, step)
    ensures Safe(Next(st, step))
  {
    var e := step.e;
    var en := st.entries[e];
    assert Ready(en, step);
    ProgressOk(st.gone, en, step);
    assert Progress(en, step).browser == en.browser;
    var pending' := Unlisted(st.pending, e, en, step);
    hide Progress;
    hide Ready;
    forall r | r in pending' && pending'[r] == e ensures Listed(st.browsers, r, Progress(en, step)) {
      assert Listed(st.browsers, r, en);
      ProgressListed(st.browsers, r, en, step);
    }
    hide EntryOk;
    hide Listed;
    UpdateKeeps(st, e, Progress(en, step), pending');
  }

  lemma SweepKeepsEntries(st: Relay, p: Peer, cut: Option<Device>)
    requires Safe(st)
    ensures EntriesOk(st.gone + {p}, SweptEntries(st.pending, st.entries, p, cut))
  {
    forall e | e in st.entries ensures EntryOk(st.gone + {p}, SweptEntries(st.pending, st.entries, p, cut)[e]) {
      var en := st.entries[e];
      assert EntryOk(st.gone, en);
      if Current(st.pending, e, en) {
        assert Listed(st.browsers, en.request, en);
        SweptOk(st.gone, st.browsers, en, p);
      }
    }
  }

  lemma SweepKeepsTable(st: Relay, p: Peer, cut: Option<Device>)
    requires Safe(st)
    ensures TableOk(st.browsers - {p}, KeptPending(st.pending, st.entries, p, cut),
      SweptEntries(st.pending, st.entries, p, cut))
    ensures LoadOk(KeptPending(st.pending, st.entries, p, cut), SweptEntries(st.pending, st.entries, p, cut))
  {
    hide EntryOk;
    var pending', entries' := KeptPending(st.pending, st.entries, p, cut), SweptEntries(st.pending, st.entries, p, cut);
    forall r | r in pending' ensures pending'[r] in entries' && Listed(st.browsers - {p}, r, entries'[pending'[r]]) {
      assert Listed(st.browsers, r, st.entries[pending'[r]]);
    }
    LoadShrinks(st.pending, st.entries, pending', entries');
  }

  lemma LeaveKeeps(st: Relay, p: Peer, registered: Option<Device>)
    requires Safe(st)
    ensures Safe(Next(st, Leave(p, registered)))
  {
    var current := registered.Some? && registered.value in st.devices && st.devices[registered.value] == p;
    var cut := if current then registered else None;
    SweepKeepsEntries(st, p, cut);
    SweepKeepsTable(st, p, cut);
    hide TableOk;
    hide EntriesOk;
    hide LoadOk;
    forall u ensures Connections(st.browsers - {p}, u) <= MAX_BROWSERS {
      SubsetCardinality(Connected(st.browsers - {p}, u), Connected(st.browsers, u));
      assert Connections(st.browsers, u) <= MAX_BROWSERS;
    }
  }

  lemma JoinConnected(browsers: set<Peer>, b: Peer, u: User)
    ensures Connected(browsers + {b}, u) == Connected(browsers, u) + if b.owner == u then {b} else {}
  {
  }

  lemma JoinConnections(browsers: set<Peer>, b: Peer)
    requires ConnectionsOk(browsers) && Connections(browsers, b.owner) < MAX_BROWSERS
    ensures ConnectionsOk(browsers + {b})
  {
    hide Connected;
    forall u ensures Connections(browsers + {b}, u) <= MAX_BROWSERS {
      assert Connections(browsers, u) <= MAX_BROWSERS;
      JoinConnected(browsers, b, u);
    }
  }

  lemma JoinKeeps(st: Relay, b: Peer)
    requires Safe(st) && Enabled(st, Join(b))
    ensures Safe(Next(st, Join(b)))
  {
    hide EntriesOk;
    hide LoadOk;
    JoinConnections(st.browsers, b);
    hide ConnectionsOk;
  }

  lemma StepKeeps(st: Relay, step: Step)
    requires Safe(st) && Enabled(st, step)
    ensures Safe(Next(st, step))
  {
    hide TableOk;
    hide EntriesOk;
    hide LoadOk;
    hide ConnectionsOk;
    match step
    case Join(b) => JoinKeeps(st, b);
    case Hello(_, _) =>
    case LoseLease(_) =>
    case Ask(b, r, d, owner, e) => AskKeeps(st, b, r, d, owner, e);
    case Respond(r, d, owner) => RespondKeeps(st, r, d, owner);
    case Leave(p, registered) => LeaveKeeps(st, p, registered);
    case _ => ProgressKeeps(st, step);
  }

  // ---- Whole runs ----

  ghost predicate Possible(st: Relay, steps: seq<Step>)
    decreases |steps|
  {
    steps != [] ==> Enabled(st, steps[0]) && Possible(Next(st, steps[0]), steps[1..])
  }

  ghost function Run(st: Relay, steps: seq<Step>): Relay
    requires Possible(st, steps)
    decreases |steps|
  {
    if steps == [] then st else Run(Next(st, steps[0]), steps[1..])
  }

  ghost const Start := Relay({}, {}, map[], map[], map[])

  /** In every reachable state: each accepted request was answered, or its timer is
      armed, or an answer is in flight, or its browser is gone; at most one device
      response was forwarded, to the asking browser and from the asked device and
      owner; tables and connections stay within their limits. */
  lemma {:induction false} EveryRunIsSafe(st: Relay, steps: seq<Step>)
    requires Safe(st) && Possible(st, steps)
    ensures Safe(Run(st, steps))
    decreases |steps|
  {
    if steps == [] {
    } else {
      StepKeeps(st, steps[0]);
      EveryRunIsSafe(Next(st, steps[0]), steps[1..]);
    }
  }

  lemma StartIsSafe()
    ensures Safe(Start)
  {
    forall b ensures |LoadSet(Start.pending, Start.entries, b)| <= MAX_PENDING {
      assert LoadSet(Start.pending, Start.entries, b) == {};
    }
    forall u ensures Connections(Start.browsers, u) <= MAX_BROWSERS {
      assert Connected(Start.browsers, u) == {};
    }
  }

  lemma {:induction false} AllTallied(answers: seq<Answer>)
    ensures |answers| == Tally(answers, FromDevice) + Tally(answers, Disconnect) + Tally(answers, Timeout) +
      Tally(answers, Offline)
  {
    if answers == [] {
    } else {
      AllTallied(answers[..|answers| - 1]);
    }
  }

  /** How many answers an entry got follows from how its races ended: at most one
      from the device or its disconnect, one from the timer, one from routing. */
  lemma AnswersCounted(st: Relay, e: Tag)
    requires Safe(st) && e in st.entries
    ensures var en := st.entries[e];
      |en.answers| == (if en.claim.Forwarded? || en.claim.Cut? then 1 else 0) +
        (if en.timer.TimedOut? then 1 else 0) + (if en.route.Refused? then 1 else 0)
  {
    assert EntryOk(st.gone, st.entries[e]);
    AllTallied(st.entries[e].answers);
  }

  /** From the empty relay: every reachable state is safe, and once no timer is armed
      and no goroutine is busy with a request, it was answered or its browser left. */
  lemma EveryReachableStateIsSafe(steps: seq<Step>, e: Tag)
    requires Possible(Start, steps)
    ensures Safe(Run(Start, steps))
    ensures var st := Run(Start, steps);
      e in st.entries && !InFlight(st.entries[e]) && !st.entries[e].timer.Armed? ==>
        st.entries[e].answers != [] || st.entries[e].browser in st.gone
    ensures var st := Run(Start, steps);
      e in st.entries ==> st.entries[e].deviceOwner == Some(st.entries[e].browser.owner)
  {
    StartIsSafe();
    EveryRunIsSafe(Start, steps);
    var st := Run(Start, steps);
    if e in st.entries {
      assert EntryOk(st.gone, st.entries[e]);
    }
  }

  lemma Advance(st: Relay, step: Step)
    requires OnEntry(step) && Enabled(st, step)
    ensures step.e in Next(st, step).entries && Next(st, step).entries[step.e] == Progress(st.entries[step.e], step)
  {
  }

  /** A response that was taken while the callback had started, up to both sends. */
  lemma BothAreSent(st: Relay, e: Tag) returns (end: Relay)
    requires e in st.entries && st.entries[e].claim.Taken? && st.entries[e].timer.Firing?
    ensures var steps := [ForwardStop(e)] + ([FireDelete(e)] + ([ForwardSend(e)] + ([FireSend(e)] + [])));
      Possible(st, steps) && Run(st, steps) == end
    ensures e in end.entries && |end.entries[e].answers| == |st.entries[e].answers| + 2
  {
    hide Next;
    hide Possible;
    hide Run;
    Advance(st, ForwardStop(e));
    var st2 := Next(st, ForwardStop(e));
    Advance(st2, FireDelete(e));
    var st3 := Next(st2, FireDelete(e));
    Advance(st3, ForwardSend(e));
    var st4 := Next(st3, ForwardSend(e));
    Advance(st4, FireSend(e));
    end := Next(st4, FireSend(e));
    RunNothing(end);
    RunStep(st4, FireSend(e), []);
    RunStep(st3, ForwardSend(e), [FireSend(e)] + []);
    RunStep(st2, FireDelete(e), [ForwardSend(e)] + ([FireSend(e)] + []));
    RunStep(st, ForwardStop(e), [FireDelete(e)] + ([ForwardSend(e)] + ([FireSend(e)] + [])));
  }

  lemma RunNothing(st: Relay)
    ensures Possible(st, []) && Run(st, []) == st
  {
  }

  /** A callback that has started is not stopped by the response it races with:
      whenever a listed entry is firing, the browser can get two answers. */
  lemma FiringEntryAnswersTwice(st: Relay, r: Request) returns (steps: seq<Step>, end: Relay)
    requires Safe(st) && r in st.pending && st.entries[st.pending[r]].timer.Firing?
    ensures Possible(st, steps) && Run(st, steps) == end
    ensures st.pending[r] in end.entries
    ensures |end.entries[st.pending[r]].answers| == |st.entries[st.pending[r]].answers| + 2
  {
    var e := st.pending[r];
    var en := st.entries[e];
    var first := Respond(r, en.device, en.owner);
    var st1 := Next(st, first);
    assert e in st1.entries && st1.entries[e] == en.(claim := Taken(en.device, en.owner));
    end := BothAreSent(st1, e);
    var rest := [ForwardStop(e)] + ([FireDelete(e)] + ([ForwardSend(e)] + ([FireSend(e)] + [])));
    RunStep(st, first, rest);
    steps := [first] + rest;
  }

  lemma RunStep(st: Relay, step: Step, rest: seq<Step>)
    requires Enabled(st, step) && Possible(Next(st, step), rest)
    ensures Possible(st, [step] + rest) && Run(st, [step] + rest) == Run(Next(st, step), rest)
  {
    assert ([step] + rest)[1..] == rest;
  }

  /** From the empty relay: one browser asks, and the callback starts. */
  lemma TwoAnswersFromStart(b: Peer, r: Request, d: Device) returns (steps: seq<Step>)
    requires r != ""
    ensures Possible(Start, steps)
    ensures Tag(0) in Run(Start, steps).entries && |Run(Start, steps).entries[Tag(0)].answers| == 2
  {
    StartIsSafe();
    var join, ask, fire := Join(b), Ask(b, r, d, Some(b.owner), Tag(0)), Fire(Tag(0));
    FirstRequest(b, r, d);
    var st1 := Next(Start, join);
    var st2 := Next(st1, ask);
    var st3 := Next(st2, fire);
    StepKeeps(Start, join);
    StepKeeps(st1, ask);
    StepKeeps(st2, fire);
    hide Next;
    hide Safe;
    hide Possible;
    hide Run;
    var rest, end := FiringEntryAnswersTwice(st3, r);
    RunStep(st2, fire, rest);
    RunStep(st1, ask, [fire] + rest);
    RunStep(Start, join, [ask] + ([fire] + rest));
    steps := [join] + ([ask] + ([fire] + rest));
  }

  lemma FirstRequest(b: Peer, r: Request, d: Device)
    requires r != ""
    ensures Enabled(Start, Join(b))
    ensures var st1 := Next(Start, Join(b));
      Enabled(st1, Ask(b, r, d, Some(b.owner), Tag(0))) &&
      var st2 := Next(st1, Ask(b, r, d, Some(b.owner), Tag(0)));
      Enabled(st2, Fire(Tag(0))) &&
      var st3 := Next(st2, Fire(Tag(0)));
      r in st3.pending && st3.pending[r] == Tag(0) && Tag(0) in st3.entries &&
      st3.entries[Tag(0)].timer.Firing? && st3.entries[Tag(0)].answers == []
  {
    assert Connected(Start.browsers, b.owner) == {};
    var st1 := Next(Start, Join(b));
    assert LoadSet(st1.pending, st1.entries, b) == {};
  }

  // ---- Each path to an answer ----

  lemma RunThree(st: Relay, a: Step, b: Step, c: Step)
    requires Enabled(st, a) && Enabled(Next(st, a), b) && Enabled(Next(Next(st, a), b), c)
    ensures Possible(st, [a] + ([b] + ([c] + [])))
    ensures Run(st, [a] + ([b] + ([c] + []))) == Next(Next(Next(st, a), b), c)
  {
    hide Next;
    RunNothing(Next(Next(Next(st, a), b), c));
    RunStep(Next(Next(st, a), b), c, []);
    RunStep(Next(st, a), b, [c] + []);
    RunStep(st, a, [b] + ([c] + []));
  }

  /** A response from the asked device and owner is forwarded to the asking browser. */
  lemma ResponseIsForwarded(st: Relay, r: Request)
    requires Safe(st) && r in st.pending
    ensures var e := st.pending[r];
      var en := st.entries[e];
      var steps := [Respond(r, en.device, en.owner)] + ([ForwardStop(e)] + ([ForwardSend(e)] + []));
      && Possible(st, steps) && e in Run(st, steps).entries && r !in Run(st, steps).pending
      && Run(st, steps).entries[e].answers == en.answers + [Answer(en.browser, FromDevice, en.device, en.owner)]
  {
    var e := st.pending[r];
    var en := st.entries[e];
    var s0, s1, s2 := Respond(r, en.device, en.owner), ForwardStop(e), ForwardSend(e);
    hide EntriesOk;
    hide LoadOk;
    hide ConnectionsOk;
    var st1 := Next(st, s0);
    assert st1.entries[e] == en.(claim := Taken(en.device, en.owner)) && r !in st1.pending;
    StaysUnlisted(st1, s1, r);
    Advance(st1, s1);
    var st2 := Next(st1, s1);
    StaysUnlisted(st2, s2, r);
    Advance(st2, s2);
    RunThree(st, s0, s1, s2);
    hide Next;
    hide Possible;
    hide Run;
  }

  lemma StaysUnlisted(st: Relay, step: Step, r: Request)
    requires OnEntry(step) && Enabled(st, step) && r !in st.pending
    ensures r !in Next(st, step).pending
  {
  }

  /** A timer takes only its own entry out of the table; the offline path takes whatever
      is listed under its request id, even if that is another browser's by now. */
  lemma DeletionScopes(st: Relay, e: Tag)
    requires Safe(st) && e in st.entries
    ensures st.entries[e].timer.Firing? ==>
      forall r :: r in Next(st, FireDelete(e)).pending <==> r in st.pending && st.pending[r] != e
    ensures st.entries[e].route.Failing? ==>
      forall r :: r in Next(st, OfflineDelete(e)).pending <==> r in st.pending && r != st.entries[e].request
  {
    hide EntriesOk;
    hide LoadOk;
    hide ConnectionsOk;
    hide Progress;
    forall r | r in st.pending && st.pending[r] == e ensures r == st.entries[e].request {
      assert Listed(st.browsers, r, st.entries[e]);
    }
  }

  /** A request nobody answers is answered by its timer. */
  lemma TimerAnswers(st: Relay, e: Tag)
    requires e in st.entries && st.entries[e].timer.Armed?
    ensures var en := st.entries[e];
      var steps := [Fire(e)] + ([FireDelete(e)] + ([FireSend(e)] + []));
      && Possible(st, steps) && e in Run(st, steps).entries
      && Run(st, steps).entries[e].answers == en.answers + [Answer(en.browser, Timeout, en.device, en.owner)]
  {
    Advance(st, Fire(e));
    var st1 := Next(st, Fire(e));
    Advance(st1, FireDelete(e));
    var st2 := Next(st1, FireDelete(e));
    Advance(st2, FireSend(e));
    RunThree(st, Fire(e), FireDelete(e), FireSend(e));
    hide Next;
    hide Possible;
    hide Run;
  }

  /** A request that cannot be routed is answered as offline. */
  lemma OfflineAnswers(st: Relay, e: Tag)
    requires e in st.entries && st.entries[e].route.Failing?
    ensures var en := st.entries[e];
      var steps := [OfflineDelete(e)] + ([OfflineStop(e)] + ([OfflineSend(e)] + []));
      && Possible(st, steps) && e in Run(st, steps).entries
      && Run(st, steps).entries[e].answers == en.answers + [Answer(en.browser, Offline, en.device, en.owner)]
  {
    Advance(st, OfflineDelete(e));
    var st1 := Next(st, OfflineDelete(e));
    Advance(st1, OfflineStop(e));
    var st2 := Next(st1, OfflineStop(e));
    Advance(st2, OfflineSend(e));
    RunThree(st, OfflineDelete(e), OfflineStop(e), OfflineSend(e));
    hide Next;
    hide Possible;
    hide Run;
  }

  /** A device that said hello and leaves has every listed request to it of another peer
      answered as disconnected, and only those. */
  lemma DisconnectAnswers(st: Relay, p: Peer, d: Device, e: Tag)
    requires Safe(st) && p !in st.browsers && e in st.entries
    ensures var st' := Next(Next(st, Hello(p, d)), Leave(p, Some(d)));
      var en := st.entries[e];
      && e in st'.entries
      && st'.entries[e].answers == en.answers +
        (if en.request in st.pending && st.pending[en.request] == e && en.device == d
         then [Answer(en.browser, Disconnect, en.device, en.owner)] else [])
  {
    hide EntriesOk;
    hide LoadOk;
    hide ConnectionsOk;
    hide KeptPending;
    var en := st.entries[e];
    if Current(st.pending, e, en) {
      assert Listed(st.browsers, en.request, en);
    }
    hide Listed;
  }

  // ---- Exactly one answer, decided at the stop ----

  predicate Late(timer: Timer) { timer.Firing? || timer.Expired? || timer.TimedOut? }

  predicate Claimed(claim: Claim) { claim.Taken? || claim.Halted? || claim.Forwarded? || claim.Cut? }

  predicate Offlining(route: Route) { route.Failing? || route.Dropped? || route.Quiet? || route.Refused? }

  /** No goroutine has work left on the entry. */
  predicate Resting(en: Entry)
  {
    && !(en.timer.Firing? || en.timer.Expired?) && !(en.claim.Taken? || en.claim.Halted?)
    && !(en.route.Failing? || en.route.Dropped? || en.route.Quiet?)
  }

  /** The entry left the table and its timer is stopped or has started. */
  ghost predicate Decided(st: Relay, e: Tag)
  {
    e in st.entries && !Current(st.pending, e, st.entries[e]) && !st.entries[e].timer.Armed?
  }

  /** What a decided entry can no longer change. */
  ghost predicate SameFate(a: Entry, b: Entry)
  {
    && (Late(a.timer) <==> Late(b.timer)) && (Claimed(a.claim) <==> Claimed(b.claim))
    && (!a.route.Routing? ==> !b.route.Routing? && (Offlining(a.route) <==> Offlining(b.route)))
  }

  lemma ProgressFate(en: Entry, step: Step)
    requires OnEntry(step) && Ready(en, step) && !en.timer.Armed?
    ensures SameFate(en, Progress(en, step)) && !Progress(en, step).timer.Armed?
    ensures Progress(en, step).request == en.request
  {
  }

  lemma StepFate(st: Relay, step: Step, e: Tag)
    requires Safe(st) && Enabled(st, step) && Decided(st, e)
    ensures Decided(Next(st, step), e) && SameFate(st.entries[e], Next(st, step).entries[e])
  {
    hide EntryOk;
    hide LoadOk;
    hide ConnectionsOk;
    var en := st.entries[e];
    if OnEntry(step) {
      if step.e == e {
        assert Ready(en, step);
        ProgressFate(en, step);
      }
      hide Progress;
      hide Ready;
    } else if step.Respond? && step.r in st.pending {
      assert Listed(st.browsers, step.r, st.entries[st.pending[step.r]]);
    }
  }

  lemma {:induction false} RunFate(st: Relay, steps: seq<Step>, e: Tag)
    requires Safe(st) && Possible(st, steps) && Decided(st, e)
    ensures Safe(Run(st, steps))
    ensures Decided(Run(st, steps), e) && SameFate(st.entries[e], Run(st, steps).entries[e])
    decreases |steps|
  {
    if steps == [] {
    } else {
      StepFate(st, steps[0], e);
      StepKeeps(st, steps[0]);
      hide Next;
      hide Safe;
      RunFate(Next(st, steps[0]), steps[1..], e);
    }
  }

  function One(b: bool): nat { if b then 1 else 0 }

  /** Once decided, the number of answers an entry ends up with is known: one if it is
      claimed, one if its callback started, one if its own routing failed. */
  lemma AnswersDecided(st: Relay, steps: seq<Step>, e: Tag)
    requires Safe(st) && Possible(st, steps) && Decided(st, e)
    requires e in Run(st, steps).entries && Resting(Run(st, steps).entries[e])
    ensures var en, end := st.entries[e], Run(st, steps).entries[e];
      && Tally(end.answers, Timeout) == One(Late(en.timer))
      && |end.answers| == One(Claimed(en.claim)) + One(Late(en.timer)) + One(end.route.Refused?)
      && (!en.route.Routing? ==> (end.route.Refused? <==> Offlining(en.route)))
  {
    RunFate(st, steps, e);
    var end := Run(st, steps);
    AnswersCounted(end, e);
    assert EntryOk(end.gone, end.entries[e]);
  }

  /** The steps that stop an entry's timer; a leaving peer stops those it sweeps. */
  ghost predicate Stops(st: Relay, step: Step, e: Tag)
  {
    && e in st.entries && Enabled(st, step)
    && match step
       case ForwardStop(f) => f == e
       case OfflineStop(f) => f == e
       case Leave(p, registered) =>
         Current(st.pending, e, st.entries[e]) && st.entries[e].browser != p &&
         registered.Some? && registered.value == st.entries[e].device &&
         registered.value in st.devices && st.devices[registered.value] == p
       case _ => false
  }

  lemma StopDecides(st: Relay, step: Step, e: Tag)
    requires Safe(st) && Stops(st, step, e)
    ensures Decided(Next(st, step), e)
    ensures var en, en' := st.entries[e], Next(st, step).entries[e];
      && (Late(en'.timer) <==> Late(en.timer)) && en'.answers[..|en.answers|] == en.answers
      && (step.ForwardStop? || step.Leave? ==> Claimed(en'.claim) && en'.route == en.route)
      && (step.OfflineStop? ==> en'.claim == en.claim && Offlining(en'.route))
  {
    hide EntryOk;
    hide LoadOk;
    hide ConnectionsOk;
    var en := st.entries[e];
    if Current(st.pending, e, en) {
      assert Listed(st.browsers, en.request, en);
    }
  }

  /** The exact condition for one answer, read off the entry at the moment its timer
      is stopped: a stop that comes in time and, for a response or a disconnect, a
      routing that did not fail, for a failed routing, no claim. */
  lemma OneAnswerIff(st: Relay, stop: Step, steps: seq<Step>, e: Tag)
    requires Safe(st) && Stops(st, stop, e) && Possible(Next(st, stop), steps)
    requires e in Run(Next(st, stop), steps).entries && Resting(Run(Next(st, stop), steps).entries[e])
    ensures var en, end := st.entries[e], Run(Next(st, stop), steps).entries[e];
      && (Tally(end.answers, Timeout) == 1 <==> Late(en.timer))
      && (!Late(en.timer) ==> Tally(end.answers, Timeout) == 0)
      && (stop.OfflineStop? ==> (|end.answers| == 1 <==> !Late(en.timer) && !Claimed(en.claim)))
      && (!stop.OfflineStop? && !en.route.Routing? ==>
        (|end.answers| == 1 <==> !Late(en.timer) && !Offlining(en.route)))
  {
    StepKeeps(st, stop);
    StopDecides(st, stop, e);
    AnswersDecided(Next(st, stop), steps, e);
  }

  /** A timer stopped in time never answers, not even before the entry rests. */
  lemma {:induction false} StoppedNeverAnswers(st: Relay, steps: seq<Step>, e: Tag)
    requires Safe(st) && Possible(st, steps) && e in st.entries && st.entries[e].timer.Stopped?
    ensures var end := Run(st, steps);
      e in end.entries && end.entries[e].timer.Stopped? && Tally(end.entries[e].answers, Timeout) == 0
    decreases |steps|
  {
    if steps == [] {
      assert EntryOk(st.gone, st.entries[e]);
    } else {
      StepKeeps(st, steps[0]);
      StoppedStays(st, steps[0], e);
      hide Next;
      hide Safe;
      StoppedNeverAnswers(Next(st, steps[0]), steps[1..], e);
    }
  }

  lemma StoppedStays(st: Relay, step: Step, e: Tag)
    requires Enabled(st, step) && e in st.entries && st.entries[e].timer.Stopped?
    ensures e in Next(st, step).entries && Next(st, step).entries[e].timer.Stopped?
  {
  }

  // ---- The loops under the lock ----

  /** Counting a browser's entries before a request is admitted. */
  method CountPending(st: Relay, b: Peer) returns (n: nat)
    requires TableOk(st.browsers, st.pending, st.entries)
    ensures n == Load(st, b)
  {
    n := 0;
    var left := st.pending.Keys;
    ghost var counted: set<Request> := {};
    while left != {}
      invariant left <= st.pending.Keys
      invariant counted == set r | r in LoadSet(st.pending, st.entries, b) && r !in left
      invariant n == |counted|
      decreases |left|
    {
      var r :| r in left;
      left := left - {r};
      if st.entries[st.pending[r]].browser == b {
        n := n + 1;
        counted := counted + {r};
      }
    }
    assert counted == LoadSet(st.pending, st.entries, b);
  }

  class Table {
    var browsers: set<Peer>
    var gone: set<Peer>
    var devices: map<Device, Peer>
    var pending: map<Request, Tag>
    var entries: map<Tag, Entry>

    ghost function View(): Relay reads this { Relay(browsers, gone, devices, pending, entries) }

    constructor ()
      ensures View() == Start
    {
      browsers, gone, devices, pending, entries := {}, {}, map[], map[], map[];
    }

    /** The locked section of a gateway-proxy request. */
    method Accept(b: Peer, r: Request, d: Device, deviceOwner: Option<User>, e: Tag) returns (verdict: Verdict)
      requires Safe(View()) && Enabled(View(), Ask(b, r, d, deviceOwner, e))
      modifies this`pending, this`entries
      ensures verdict == Admit(old(View()), b, r, deviceOwner)
      ensures verdict.Forbidden? <==> deviceOwner != Some(b.owner)
      ensures verdict.MissingId? <==> deviceOwner == Some(b.owner) && r == ""
      ensures verdict.TooMany? <==> deviceOwner == Some(b.owner) && r != "" && old(Load(View(), b)) >= 128
      ensures verdict.Duplicate? <==>
        deviceOwner == Some(b.owner) && r != "" && old(Load(View(), b)) < 128 && r in old(pending)
      ensures verdict.Accepted? <==>
        deviceOwner == Some(b.owner) && r != "" && old(Load(View(), b)) < 128 && r !in old(pending)
      ensures !verdict.Accepted? ==> View() == old(View())
      ensures verdict.Accepted? ==> pending == old(pending)[r := e]
      ensures verdict.Accepted? ==> e in entries && entries[e].device == d && entries[e].browser == b
      ensures verdict.Accepted? ==> entries[e].request == r && entries[e].timer.Armed? && entries[e].answers == []
      ensures View() == Next(old(View()), Ask(b, r, d, deviceOwner, e)) && Safe(View())
    {
      AskKeeps(View(), b, r, d, deviceOwner, e);
      hide EntriesOk;
      hide LoadOk;
      hide ConnectionsOk;
      if deviceOwner != Some(b.owner) { return Forbidden; }
      if r == "" { return MissingId; }
      var n := CountPending(Relay(browsers, gone, devices, pending, entries), b);
      if n >= MAX_PENDING { return TooMany; }
      if r in pending { return Duplicate; }
      pending, entries := pending[r := e], entries[e := NewEntry(b, r, d, deviceOwner)];
      return Accepted;
    }

    /** The locked section of a device response. */
    method Claim(r: Request, d: Device, owner: User) returns (taken: bool)
      requires Safe(View())
      modifies this`pending, this`entries
      ensures View() == Next(old(View()), Respond(r, d, owner)) && Safe(View())
      ensures taken <==> r in old(pending) && Answers(old(entries)[old(pending)[r]], d, owner)
    {
      RespondKeeps(View(), r, d, owner);
      taken := r in pending && Answers(entries[pending[r]], d, owner);
      if taken {
        var e := pending[r];
        pending, entries := pending - {r}, entries[e := entries[e].(claim := Taken(d, owner))];
      }
    }

    /** remove: unregister the peer and sweep the table. */
    method Drop(p: Peer, registered: Option<Device>)
      requires Safe(View())
      modifies this
      ensures View() == Next(old(View()), Leave(p, registered)) && Safe(View())
    {
      LeaveKeeps(View(), p, registered);
      var current := registered.Some? && registered.value in devices && devices[registered.value] == p;
      var cut := if current then registered else None;
      browsers, gone := browsers - {p}, gone + {p};
      if current { devices := devices - {registered.value}; }
      Sweep(p, cut, old(browsers));
    }

    method Sweep(p: Peer, cut: Option<Device>, ghost known: set<Peer>)
      requires TableOk(known, pending, entries)
      modifies this`pending, this`entries
      ensures pending == KeptPending(old(pending), old(entries), p, cut)
      ensures entries == SweptEntries(old(pending), old(entries), p, cut)
    {
      hide KeptBut;
      hide SweptBut;
      hide TableOk;
      hide Affected;
      hide Swept;
      var left := pending.Keys;
      SweepBegins(pending, entries, p, cut);
      while left != {}
        invariant left <= old(pending).Keys
        invariant pending == KeptBut(old(pending), old(entries), p, cut, left)
        invariant entries == SweptBut(old(pending), old(entries), p, cut, left)
        decreases |left|
      {
        var r :| r in left;
        SweepStep(known, old(pending), old(entries), p, cut, left, r);
        left := left - {r};
        var e := pending[r];
        if Affected(entries[e], p, cut) {
          entries := entries[e := Swept(entries[e], p)];
          pending := pending - {r};
        }
      }
    }
  }

  lemma SweepBegins(pending: map<Request, Tag>, entries: map<Tag, Entry>, p: Peer, cut: Option<Device>)
    ensures KeptBut(pending, entries, p, cut, pending.Keys) == pending
    ensures SweptBut(pending, entries, p, cut, pending.Keys) == entries
  {
  }

  /** Visiting one request: its entry leaves the table exactly if it is affected. */
  lemma SweepStep(known: set<Peer>, pending: map<Request, Tag>, entries: map<Tag, Entry>, p: Peer, cut: Option<Device>,
      left: set<Request>, r: Request)
    requires TableOk(known, pending, entries) && left <= pending.Keys && r in left
    ensures var kept, swept := KeptBut(pending, entries, p, cut, left), SweptBut(pending, entries, p, cut, left);
      && r in kept && kept[r] in swept && swept[kept[r]] == entries[pending[r]]
      && KeptBut(pending, entries, p, cut, left - {r}) ==
        (if Affected(swept[kept[r]], p, cut) then kept - {r} else kept)
      && SweptBut(pending, entries, p, cut, left - {r}) ==
        (if Affected(swept[kept[r]], p, cut) then swept[kept[r] := Swept(swept[kept[r]], p)] else swept)
  {
    hide Swept;
    hide Affected;
    assert Listed(known, r, entries[pending[r]]);
    KeptStep(pending, entries, p, cut, left, r);
    SweptStep(pending, entries, p, cut, left, r);
  }

  lemma KeptStep(pending: map<Request, Tag>, entries: map<Tag, Entry>, p: Peer, cut: Option<Device>, left: set<Request>,
      r: Request)
    requires r in left && r in pending && pending[r] in entries
    ensures var kept := KeptBut(pending, entries, p, cut, left);
      && r in kept && kept[r] == pending[r]
      && KeptBut(pending, entries, p, cut, left - {r}) ==
        (if Affected(entries[pending[r]], p, cut) then kept - {r} else kept)
  {
    hide Affected;
  }

  lemma SweptStep(pending: map<Request, Tag>, entries: map<Tag, Entry>, p: Peer, cut: Option<Device>,
      left: set<Request>, r: Request)
    requires r in left && r in pending && pending[r] in entries && entries[pending[r]].request == r
    ensures var swept, e := SweptBut(pending, entries, p, cut, left), pending[r];
      && e in swept && swept[e] == entries[e]
      && SweptBut(pending, entries, p, cut, left - {r}) ==
        (if Affected(entries[e], p, cut) then swept[e := Swept(entries[e], p)] else swept)
  {
    hide Affected;
    hide Swept;
  }
}
