/** The device lease (cloud-relay-go/main.go): one Redis register per device with
    an expiry, contended by the peers of any number of relay instances. A register
    holds `owner|token`; every peer has its own random token. */
module DeviceLease {
  import opened OrderedMaps

  type User = string
  type Device = string

  const LEASE_TTL: nat := 45

  datatype Peer = Peer(token: string, device: Device)

  datatype Cell = Cell(value: string, expires: nat)

  /** `owners` is each peer's ownerUser field; `tried` are the peers that sent
      their one hello, `ready` those whose hello succeeded. */
  datatype World = World(
    now: nat, cells: map<Device, Cell>, revoked: set<Device>,
    owners: map<Peer, User>, tried: set<Peer>, ready: set<Peer>)

  function Value(owner: User, token: string): string { owner + "|" + token }

  /** GET: an expired register reads as absent. */
  function Get(w: World, d: Device): Option<string>
  {
    if d in w.cells && w.now < w.cells[d].expires then Some(w.cells[d].value) else None
  }

  function Owner(w: World, p: Peer): User { if p in w.owners then w.owners[p] else "" }

  predicate Holds(w: World, p: Peer)
  {
    Get(w, p.device) == Some(Value(Owner(w, p), p.token))
  }

  /** The peer's token is the one in the register, whatever owner it is filed under. */
  ghost predicate HoldsToken(w: World, p: Peer)
  {
    exists o :: Get(w, p.device) == Some(Value(o, p.token))
  }

  datatype Step =
    | Tick(seconds: nat)
    | Revoke(d: Device)
    | Acquire(p: Peer, owner: User)                        // device-hello
    | Renew(p: Peer)                                       // markDevicePresence
    | Clear(p: Peer)                                       // clearDevicePresence
    | BindScript(p: Peer, oldOwner: User, newOwner: User)  // bindDeviceOwner, in Redis
    | BindCommit(p: Peer, newOwner: User)                  // bindDeviceOwner, in the peer

  /** What the renewal script answered; only `Lost` ends the connection. */
  datatype Renewal = Untracked | Revoked | Renewed | Lost

  function Renewing(w: World, p: Peer): Renewal
  {
    if Owner(w, p) == "" then Untracked
    else if p.device in w.revoked then Revoked
    else if Holds(w, p) then Renewed
    else Lost
  }

  predicate Enabled(w: World, step: Step)
  {
    match step
    case Acquire(p, _) => p !in w.tried
    case Renew(p) => p in w.ready
    case BindScript(_, _, newOwner) => newOwner != ""
    case BindCommit(_, newOwner) => newOwner != ""
    case _ => true
  }

  function Put(w: World, d: Device, value: string): World
  {
    w.(cells := w.cells[d := Cell(value, w.now + LEASE_TTL)])
  }

  predicate Admits(w: World, p: Peer, oldOwner: User, newOwner: User)
  {
    var current := Get(w, p.device);
    current == None || current == Some(Value(oldOwner, p.token)) || current == Some(Value(newOwner, p.token))
  }

  function Next(w: World, step: Step): World
  {
    match step
    case Tick(n) => w.(now := w.now + n)
    case Revoke(d) => w.(revoked := w.revoked + {d})
    case Acquire(p, owner) =>
      var w' := w.(owners := w.owners[p := owner], tried := w.tried + {p});
      if owner == "" then w'.(ready := w.ready + {p})
      else if Get(w, p.device) == None then Put(w', p.device, Value(owner, p.token)).(ready := w.ready + {p})
      else w'
    case Renew(p) =>
      if Renewing(w, p) == Renewed then Put(w, p.device, Value(Owner(w, p), p.token))
      else if Renewing(w, p) == Lost then w.(ready := w.ready - {p})
      else w
    case Clear(p) =>
      if Owner(w, p) != "" && Holds(w, p) then w.(cells := w.cells - {p.device}) else w
    case BindScript(p, oldOwner, newOwner) =>
      if Admits(w, p, oldOwner, newOwner) then Put(w, p.device, Value(newOwner, p.token)) else w
    case BindCommit(p, newOwner) => w.(owners := w.owners[p := newOwner])
  }

  // ---- A register names one peer ----

  /** Tokens are base64url text, so the last bar ends the owner. */
  lemma ValueNamesToken(o: User, t: string, o': User, t': string)
    requires '|' !in t && '|' !in t' && Value(o, t) == Value(o', t')
    ensures o == o' && t == t'
  {
    var v := Value(o, t);
    LastBar(o, t);
    LastBar(o', t');
    assert |o| == |o'|;
    assert o == v[..|o|] && o' == v[..|o|];
    assert t == v[|o| + 1..] && t' == v[|o| + 1..];
  }

  lemma LastBar(o: User, t: string)
    requires '|' !in t
    ensures Value(o, t)[|o|] == '|'
    ensures forall i :: |o| < i < |Value(o, t)| ==> Value(o, t)[i] != '|'
  {
    forall i | |o| < i < |Value(o, t)| ensures Value(o, t)[i] != '|' {
      assert Value(o, t)[i] == t[i - |o| - 1];
      assert t[i - |o| - 1] in t;
    }
  }

  ghost predicate Tokens(p: Peer, q: Peer)
  {
    '|' !in p.token && '|' !in q.token && p.token != q.token
  }

  lemma ValuesDiffer(p: Peer, q: Peer, o: User, o': User)
    requires Tokens(p, q)
    ensures Value(o, p.token) != Value(o', q.token)
  {
    if Value(o, p.token) == Value(o', q.token) { ValueNamesToken(o, p.token, o', q.token); }
  }

  /** Two peers never hold one device's lease together. */
  lemma OneHolder(w: World, p: Peer, q: Peer)
    requires Tokens(p, q) && p.device == q.device && HoldsToken(w, p)
    ensures !HoldsToken(w, q)
  {
    forall o, o' ensures Value(o, p.token) != Value(o', q.token) { ValuesDiffer(p, q, o, o'); }
  }

  /** The peer whose hello, heartbeat, cleanup or pairing a step is. */
  ghost predicate By(step: Step, p: Peer)
  {
    match step
    case Tick(_) => false
    case Revoke(_) => false
    case Acquire(q, _) => q == p
    case Renew(q) => q == p
    case Clear(q) => q == p
    case BindScript(q, _, _) => q == p
    case BindCommit(q, _) => q == p
  }

  /** No step of another peer touches a lease that is held: not its hello, its
      heartbeat, its cleanup or its pairing. */
  lemma OthersLeaveLeaseAlone(w: World, step: Step, p: Peer, q: Peer, o: User)
    requires By(step, q) && Tokens(p, q)
    requires Get(w, p.device) == Some(Value(o, p.token))
    ensures Get(Next(w, step), p.device) == Some(Value(o, p.token))
    ensures Next(w, step).cells[p.device] == w.cells[p.device]
  {
    ValuesDiffer(p, q, o, Owner(w, q));
    match step
    case BindScript(_, oldOwner, newOwner) =>
      ValuesDiffer(p, q, o, oldOwner);
      ValuesDiffer(p, q, o, newOwner);
    case _ =>
  }

  // ---- Whole runs ----

  function Run(w: World, steps: seq<Step>): World
  {
    if steps == [] then w else Next(Run(w, steps[..|steps| - 1]), steps[|steps| - 1])
  }

  ghost predicate Possible(w: World, steps: seq<Step>)
  {
    steps != [] ==> Possible(w, steps[..|steps| - 1]) && Enabled(Run(w, steps[..|steps| - 1]), steps[|steps| - 1])
  }

  ghost predicate Rebinds(step: Step, p: Peer)
  {
    (step.BindScript? || step.BindCommit?) && step.p == p
  }

  /** Peers other than `p` have other tokens. */
  ghost predicate ForeignTokens(steps: seq<Step>, p: Peer)
  {
    '|' !in p.token && forall i, q :: 0 <= i < |steps| && By(steps[i], q) && q != p ==> Tokens(p, q)
  }

  /** A lease that is held after a step was held before it, unless the step is the
      peer's own hello or pairing. */
  lemma HeldBefore(w: World, step: Step, p: Peer)
    requires Enabled(w, step) && p in w.tried && !Rebinds(step, p)
    requires forall q :: By(step, q) && q != p ==> Tokens(p, q)
    requires Holds(Next(w, step), p)
    ensures Holds(w, p) && Owner(Next(w, step), p) == Owner(w, p) && p in Next(w, step).tried
  {
    var o := Owner(w, p);
    match step
    case Acquire(q, owner) => ValuesDiffer(p, q, o, owner);
    case Renew(q) => if q != p { ValuesDiffer(p, q, o, Owner(w, q)); }
    case BindScript(q, _, newOwner) => ValuesDiffer(p, q, o, newOwner);
    case _ =>
  }

  lemma {:induction false} TriedStays(w: World, steps: seq<Step>, p: Peer)
    requires p in w.tried
    ensures p in Run(w, steps).tried
  {
    if steps == [] {
    } else {
      TriedStays(w, steps[..|steps| - 1], p);
    }
  }

  /** If a peer holds its lease at the end of a run without a rebind, it held it at
      every moment of the run: across instances, expiries and cleanups. */
  lemma {:induction false} HeldThroughout(w: World, steps: seq<Step>, p: Peer, k: nat)
    requires Possible(w, steps) && p in w.tried && ForeignTokens(steps, p) && k <= |steps|
    requires forall i :: 0 <= i < |steps| ==> !Rebinds(steps[i], p)
    requires Holds(Run(w, steps), p)
    ensures Holds(Run(w, steps[..k]), p)
  {
    if k == |steps| {
      assert steps[..k] == steps;
    } else {
      var init, last := steps[..|steps| - 1], steps[|steps| - 1];
      TriedStays(w, init, p);
      HeldBefore(Run(w, init), last, p);
      assert init[..k] == steps[..k];
      HeldThroughout(w, init, p, k);
    }
  }

  /** Two successful renewals without a rebind in between: at every moment between
      them the peer held the lease, and no other peer did. */
  lemma RenewedTwice(w: World, mid: seq<Step>, p: Peer, q: Peer, k: nat)
    requires p in w.ready && p in w.tried && Renewing(w, p) == Renewed
    requires Possible(Next(w, Renew(p)), mid) && ForeignTokens(mid, p) && k <= |mid|
    requires forall i :: 0 <= i < |mid| ==> !Rebinds(mid[i], p)
    requires Renewing(Run(Next(w, Renew(p)), mid), p) == Renewed
    requires Tokens(p, q) && q.device == p.device
    ensures Holds(Run(Next(w, Renew(p)), mid[..k]), p)
    ensures !HoldsToken(Run(Next(w, Renew(p)), mid[..k]), q)
  {
    var w1 := Next(w, Renew(p));
    HeldThroughout(w1, mid, p, k);
    OneHolder(Run(w1, mid[..k]), p, q);
  }

  function Elapsed(steps: seq<Step>): nat
  {
    if steps == [] then 0
    else Elapsed(steps[..|steps| - 1]) + if steps[|steps| - 1].Tick? then steps[|steps| - 1].seconds else 0
  }

  /** Expiry times never lie more than 45 seconds ahead. */
  ghost predicate Fresh(w: World)
  {
    forall d :: d in w.cells ==> w.cells[d].expires <= w.now + LEASE_TTL
  }

  lemma {:induction false} FreshStays(w: World, steps: seq<Step>)
    requires Fresh(w)
    ensures Fresh(Run(w, steps))
  {
    if steps == [] {
    } else {
      FreshStays(w, steps[..|steps| - 1]);
    }
  }

  /** A lease lasts until its expiry whatever the other peers do, so nobody else
      can acquire the device within 45 seconds of a renewal. */
  lemma {:induction false} LeaseLasts(w: World, steps: seq<Step>, p: Peer)
    requires Possible(w, steps) && p in w.tried && ForeignTokens(steps, p)
    requires forall i :: 0 <= i < |steps| ==> !Rebinds(steps[i], p) && steps[i] != Clear(p)
    requires Fresh(w) && Holds(w, p) && w.now + Elapsed(steps) < w.cells[p.device].expires
    ensures var w' := Run(w, steps);
      Holds(w', p) && w'.now == w.now + Elapsed(steps) && w'.cells[p.device].expires >= w.cells[p.device].expires
  {
    if steps == [] {
    } else {
      var init, last := steps[..|steps| - 1], steps[|steps| - 1];
      LeaseLasts(w, init, p);
      TriedStays(w, init, p);
      FreshStays(w, init);
      var w1 := Run(w, init);
      StepKeepsLease(w1, last, p);
    }
  }

  lemma StepKeepsLease(w: World, step: Step, p: Peer)
    requires Enabled(w, step) && p in w.tried && !Rebinds(step, p) && step != Clear(p) && Holds(w, p) && Fresh(w)
    requires forall q :: By(step, q) && q != p ==> Tokens(p, q)
    requires step.Tick? ==> w.now + step.seconds < w.cells[p.device].expires
    ensures Holds(Next(w, step), p) && Next(w, step).cells[p.device].expires >= w.cells[p.device].expires
    ensures Next(w, step).now == w.now + if step.Tick? then step.seconds else 0
  {
    if !step.Tick? && !step.Revoke? {
      var q := match step
        case Acquire(q, _) => q
        case Renew(q) => q
        case Clear(q) => q
        case BindScript(q, _, _) => q
        case BindCommit(q, _) => q;
      if q != p { OthersLeaveLeaseAlone(w, step, p, q, Owner(w, p)); }
    }
  }

  /** A revoked device's heartbeats do not end the connection and do not extend
      the lease either: without a rebind the lease is gone within 45 seconds. */
  lemma {:induction false} RevokedLeaseRunsOut(w: World, steps: seq<Step>, p: Peer)
    requires Possible(w, steps) && p in w.tried && ForeignTokens(steps, p) && Fresh(w)
    requires p.device in w.revoked && Owner(w, p) != ""
    requires forall i :: 0 <= i < |steps| ==> !Rebinds(steps[i], p)
    ensures Renewing(Run(w, steps), p) == Revoked
    ensures Next(Run(w, steps), Renew(p)) == Run(w, steps)
    ensures Elapsed(steps) >= LEASE_TTL ==> !Holds(Run(w, steps), p)
  {
    RevokedUntouched(w, steps, p);
  }

  lemma {:induction false} RevokedUntouched(w: World, steps: seq<Step>, p: Peer)
    requires Possible(w, steps) && p in w.tried && ForeignTokens(steps, p)
    requires p.device in w.revoked
    requires forall i :: 0 <= i < |steps| ==> !Rebinds(steps[i], p)
    ensures var w' := Run(w, steps);
      && p.device in w'.revoked && Owner(w', p) == Owner(w, p) && p in w'.tried
      && w'.now == w.now + Elapsed(steps)
      && (Holds(w', p) ==> Holds(w, p) && w'.cells[p.device] == w.cells[p.device])
  {
    if steps == [] {
    } else {
      var init, last := steps[..|steps| - 1], steps[|steps| - 1];
      RevokedUntouched(w, init, p);
      var w1 := Run(w, init);
      if Holds(Next(w1, last), p) {
        HeldBefore(w1, last, p);
        RevokedStep(w1, last, p);
      }
    }
  }

  lemma RevokedStep(w: World, step: Step, p: Peer)
    requires Enabled(w, step) && p in w.tried && !Rebinds(step, p) && p.device in w.revoked
    requires forall q :: By(step, q) && q != p ==> Tokens(p, q)
    requires Holds(w, p) && Holds(Next(w, step), p)
    ensures Next(w, step).cells[p.device] == w.cells[p.device]
  {
    var o := Owner(w, p);
    match step
    case Acquire(q, owner) => ValuesDiffer(p, q, o, owner);
    case Renew(q) => if q != p { ValuesDiffer(p, q, o, Owner(w, q)); }
    case BindScript(q, _, newOwner) => ValuesDiffer(p, q, o, newOwner);
    case _ =>
  }

  // ---- What each operation achieves ----

  /** A hello gets the lease exactly if nobody holds one, for 45 seconds, and is accepted
      exactly then or without an owner; otherwise the register is left alone. */
  lemma AcquireIff(w: World, p: Peer, owner: User)
    requires p !in w.tried && p !in w.ready
    ensures var w' := Next(w, Acquire(p, owner));
      && (p in w'.ready <==> owner == "" || Get(w, p.device) == None)
      && (owner != "" && Get(w, p.device) == None ==>
        Holds(w', p) && w'.cells[p.device] == Cell(owner + "|" + p.token, w.now + 45))
      && (!(owner != "" && Get(w, p.device) == None) ==> w'.cells == w.cells)
      && Owner(w', p) == owner && p in w'.tried
  {
  }

  /** A renewal succeeds exactly for a peer with an owner that holds the lease of an
      unrevoked device; the lease then ends 45 seconds later, and only a loss ends the
      connection. */
  lemma RenewIff(w: World, p: Peer)
    requires p in w.ready
    ensures var w' := Next(w, Renew(p));
      && (Renewing(w, p) == Renewed <==>
        Owner(w, p) != "" && p.device !in w.revoked && Get(w, p.device) == Some(Owner(w, p) + "|" + p.token))
      && (Renewing(w, p) == Renewed ==> w'.cells[p.device] == Cell(Owner(w, p) + "|" + p.token, w.now + 45))
      && (Renewing(w, p) != Renewed ==> w'.cells == w.cells)
      && (p in w'.ready <==> Renewing(w, p) != Lost)
      && (Renewing(w, p) == Lost <==> Owner(w, p) != "" && p.device !in w.revoked && !Holds(w, p))
  {
  }

  /** So a renewed lease is held for the next 45 seconds, whatever other peers do. */
  lemma RenewedLeaseLasts(w: World, p: Peer, steps: seq<Step>)
    requires p in w.ready && p in w.tried && Renewing(w, p) == Renewed && Fresh(w)
    requires Possible(Next(w, Renew(p)), steps) && ForeignTokens(steps, p) && Elapsed(steps) < 45
    requires forall i :: 0 <= i < |steps| ==> !Rebinds(steps[i], p) && steps[i] != Clear(p)
    ensures Holds(Run(Next(w, Renew(p)), steps), p)
  {
    var w' := Next(w, Renew(p));
    assert Fresh(w');
    LeaseLasts(w', steps, p);
  }

  /** A peer's cleanup frees its own lease. */
  lemma ClearFrees(w: World, p: Peer)
    ensures Owner(w, p) != "" && Holds(w, p) ==> Get(Next(w, Clear(p)), p.device) == None
    ensures forall d :: d != p.device ==> Get(Next(w, Clear(p)), d) == Get(w, d)
  {
  }

  /** Pairing takes the register over exactly if it is free or the peer's own, under the
      new owner and for 45 seconds. */
  lemma BindIff(w: World, p: Peer, oldOwner: User, newOwner: User)
    ensures var w' := Next(w, BindScript(p, oldOwner, newOwner));
      if Get(w, p.device) in [None, Some(oldOwner + "|" + p.token), Some(newOwner + "|" + p.token)]
      then w'.cells == w.cells[p.device := Cell(newOwner + "|" + p.token, w.now + 45)] else w' == w
    ensures var w' := Next(w, BindCommit(p, newOwner));
      Owner(w', p) == newOwner && w'.cells == w.cells && forall q :: q != p ==> Owner(w', q) == Owner(w, q)
  {
  }

  /** A revoked device stays revoked, and its lease is not renewed from then on. */
  lemma RevokeStopsRenewal(w: World, d: Device, p: Peer)
    ensures d in Next(w, Revoke(d)).revoked && Next(w, Revoke(d)).cells == w.cells
    ensures p.device == d ==> Renewing(Next(w, Revoke(d)), p) in [Untracked, Revoked]
  {
  }
}
