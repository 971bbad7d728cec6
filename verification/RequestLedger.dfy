/** The idempotency ledger of client turn requests (server/src/gatewayStore.ts):
    a bounded list of remembered ids per session, and reservations with a time
    to live and a size cap. */
module RequestLedger {
  import opened OrderedMaps

  type Sid = string
  type Key = (Sid, string)

  const RESERVATION_TTL_MS: int := 600_000
  const RESERVATION_MAX: nat := 10_000
  const LEDGER_MAX: nat := 128

  datatype Requests = Requests(ids: seq<string>, last: Option<string>)

  datatype Ledger = Ledger(sessions: map<Sid, Requests>, reservations: OrderedMap<Key, int>)

  /** hasClientRequest */
  predicate HasRequest(l: Ledger, s: Sid, r: string)
  {
    r != "" && s in l.sessions && (r in l.sessions[s].ids || l.sessions[s].last == Some(r))
  }

  /** The reservations made after `cutoff`, in order. */
  function Unexpired(keys: seq<Key>, times: map<Key, int>, cutoff: int): (r: seq<Key>)
    ensures forall k :: k in r ==> k in keys
  {
    if keys == [] then []
    else if keys[0] in times && times[keys[0]] <= cutoff then Unexpired(keys[1..], times, cutoff)
    else [keys[0]] + Unexpired(keys[1..], times, cutoff)
  }

  /** pruneReservations */
  function Prune(m: OrderedMap<Key, int>, now: int): OrderedMap<Key, int>
  {
    var cutoff := now - RESERVATION_TTL_MS;
    var times := map k | k in m.vals && m.vals[k] > cutoff :: m.vals[k];
    OrderedMap(Unexpired(m.keys, m.vals, cutoff), times).Trim(RESERVATION_MAX)
  }

  /** reserveClientRequest */
  function Reserve(l: Ledger, now: int, s: Sid, r: string): (Ledger, bool)
  {
    if s == "" || r == "" then (l, true)
    else if HasRequest(l, s, r) then (l, false)
    else
      var pruned := Prune(l.reservations, now);
      if pruned.Has((s, r)) then (l.(reservations := pruned), false)
      else (l.(reservations := pruned.Set((s, r), now)), true)
  }

  /** releaseClientRequest */
  function Release(l: Ledger, s: Sid, r: string): Ledger
  {
    if s == "" || r == "" then l else l.(reservations := l.reservations.Delete((s, r)))
  }

  /** Non-empty first occurrences, in order. */
  function FirstOccurrences(ids: seq<string>): (r: seq<string>)
    ensures forall x :: x in r ==> x in ids
  {
    if ids == [] then [] else
    var init, last := FirstOccurrences(ids[..|ids| - 1]), ids[|ids| - 1];
    if last == "" || last in ids[..|ids| - 1] then init else init + [last]
  }

  /** rememberClientRequest */
  function Remember(l: Ledger, s: Sid, r: string): Ledger
  {
    if r == "" then l else
    var released := Release(l, s, r);
    if s !in l.sessions then released else
    var ids := TakeLast(FirstOccurrences(l.sessions[s].ids + [r]), LEDGER_MAX);
    released.(sessions := l.sessions[s := Requests(ids, Some(r))])
  }

  /** saveSession of a session that does not exist yet. */
  function Create(l: Ledger, s: Sid): Ledger
  {
    if s in l.sessions then l else l.(sessions := l.sessions[s := Requests([], None)])
  }

  datatype Op =
    | ReserveOp(now: int, s: Sid, r: string)
    | ReleaseOp(s: Sid, r: string)
    | RememberOp(s: Sid, r: string)
    | CreateOp(s: Sid)

  function Step(l: Ledger, op: Op): Ledger
  {
    match op
    case ReserveOp(now, s, r) => Reserve(l, now, s, r).0
    case ReleaseOp(s, r) => Release(l, s, r)
    case RememberOp(s, r) => Remember(l, s, r)
    case CreateOp(s) => Create(l, s)
  }

  function Run(l: Ledger, ops: seq<Op>): Ledger
  {
    if ops == [] then l else Step(Run(l, ops[..|ops| - 1]), ops[|ops| - 1])
  }

  // ---- What every run keeps ----

  ghost predicate GoodIds(ids: seq<string>)
  {
    Distinct(ids) && |ids| <= LEDGER_MAX && "" !in ids
  }

  ghost predicate Good(l: Ledger)
  {
    && l.reservations.Valid()
    && |l.reservations.keys| <= RESERVATION_MAX + 1
    && forall s :: s in l.sessions ==> GoodIds(l.sessions[s].ids)
  }

  lemma {:induction false} FirstOccurrencesOfDistinct(ids: seq<string>)
    requires Distinct(ids) && "" !in ids
    ensures FirstOccurrences(ids) == ids
  {
    if ids == [] {
    } else {
      var init := ids[..|ids| - 1];
      assert ids == init + [ids[|ids| - 1]];
      FirstOccurrencesOfDistinct(init);
    }
  }

  /** Remembering an id appends it unless it is already listed. */
  lemma RememberedIds(ids: seq<string>, r: string)
    requires GoodIds(ids) && r != ""
    ensures TakeLast(FirstOccurrences(ids + [r]), LEDGER_MAX) ==
      if r in ids then ids else TakeLast(ids + [r], LEDGER_MAX)
    ensures GoodIds(TakeLast(FirstOccurrences(ids + [r]), LEDGER_MAX))
  {
    assert (ids + [r])[..|ids|] == ids;
    FirstOccurrencesOfDistinct(ids);
  }

  lemma {:induction false} UnexpiredKeys(keys: seq<Key>, times: map<Key, int>, cutoff: int)
    requires Distinct(keys)
    requires forall k :: k in keys ==> k in times
    ensures Distinct(Unexpired(keys, times, cutoff))
    ensures |Unexpired(keys, times, cutoff)| <= |keys|
    ensures forall k :: k in keys && times[k] > cutoff ==> k in Unexpired(keys, times, cutoff)
    ensures forall k :: k in Unexpired(keys, times, cutoff) ==> k in times && times[k] > cutoff
  {
    if keys == [] {
    } else {
      assert keys[0] !in keys[1..];
      UnexpiredKeys(keys[1..], times, cutoff);
    }
  }

  lemma PruneValid(m: OrderedMap<Key, int>, now: int)
    requires m.Valid()
    ensures Prune(m, now).Valid() && |Prune(m, now).keys| <= RESERVATION_MAX
    ensures Prune(m, now).keys == TakeLast(Unexpired(m.keys, m.vals, now - RESERVATION_TTL_MS), RESERVATION_MAX)
    ensures forall k :: Prune(m, now).Has(k) ==> m.Has(k) && Prune(m, now).vals[k] == m.vals[k]
  {
    var cutoff := now - RESERVATION_TTL_MS;
    UnexpiredKeys(m.keys, m.vals, cutoff);
    var live := OrderedMap(Unexpired(m.keys, m.vals, cutoff), map k | k in m.vals && m.vals[k] > cutoff :: m.vals[k]);
    assert live.Valid();
    TrimKeepsNewest(live, RESERVATION_MAX);
  }

  lemma ReserveKeepsGood(l: Ledger, now: int, s: Sid, r: string)
    requires Good(l)
    ensures Good(Reserve(l, now, s, r).0)
  {
    PruneValid(l.reservations, now);
    var pruned := Prune(l.reservations, now);
    if !pruned.Has((s, r)) { AddKeepsValid(pruned, (s, r), now); }
  }

  lemma ReleaseKeepsGood(l: Ledger, s: Sid, r: string)
    requires Good(l)
    ensures Good(Release(l, s, r))
  {
    DeleteKeepsValid(l.reservations, (s, r));
  }

  lemma RememberKeepsGood(l: Ledger, s: Sid, r: string)
    requires Good(l)
    ensures Good(Remember(l, s, r))
  {
    ReleaseKeepsGood(l, s, r);
    if s in l.sessions && r != "" { RememberedIds(l.sessions[s].ids, r); }
  }

  lemma StepKeepsGood(l: Ledger, op: Op)
    requires Good(l)
    ensures Good(Step(l, op))
  {
    match op
    case ReserveOp(now, s, r) => ReserveKeepsGood(l, now, s, r);
    case ReleaseOp(s, r) => ReleaseKeepsGood(l, s, r);
    case RememberOp(s, r) => RememberKeepsGood(l, s, r);
    case CreateOp(_) =>
  }

  /** In every run each ledger is free of duplicates with at most 128 ids and
      the reservation map holds at most 10,001 keys. */
  lemma {:induction false} EveryRunStaysBounded(ops: seq<Op>)
    ensures Good(Run(Ledger(map[], Empty()), ops))
  {
    if ops == [] {
    } else {
      EveryRunStaysBounded(ops[..|ops| - 1]);
      StepKeepsGood(Run(Ledger(map[], Empty()), ops[..|ops| - 1]), ops[|ops| - 1]);
    }
  }

  // ---- A reserved key is refused ----

  /** `k` was reserved at time `t` and at most `n` reservations are newer. */
  ghost predicate Held(m: OrderedMap<Key, int>, k: Key, t: int, n: nat)
  {
    && m.Has(k) && m.vals[k] == t
    && exists before, after :: m.keys == before + [k] + after && |after| <= n
  }

  lemma {:induction false} UnexpiredConcat(a: seq<Key>, b: seq<Key>, times: map<Key, int>, cutoff: int)
    ensures Unexpired(a + b, times, cutoff) == Unexpired(a, times, cutoff) + Unexpired(b, times, cutoff)
  {
    if a == [] {
      assert a + b == b;
    } else {
      assert (a + b)[1..] == a[1..] + b;
      UnexpiredConcat(a[1..], b, times, cutoff);
    }
  }

  lemma {:induction false} UnexpiredShrinks(a: seq<Key>, times: map<Key, int>, cutoff: int)
    ensures |Unexpired(a, times, cutoff)| <= |a|
  {
    if a == [] {
    } else {
      UnexpiredShrinks(a[1..], times, cutoff);
    }
  }

  lemma PruneHolds(m: OrderedMap<Key, int>, k: Key, t: int, n: nat, now: int)
    requires m.Valid() && Held(m, k, t, n)
    requires now < t + RESERVATION_TTL_MS && n < RESERVATION_MAX
    ensures Held(Prune(m, now), k, t, n)
  {
    var before, after :| m.keys == before + [k] + after && |after| <= n;
    var b, a := UnexpiredMiddle(before, k, after, m.vals, now - RESERVATION_TTL_MS);
    var kept := KeepsMiddle(b, k, a, RESERVATION_MAX);
    PruneValid(m, now);
    assert Prune(m, now).keys == kept + [k] + a;
    assert (kept + [k] + a)[|kept|] == k;
  }

  lemma UnexpiredMiddle(before: seq<Key>, k: Key, after: seq<Key>, times: map<Key, int>, cutoff: int)
    returns (b: seq<Key>, a: seq<Key>)
    requires k in times && times[k] > cutoff
    ensures Unexpired(before + [k] + after, times, cutoff) == b + [k] + a && |a| <= |after|
  {
    UnexpiredConcat(before + [k], after, times, cutoff);
    UnexpiredConcat(before, [k], times, cutoff);
    UnexpiredShrinks(after, times, cutoff);
    b, a := Unexpired(before, times, cutoff), Unexpired(after, times, cutoff);
    assert [k][1..] == [];
  }

  lemma KeepsMiddle<K>(b: seq<K>, k: K, a: seq<K>, n: nat) returns (kept: seq<K>)
    requires |a| < n
    ensures TakeLast(b + [k] + a, n) == kept + [k] + a
  {
    var drop := if |b + [k] + a| <= n then 0 else |b + [k] + a| - n;
    kept := b[drop..];
  }

  lemma DeleteHolds(m: OrderedMap<Key, int>, k: Key, t: int, n: nat, other: Key)
    requires Held(m, k, t, n) && other != k
    ensures Held(m.Delete(other), k, t, n)
  {
    var before, after :| m.keys == before + [k] + after && |after| <= n;
    WithoutMiddle(before, k, after, other);
    assert m.Delete(other).keys == Without(before, other) + [k] + Without(after, other);
  }

  lemma AddHolds(m: OrderedMap<Key, int>, k: Key, t: int, n: nat, other: Key, now: int)
    requires Held(m, k, t, n) && other !in m.vals
    ensures Held(m.Set(other, now), k, t, n + 1)
  {
    var before, after :| m.keys == before + [k] + after && |after| <= n;
    assert m.Set(other, now).keys == before + [k] + (after + [other]);
  }

  /** How many reservations a run accepts. */
  function Accepted(l: Ledger, ops: seq<Op>): nat
  {
    if ops == [] then 0 else
    var init, last := ops[..|ops| - 1], ops[|ops| - 1];
    Accepted(l, init) +
    (if last.ReserveOp? && Reserve(Run(l, init), last.now, last.s, last.r).1 then 1 else 0)
  }

  /** The operation does not settle the key, nor run a lifetime after `t`. */
  predicate Leaves(op: Op, s: Sid, r: string, t: int)
  {
    && op != ReleaseOp(s, r) && op != RememberOp(s, r)
    && (op.ReserveOp? ==> op.now < t + RESERVATION_TTL_MS)
  }

  predicate Undisturbed(ops: seq<Op>, s: Sid, r: string, t: int)
  {
    forall op :: op in ops ==> Leaves(op, s, r, t)
  }

  lemma ReserveHolds(l: Ledger, now: int, s: Sid, r: string, k: Key, t: int, n: nat)
    requires l.reservations.Valid() && Held(l.reservations, k, t, n)
    requires n < RESERVATION_MAX && now < t + RESERVATION_TTL_MS
    ensures Held(Reserve(l, now, s, r).0.reservations, k, t, if Reserve(l, now, s, r).1 then n + 1 else n)
  {
    var m := l.reservations;
    HeldLonger(m, k, t, n);
    PruneHolds(m, k, t, n, now);
    var pruned := Prune(m, now);
    if !pruned.Has((s, r)) { AddHolds(pruned, k, t, n, (s, r), now); }
  }

  lemma HeldLonger(m: OrderedMap<Key, int>, k: Key, t: int, n: nat)
    requires Held(m, k, t, n)
    ensures Held(m, k, t, n + 1)
  {
    var before, after :| m.keys == before + [k] + after && |after| <= n;
    assert |after| <= n + 1;
  }

  lemma StepHolds(l: Ledger, op: Op, s: Sid, r: string, t: int, n: nat)
    requires Good(l) && Held(l.reservations, (s, r), t, n) && n < RESERVATION_MAX
    requires Leaves(op, s, r, t)
    ensures var n' := if op.ReserveOp? && Reserve(l, op.now, op.s, op.r).1 then n + 1 else n;
      Held(Step(l, op).reservations, (s, r), t, n')
  {
    if op.ReserveOp? {
      ReserveHolds(l, op.now, op.s, op.r, (s, r), t, n);
    } else if op.ReleaseOp? {
      ReleaseHolds(l, op.s, op.r, (s, r), t, n);
    } else if op.RememberOp? {
      ReleaseHolds(l, op.s, op.r, (s, r), t, n);
      assert op.r == "" || Remember(l, op.s, op.r).reservations == Release(l, op.s, op.r).reservations;
    }
  }

  lemma ReleaseHolds(l: Ledger, s: Sid, r: string, k: Key, t: int, n: nat)
    requires Held(l.reservations, k, t, n) && (s, r) != k
    ensures Held(Release(l, s, r).reservations, k, t, n)
  {
    DeleteHolds(l.reservations, k, t, n, (s, r));
  }

  lemma {:induction false} RunHolds(l: Ledger, ops: seq<Op>, s: Sid, r: string, t: int)
    requires Good(l) && Held(l.reservations, (s, r), t, 0)
    requires Undisturbed(ops, s, r, t) && Accepted(l, ops) < RESERVATION_MAX
    ensures Good(Run(l, ops))
    ensures Held(Run(l, ops).reservations, (s, r), t, Accepted(l, ops))
  {
    if ops == [] {
    } else {
      var init, last := ops[..|ops| - 1], ops[|ops| - 1];
      assert ops == init + [last];
      RunHolds(l, init, s, r, t);
      StepKeepsGood(Run(l, init), last);
      StepHolds(Run(l, init), last, s, r, t, Accepted(l, init));
    }
  }

  /** Once accepted, a key that is neither released nor remembered is refused
      until its lifetime ends or 10,000 newer reservations were accepted. */
  lemma ReservedIsRefused(l: Ledger, t: int, s: Sid, r: string, ops: seq<Op>, now: int)
    requires Good(l) && s != "" && r != "" && Reserve(l, t, s, r).1
    requires Undisturbed(ops, s, r, t) && now < t + RESERVATION_TTL_MS
    requires Accepted(Reserve(l, t, s, r).0, ops) < RESERVATION_MAX
    ensures !Reserve(Run(Reserve(l, t, s, r).0, ops), now, s, r).1
  {
    var l1 := Reserve(l, t, s, r).0;
    StepKeepsGood(l, ReserveOp(t, s, r));
    assert l1.reservations.keys == Prune(l.reservations, t).keys + [(s, r)] + [];
    RunHolds(l1, ops, s, r, t);
    var l2 := Run(l1, ops);
    PruneHolds(l2.reservations, (s, r), t, Accepted(l1, ops), now);
  }

  // ---- When a reserved key is accepted again ----

  /** The keys reserved after `k`. */
  function Behind(keys: seq<Key>, k: Key): seq<Key>
  {
    if keys == [] then [] else if keys[0] == k then keys[1..] else Behind(keys[1..], k)
  }

  /** How many reservations newer than `k` are alive at `now`. */
  function NewerAlive(m: OrderedMap<Key, int>, k: Key, now: int): nat
  {
    |Unexpired(Behind(m.keys, k), m.vals, now - RESERVATION_TTL_MS)|
  }

  /** A pruning at `now` keeps `k`: alive, with fewer than 10,000 newer ones alive. */
  predicate Survives(m: OrderedMap<Key, int>, k: Key, now: int)
  {
    k in m.vals && now < m.vals[k] + RESERVATION_TTL_MS && NewerAlive(m, k, now) < RESERVATION_MAX
  }

  lemma {:induction false} BehindSplits(keys: seq<Key>, k: Key) returns (before: seq<Key>)
    requires k in keys
    ensures keys == before + [k] + Behind(keys, k)
  {
    if keys[0] == k {
      before := [];
    } else {
      var rest := BehindSplits(keys[1..], k);
      before := [keys[0]] + rest;
      assert keys == [keys[0]] + keys[1..];
    }
  }

  lemma PruneKeepsIff(m: OrderedMap<Key, int>, k: Key, now: int)
    requires m.Valid() && k in m.vals
    ensures k in Prune(m, now).vals <==> Survives(m, k, now)
    ensures k in Prune(m, now).vals ==> Prune(m, now).vals[k] == m.vals[k]
  {
    PruneValid(m, now);
    var cutoff := now - RESERVATION_TTL_MS;
    UnexpiredKeys(m.keys, m.vals, cutoff);
    hide Prune;
    hide Unexpired;
    if m.vals[k] > cutoff {
      KeptAmongLast(m.keys, m.vals, k, cutoff);
    }
  }

  lemma KeptAmongLast(keys: seq<Key>, times: map<Key, int>, k: Key, cutoff: int)
    requires Distinct(keys) && k in keys && k in times && times[k] > cutoff && Distinct(Unexpired(keys, times, cutoff))
    ensures k in TakeLast(Unexpired(keys, times, cutoff), RESERVATION_MAX) <==>
      |Unexpired(Behind(keys, k), times, cutoff)| < RESERVATION_MAX
  {
    var before := BehindSplits(keys, k);
    var after := Behind(keys, k);
    UnexpiredConcat(before + [k], after, times, cutoff);
    UnexpiredConcat(before, [k], times, cutoff);
    UnexpiredFirst(k, [], times, cutoff);
    hide Unexpired;
    var b, a := Unexpired(before, times, cutoff), Unexpired(after, times, cutoff);
    assert [k] + [] == [k];
    assert Unexpired(keys, times, cutoff) == b + [k] + a;
    InLastIff(b, k, a, RESERVATION_MAX);
  }

  /** Whether an operation prunes the reservations. */
  predicate Prunes(l: Ledger, op: Op)
  {
    op.ReserveOp? && op.s != "" && op.r != "" && !HasRequest(l, op.s, op.r)
  }

  /** `k` survives every pruning of a run. */
  predicate SurvivesRun(l: Ledger, ops: seq<Op>, k: Key)
  {
    ops == [] ||
    (var init, last := ops[..|ops| - 1], ops[|ops| - 1];
     SurvivesRun(l, init, k) && (Prunes(Run(l, init), last) ==> Survives(Run(l, init).reservations, k, last.now)))
  }

  predicate Concerns(op: Op, s: Sid, r: string)
  {
    (op.ReserveOp? || op.ReleaseOp? || op.RememberOp?) && op.s == s && op.r == r
  }

  lemma StepOnOther(l: Ledger, op: Op, s: Sid, r: string)
    requires Good(l) && s != "" && r != "" && !Concerns(op, s, r) && !HasRequest(l, s, r)
    ensures !HasRequest(Step(l, op), s, r)
    ensures var k, m := (s, r), l.reservations;
      && (k in Step(l, op).reservations.vals <==> k in m.vals && (Prunes(l, op) ==> Survives(m, k, op.now)))
      && (k in Step(l, op).reservations.vals ==> Step(l, op).reservations.vals[k] == m.vals[k])
  {
    var k := (s, r);
    if op.ReserveOp? {
      if k in l.reservations.vals { PruneKeepsIff(l.reservations, k, op.now); }
      PruneOnlyDrops(l.reservations, k, op.now);
      hide Prune;
    } else if op.RememberOp? && op.s == s && op.s in l.sessions && op.r != "" {
      RememberedIds(l.sessions[s].ids, op.r);
      hide FirstOccurrences;
    }
  }

  lemma PruneOnlyDrops(m: OrderedMap<Key, int>, k: Key, now: int)
    requires m.Valid()
    ensures k in Prune(m, now).vals ==> k in m.vals
  {
    PruneValid(m, now);
  }

  lemma {:induction false} HeldThroughIff(l: Ledger, ops: seq<Op>, s: Sid, r: string)
    requires Good(l) && s != "" && r != "" && !HasRequest(l, s, r) && (s, r) in l.reservations.vals
    requires forall i :: 0 <= i < |ops| ==> !Concerns(ops[i], s, r)
    ensures Good(Run(l, ops)) && !HasRequest(Run(l, ops), s, r)
    ensures (s, r) in Run(l, ops).reservations.vals <==> SurvivesRun(l, ops, (s, r))
    ensures SurvivesRun(l, ops, (s, r)) ==> Run(l, ops).reservations.vals[(s, r)] == l.reservations.vals[(s, r)]
  {
    if ops == [] {
    } else {
      var init, last := ops[..|ops| - 1], ops[|ops| - 1];
      HeldThroughIff(l, init, s, r);
      StepKeepsGood(Run(l, init), last);
      StepOnOther(Run(l, init), last, s, r);
      hide Step;
      hide Survives;
    }
  }

  /** An accepted key, left alone since, is accepted again if and only if some pruning,
      at the latest that of the new attempt, found its lifetime over or 10,000 newer
      reservations alive. */
  lemma AcceptedAgainIff(l: Ledger, t: int, s: Sid, r: string, ops: seq<Op>, now: int)
    requires Good(l) && s != "" && r != "" && Reserve(l, t, s, r).1
    requires forall i :: 0 <= i < |ops| ==> !Concerns(ops[i], s, r)
    ensures var l1 := Reserve(l, t, s, r).0;
      var l2 := Run(l1, ops);
      Reserve(l2, now, s, r).1 <==> !(SurvivesRun(l1, ops, (s, r)) && Survives(l2.reservations, (s, r), now))
  {
    var l1, k := Reserve(l, t, s, r).0, (s, r);
    StepKeepsGood(l, ReserveOp(t, s, r));
    HeldThroughIff(l1, ops, s, r);
    hide Run;
    var l2 := Run(l1, ops);
    if k in l2.reservations.vals { PruneKeepsIff(l2.reservations, k, now); }
    PruneOnlyDrops(l2.reservations, k, now);
    hide Prune;
  }

  /** A session that was created or remembered something stays, and an id remembered in
      a session is known at once. */
  lemma CreatedRemembers(l: Ledger, s: Sid, r: string)
    requires Good(l) && r != ""
    ensures s in Create(l, s).sessions && (s in l.sessions ==> Create(l, s) == l)
    ensures HasRequest(Remember(Create(l, s), s, r), s, r)
    ensures forall o :: o != s ==> (o in Create(l, s).sessions <==> o in l.sessions)
  {
  }

  // ---- A released key is accepted again ----

  /** Releasing a key makes it acceptable at once, unless it was remembered, and leaves
      every other reservation alone. */
  lemma ReleasedIsAccepted(l: Ledger, s: Sid, r: string, now: int)
    requires Good(l) && s != "" && r != ""
    ensures Reserve(Release(l, s, r), now, s, r).1 <==> !HasRequest(l, s, r)
    ensures forall k :: k != (s, r) ==> (k in Release(l, s, r).reservations.vals <==> k in l.reservations.vals)
    ensures forall k :: k != (s, r) && k in l.reservations.vals ==>
      Release(l, s, r).reservations.vals[k] == l.reservations.vals[k]
  {
    DeleteKeepsValid(l.reservations, (s, r));
    PruneOnlyDrops(Release(l, s, r).reservations, (s, r), now);
    hide Prune;
  }

  // ---- A remembered id is refused ----

  /** Whether an operation adds its id to the ledger of `s`. */
  predicate Adds(l: Ledger, op: Op, s: Sid)
  {
    op.RememberOp? && op.s == s && op.r != "" && s in l.sessions && op.r !in l.sessions[s].ids
  }

  /** How many ids of `s` a run adds after `r`, counted from the last time `r` itself
      was added; an id remembered again while it is listed keeps its place. */
  function NewerIds(l: Ledger, ops: seq<Op>, s: Sid, r: string): nat
  {
    if ops == [] then 0 else
    var init, last := ops[..|ops| - 1], ops[|ops| - 1];
    if !Adds(Run(l, init), last, s) then NewerIds(l, init, s, r)
    else if last.r == r then 0
    else NewerIds(l, init, s, r) + 1
  }

  /** `r` is listed with `n` newer ids, or `n` newer ids have pushed it out. */
  ghost predicate Listed(q: Requests, r: string, n: nat)
  {
    if n < LEDGER_MAX then exists before, after :: q.ids == before + [r] + after && |after| == n
    else r !in q.ids && q.last != Some(r)
  }

  /** The age of `r` after remembering `r'`. */
  function Aged(q: Requests, r: string, n: nat, r': string): nat
  {
    if r' in q.ids then n else if r' == r then 0 else n + 1
  }

  lemma RememberLists(q: Requests, r: string, n: nat, r': string)
    requires GoodIds(q.ids) && Listed(q, r, n) && r' != ""
    ensures Listed(Requests(TakeLast(FirstOccurrences(q.ids + [r']), LEDGER_MAX), Some(r')), r, Aged(q, r, n, r'))
  {
    RememberedIds(q.ids, r');
    hide FirstOccurrences;
    if r' in q.ids {
      ListedAgain(q, r, n, r');
    } else if r' == r {
      ListedLast(q, r, n);
    } else if n < LEDGER_MAX {
      var before, after :| q.ids == before + [r] + after && |after| == n;
      LengthenList(before, r, after, r');
    } else {
      assert r !in TakeLast(q.ids + [r'], LEDGER_MAX);
    }
  }

  lemma ListedAgain(q: Requests, r: string, n: nat, r': string)
    requires Listed(q, r, n) && r' in q.ids
    ensures Listed(Requests(q.ids, Some(r')), r, n)
  {
    if n < LEDGER_MAX {
      var before, after :| q.ids == before + [r] + after && |after| == n;
      assert Requests(q.ids, Some(r')).ids == before + [r] + after;
    }
  }

  lemma ListedLast(q: Requests, r: string, n: nat)
    requires Listed(q, r, n)
    ensures Listed(Requests(TakeLast(q.ids + [r], LEDGER_MAX), Some(r)), r, 0)
  {
    var kept := TakeLast(q.ids + [r], LEDGER_MAX);
    assert kept == kept[..|kept| - 1] + [r] + [];
  }

  lemma LengthenList(before: seq<string>, r: string, after: seq<string>, r': string)
    requires Distinct(before + [r] + after) && r' != r
    requires |after| < LEDGER_MAX
    ensures Listed(Requests(TakeLast(before + [r] + after + [r'], LEDGER_MAX), Some(r')), r, |after| + 1)
  {
    var all := before + [r] + after + [r'];
    assert all == before + [r] + (after + [r']);
    var drop := if |all| <= LEDGER_MAX then 0 else |all| - LEDGER_MAX;
    var kept := TakeLast(all, LEDGER_MAX);
    assert kept == all[drop..];
    if |after| + 1 < LEDGER_MAX {
      assert kept == before[drop..] + [r] + (after + [r']);
    } else {
      BlockDistinct(before + [r], after);
      assert (before + [r])[|before|] == r;
      assert kept == after + [r'];
    }
  }

  lemma StepLists(l: Ledger, op: Op, s: Sid, r: string, n: nat)
    requires Good(l) && s in l.sessions && Listed(l.sessions[s], r, n)
    ensures s in Step(l, op).sessions
    ensures Listed(Step(l, op).sessions[s], r, if Adds(l, op, s) then if op.r == r then 0 else n + 1 else n)
  {
    if op.RememberOp? && op.s == s && op.r != "" {
      RememberLists(l.sessions[s], r, n, op.r);
    }
  }

  lemma {:induction false} RunLists(l: Ledger, ops: seq<Op>, s: Sid, r: string)
    requires Good(l) && s in l.sessions && Listed(l.sessions[s], r, 0)
    ensures Good(Run(l, ops)) && s in Run(l, ops).sessions
    ensures Listed(Run(l, ops).sessions[s], r, NewerIds(l, ops, s, r))
  {
    if ops == [] {
    } else {
      var init, last := ops[..|ops| - 1], ops[|ops| - 1];
      RunLists(l, init, s, r);
      StepKeepsGood(Run(l, init), last);
      StepLists(Run(l, init), last, s, r, NewerIds(l, init, s, r));
    }
  }

  /** A remembered id counts as known exactly while fewer than 128 new ids of its
      session were added since it was itself added, whatever else happens. */
  lemma RememberedKnownIff(l: Ledger, s: Sid, r: string, ops: seq<Op>)
    requires Good(l) && s in l.sessions && r != "" && r !in l.sessions[s].ids
    ensures HasRequest(Run(Remember(l, s, r), ops), s, r) <==> NewerIds(Remember(l, s, r), ops, s, r) < LEDGER_MAX
  {
    var l1 := Remember(l, s, r);
    var ids := l.sessions[s].ids;
    StepKeepsGood(l, RememberOp(s, r));
    RememberedIds(ids, r);
    var kept := TakeLast(ids + [r], LEDGER_MAX);
    assert kept == kept[..|kept| - 1] + [r] + [];
    RunLists(l1, ops, s, r);
    hide Run;
    var q := Run(l1, ops).sessions[s];
    var n := NewerIds(l1, ops, s, r);
    if n < LEDGER_MAX {
      var before, after :| q.ids == before + [r] + after && |after| == n;
      assert q.ids[|before|] == r;
    }
  }

  // ---- The class ----

  lemma UnexpiredFirst(k: Key, rest: seq<Key>, times: map<Key, int>, cutoff: int)
    ensures Unexpired([k] + rest, times, cutoff) ==
      (if k in times && times[k] <= cutoff then [] else [k]) + Unexpired(rest, times, cutoff)
    ensures Unexpired([], times, cutoff) == []
  {
    assert ([k] + rest)[1..] == rest;
  }

  /** The deletion loop of pruneReservations. */
  method DropExpired(keys: seq<Key>, times: map<Key, int>, cutoff: int) returns (live: seq<Key>)
    ensures live == Unexpired(keys, times, cutoff)
  {
    live := [];
    if keys == [] { return; }
    hide Unexpired;
    assert keys[0..] == keys;
    for i := 0 to |keys|
      invariant Unexpired(keys, times, cutoff) == live + Unexpired(keys[i..], times, cutoff)
    {
      ghost var rest := keys[i + 1..];
      assert keys[i..] == [keys[i]] + rest;
      UnexpiredFirst(keys[i], rest, times, cutoff);
      if !(keys[i] in times && times[keys[i]] <= cutoff) { live := live + [keys[i]]; }
    }
    if keys != [] { UnexpiredFirst(keys[0], [], times, cutoff); }
    assert keys[|keys|..] == [];
  }

  class RequestTable {
    var sessions: map<Sid, Requests>
    var reservations: OrderedMap<Key, int>

    constructor ()
      ensures View() == Ledger(map[], Empty())
    {
      sessions, reservations := map[], Empty();
    }

    function View(): Ledger
      reads this
    {
      Ledger(sessions, reservations)
    }

    method PruneReservations(now: int)
      requires reservations.Valid()
      modifies this`reservations
      ensures reservations == Prune(old(reservations), now)
    {
      var cutoff := now - RESERVATION_TTL_MS;
      var live := DropExpired(reservations.keys, reservations.vals, cutoff);
      var times := map k | k in reservations.vals && reservations.vals[k] > cutoff :: reservations.vals[k];
      reservations := EvictOldest(OrderedMap(live, times), RESERVATION_MAX);
    }

    method ReserveClientRequest(now: int, s: Sid, r: string) returns (accepted: bool)
      requires reservations.Valid()
      modifies this`reservations
      ensures View() == Reserve(old(View()), now, s, r).0
      ensures accepted == Reserve(old(View()), now, s, r).1
    {
      if s == "" || r == "" { return true; }
      if HasRequest(View(), s, r) { return false; }
      PruneReservations(now);
      if reservations.Has((s, r)) { return false; }
      reservations := reservations.Set((s, r), now);
      accepted := true;
    }

    method ReleaseClientRequest(s: Sid, r: string)
      modifies this`reservations
      ensures View() == Release(old(View()), s, r)
    {
      if s == "" || r == "" { return; }
      reservations := reservations.Delete((s, r));
    }

    method RememberClientRequest(s: Sid, r: string)
      modifies this
      ensures View() == Remember(old(View()), s, r)
    {
      if r == "" { return; }
      ReleaseClientRequest(s, r);
      if s !in sessions { return; }
      var ids := FirstOccurrences(sessions[s].ids + [r]);
      sessions := sessions[s := Requests(TakeLast(ids, LEDGER_MAX), Some(r))];
    }
  }
}
