/** Device enrollment, pairing and revocation in the relay's memory store
    (cloud-relay-go/store.go, pairing.go, device_revoke.go). Identifiers are taken
    after trimming and validation, codes after upper-casing. */
module DevicePairing {
  import opened OrderedMaps

  type User = string
  type DeviceId = string

  const PAIR_CODE_TTL: nat := 600
  const PAIR_CODE_LENGTH: nat := 6

  /** A digest; different texts have different digests. */
  datatype Hash = Hash(text: string)

  datatype Device = Device(owner: User, name: string, credential: Hash, revoked: bool)

  datatype PairCode = PairCode(device: DeviceId, expires: nat, used: bool)

  datatype Registry = Registry(now: nat, devices: map<DeviceId, Device>, codes: map<Hash, PairCode>)

  datatype Error =
    | DeviceUnauthorized | InvalidDeviceId | DeviceRevoked | DeviceOwned | DeviceNotFound | CodeInvalid | CodeOwned

  datatype Outcome = Ok(value: string) | Err(error: Error)

  /** The device id of an enrollment: given, left to the relay, or malformed. */
  datatype Requested = Chosen(id: DeviceId) | Generated(id: DeviceId) | Malformed

  // ---- Enrollment ----

  function EnrollCheck(reg: Registry, user: User, id: DeviceId): Option<Error>
  {
    if id !in reg.devices then None
    else if reg.devices[id].revoked then Some(DeviceRevoked)
    else if reg.devices[id].owner != "" && reg.devices[id].owner != user then Some(DeviceOwned)
    else None
  }

  function Enroll(reg: Registry, user: User, requested: Requested, name: string, secret: string): (Registry, Outcome)
  {
    if user == "" then (reg, Err(DeviceUnauthorized))
    else if requested.Malformed? then (reg, Err(InvalidDeviceId))
    else
      var check := EnrollCheck(reg, user, requested.id);
      if check.Some? then (reg, Err(check.value))
      else (reg.(devices := reg.devices[requested.id := Device(user, name, Hash(secret), false)]), Ok(secret))
  }

  /** The shared-token registration leaves the owner empty. */
  function RegisterLegacy(reg: Registry, id: Option<DeviceId>, name: string, secret: string): (Registry, Outcome)
  {
    if id.None? then (reg, Err(DeviceNotFound)) else
    var check := EnrollCheck(reg, "", id.value);
    if check.Some? then (reg, Err(check.value))
    else (reg.(devices := reg.devices[id.value := Device("", name, Hash(secret), false)]), Ok(secret))
  }

  function Authenticate(reg: Registry, id: DeviceId, secret: string): Outcome
  {
    if id == "" || secret == "" then Err(DeviceUnauthorized)
    else if id !in reg.devices || reg.devices[id].credential != Hash(secret) then Err(DeviceUnauthorized)
    else if reg.devices[id].revoked then Err(DeviceRevoked)
    else Ok(reg.devices[id].owner)
  }

  function Revoke(reg: Registry, user: User, id: Option<DeviceId>): (Registry, Outcome)
  {
    if user == "" then (reg, Err(DeviceUnauthorized))
    else if id.None? then (reg, Err(InvalidDeviceId))
    else if id.value !in reg.devices || reg.devices[id.value].owner != user then (reg, Err(DeviceUnauthorized))
    else (reg.(devices := reg.devices[id.value := reg.devices[id.value].(revoked := true)]), Ok(""))
  }

  // ---- Pair codes ----

  /** All codes of a device marked used, except those in `left`. */
  function SpentBut(codes: map<Hash, PairCode>, id: DeviceId, left: set<Hash>): map<Hash, PairCode>
  {
    map h | h in codes :: if codes[h].device == id && h !in left then codes[h].(used := true) else codes[h]
  }

  function Spent(codes: map<Hash, PairCode>, id: DeviceId): map<Hash, PairCode> { SpentBut(codes, id, {}) }

  function CreateCode(reg: Registry, id: DeviceId, code: string): (Registry, Outcome)
  {
    if id == "" then (reg, Err(DeviceNotFound))
    else if id !in reg.devices || reg.devices[id].revoked then (reg, Err(DeviceNotFound))
    else if reg.devices[id].owner != "" then (reg, Err(CodeOwned))
    else
      (reg.(codes := Spent(reg.codes, id)[Hash(code) := PairCode(id, reg.now + PAIR_CODE_TTL, false)]), Ok(code))
  }

  predicate Usable(reg: Registry, code: string)
  {
    Hash(code) in reg.codes && !reg.codes[Hash(code)].used && reg.codes[Hash(code)].expires > reg.now
  }

  function ConsumeCode(reg: Registry, code: string, user: User): (Registry, Outcome)
  {
    if |code| != PAIR_CODE_LENGTH || user == "" then (reg, Err(CodeInvalid))
    else if !Usable(reg, code) then (reg, Err(CodeInvalid))
    else
      var c := reg.codes[Hash(code)];
      if c.device !in reg.devices || reg.devices[c.device].revoked then (reg, Err(CodeInvalid))
      else if reg.devices[c.device].owner != "" && reg.devices[c.device].owner != user then (reg, Err(CodeOwned))
      else
        (reg.(devices := reg.devices[c.device := reg.devices[c.device].(owner := user)],
              codes := reg.codes[Hash(code) := c.(used := true)]),
         Ok(c.device))
  }

  function Unexpired(codes: map<Hash, PairCode>, now: nat): map<Hash, PairCode>
  {
    map h | h in codes && codes[h].expires > now :: codes[h]
  }

  // ---- Runs ----

  datatype Step =
    | DoEnroll(user: User, requested: Requested, name: string, secret: string)
    | DoLegacy(target: Option<DeviceId>, name: string, secret: string)
    | DoCreate(id: DeviceId, code: string)
    | DoConsume(code: string, user: User)
    | DoRevoke(user: User, target: Option<DeviceId>)
    | Cleanup
    | Tick(seconds: nat)

  /** The registry with what the relay has handed out: the last secret issued for
      each device, and for each code text its last device and time. */
  datatype World = World(reg: Registry, issued: map<DeviceId, string>, created: map<string, (DeviceId, nat)>)

  function Next(w: World, step: Step): (World, Outcome)
  {
    match step
    case DoEnroll(user, requested, name, secret) =>
      var (reg, o) := Enroll(w.reg, user, requested, name, secret);
      (World(reg, if o.Ok? && !requested.Malformed? then w.issued[requested.id := secret] else w.issued, w.created), o)
    case DoLegacy(id, name, secret) =>
      var (reg, o) := RegisterLegacy(w.reg, id, name, secret);
      (World(reg, if o.Ok? && id.Some? then w.issued[id.value := secret] else w.issued, w.created), o)
    case DoCreate(id, code) =>
      var (reg, o) := CreateCode(w.reg, id, code);
      (World(reg, w.issued, if o.Ok? then w.created[code := (id, w.reg.now)] else w.created), o)
    case DoConsume(code, user) =>
      var (reg, o) := ConsumeCode(w.reg, code, user);
      (w.(reg := reg), o)
    case DoRevoke(user, id) =>
      var (reg, o) := Revoke(w.reg, user, id);
      (w.(reg := reg), o)
    case Cleanup => (w.(reg := w.reg.(codes := Unexpired(w.reg.codes, w.reg.now))), Ok(""))
    case Tick(n) => (w.(reg := w.reg.(now := w.reg.now + n)), Ok(""))
  }

  function Run(w: World, steps: seq<Step>): World
  {
    if steps == [] then w else Next(Run(w, steps[..|steps| - 1]), steps[|steps| - 1]).0
  }

  ghost predicate CredentialsOk(w: World)
  {
    && (forall id :: id in w.reg.devices <==> id in w.issued)
    && (forall id :: id in w.reg.devices ==> w.reg.devices[id].credential == Hash(w.issued[id]))
  }

  /** Each code was handed out for its device, and expires on time. */
  ghost predicate CodesOk(w: World)
  {
    forall h :: h in w.reg.codes ==>
      h.text in w.created && w.reg.codes[h].device == w.created[h.text].0 &&
      w.reg.codes[h].expires == w.created[h.text].1 + PAIR_CODE_TTL
  }

  ghost predicate OneUnused(codes: map<Hash, PairCode>)
  {
    forall h, h' ::
      h in codes && h' in codes && !codes[h].used && !codes[h'].used && codes[h].device == codes[h'].device ==> h == h'
  }

  ghost predicate Inv(w: World) { CredentialsOk(w) && CodesOk(w) && OneUnused(w.reg.codes) }

  ghost const Start := World(Registry(0, map[], map[]), map[], map[])

  lemma StepKeepsCredentials(w: World, step: Step)
    requires CredentialsOk(w)
    ensures CredentialsOk(Next(w, step).0)
  {
    hide Spent;
    hide Unexpired;
  }

  lemma StepKeepsCodes(w: World, step: Step)
    requires CodesOk(w)
    ensures CodesOk(Next(w, step).0)
  {
    hide EnrollCheck;
  }

  lemma SpentAll(codes: map<Hash, PairCode>, id: DeviceId)
    ensures forall h :: h in Spent(codes, id) && Spent(codes, id)[h].device == id ==> Spent(codes, id)[h].used
    ensures OneUnused(codes) ==> OneUnused(Spent(codes, id))
  {
  }

  lemma StepKeepsOneUnused(w: World, step: Step)
    requires OneUnused(w.reg.codes)
    ensures OneUnused(Next(w, step).0.reg.codes)
  {
    hide EnrollCheck;
    if step.DoCreate? {
      SpentAll(w.reg.codes, step.id);
      hide Spent;
    }
  }

  lemma StepKeeps(w: World, step: Step)
    requires Inv(w)
    ensures Inv(Next(w, step).0)
  {
    StepKeepsCredentials(w, step);
    StepKeepsCodes(w, step);
    StepKeepsOneUnused(w, step);
    hide Next;
  }

  ghost predicate OwnerKept(a: Registry, b: Registry)
  {
    forall id :: id in a.devices ==>
      && id in b.devices
      && (a.devices[id].owner != "" ==> b.devices[id].owner == a.devices[id].owner)
      && (a.devices[id].revoked ==> b.devices[id] == a.devices[id])
  }

  lemma StepKeepsOwners(w: World, step: Step)
    ensures OwnerKept(w.reg, Next(w, step).0.reg)
  {
  }

  /** In every run: no device disappears, a non-empty owner never changes, a revoked
      device stays revoked with its owner and credential, and each device has at
      most one unused pair code. */
  lemma {:induction false} EveryRunKeepsOwners(w: World, steps: seq<Step>)
    requires Inv(w)
    ensures Inv(Run(w, steps)) && OwnerKept(w.reg, Run(w, steps).reg)
  {
    hide Next;
    hide Inv;
    if steps == [] {
    } else {
      var init, last := steps[..|steps| - 1], steps[|steps| - 1];
      EveryRunKeepsOwners(w, init);
      StepKeeps(Run(w, init), last);
      StepKeepsOwners(Run(w, init), last);
      OwnerKeptJoins(w.reg, Run(w, init).reg, Run(w, steps).reg);
    }
  }

  lemma OwnerKeptJoins(a: Registry, b: Registry, c: Registry)
    requires OwnerKept(a, b) && OwnerKept(b, c)
    ensures OwnerKept(a, c)
  {
  }

  lemma StartIsSound()
    ensures Inv(Start)
  {
  }

  /** From an empty registry every state is sound, whatever was requested. */
  lemma EveryReachableRegistryIsSound(before: seq<Step>, steps: seq<Step>)
    ensures var w := Run(Start, before); Inv(w) && Inv(Run(w, steps)) && OwnerKept(w.reg, Run(w, steps).reg)
  {
    StartIsSound();
    EveryRunKeepsOwners(Start, before);
    EveryRunKeepsOwners(Run(Start, before), steps);
  }

  /** In every reachable state, authentication succeeds exactly for the last secret
      issued for an unrevoked device, and says "revoked" exactly for that secret. */
  lemma AuthenticatesExactly(w: World, steps: seq<Step>, id: DeviceId, secret: string)
    requires Inv(w) && id != "" && secret != ""
    ensures var w' := Run(w, steps);
      && (Authenticate(w'.reg, id, secret).Ok? ==>
        id in w'.reg.devices && Authenticate(w'.reg, id, secret).value == w'.reg.devices[id].owner)
      && (Authenticate(w'.reg, id, secret).Ok? <==>
        id in w'.issued && w'.issued[id] == secret && id in w'.reg.devices && !w'.reg.devices[id].revoked)
      && (Authenticate(w'.reg, id, secret) == Err(DeviceRevoked) <==>
        id in w'.issued && w'.issued[id] == secret && id in w'.reg.devices && w'.reg.devices[id].revoked)
  {
    EveryRunKeepsOwners(w, steps);
  }

  /** A code pairs the device it was last handed out for, only within ten minutes,
      only if it is unowned or already the user's. */
  lemma ConsumeMeans(w: World, code: string, user: User)
    requires Inv(w) && ConsumeCode(w.reg, code, user).1.Ok?
    ensures var (reg, o) := ConsumeCode(w.reg, code, user);
      && code in w.created && o.value == w.created[code].0 && w.reg.now < w.created[code].1 + PAIR_CODE_TTL
      && o.value in w.reg.devices && w.reg.devices[o.value].owner in {"", user} && !w.reg.devices[o.value].revoked
      && reg.devices[o.value] == w.reg.devices[o.value].(owner := user)
      && (forall id :: id in reg.devices && id != o.value ==>
        id in w.reg.devices && reg.devices[id] == w.reg.devices[id])
      && !Usable(reg, code)
  {
    assert Hash(code).text == code;
  }

  /** Until the same text is handed out again, a code that is used or expired can
      never be consumed: each code pairs at most once. */
  lemma {:induction false} CodesPairOnce(w: World, steps: seq<Step>, code: string, user: User)
    requires !Usable(w.reg, code)
    requires forall i :: 0 <= i < |steps| ==> !(steps[i].DoCreate? && steps[i].code == code)
    ensures !Usable(Run(w, steps).reg, code)
    ensures ConsumeCode(Run(w, steps).reg, code, user) == (Run(w, steps).reg, Err(CodeInvalid))
  {
    if steps == [] {
    } else {
      CodesPairOnce(w, steps[..|steps| - 1], code, user);
      UnusableStays(Run(w, steps[..|steps| - 1]), steps[|steps| - 1], code);
      hide Next;
      hide Usable;
    }
  }

  lemma UnusableStays(w: World, step: Step, code: string)
    requires !Usable(w.reg, code) && !(step.DoCreate? && step.code == code)
    ensures !Usable(Next(w, step).0.reg, code)
  {
    hide EnrollCheck;
  }

  // ---- What each operation achieves ----

  /** Enrollment succeeds exactly for a named user and a well-formed id that is unknown,
      or neither revoked nor owned by another; the secret then authenticates as the user. */
  lemma EnrolledAuthenticates(reg: Registry, user: User, requested: Requested, name: string, secret: string)
    ensures var (reg', o) := Enroll(reg, user, requested, name, secret);
      && (o.Ok? <==> user != "" && !requested.Malformed? && (requested.id in reg.devices ==>
        !reg.devices[requested.id].revoked && reg.devices[requested.id].owner in ["", user]))
      && (o.Err? ==> reg' == reg)
      && (o.Ok? && requested.id != "" && secret != "" ==> Authenticate(reg', requested.id, secret) == Ok(user))
      && (o.Ok? ==> o.value == secret && requested.id in reg'.devices && reg'.devices[requested.id].name == name)
  {
  }

  /** The shared token registers exactly unowned, unrevoked devices, without an owner. */
  lemma LegacyAuthenticates(reg: Registry, id: DeviceId, name: string, secret: string)
    requires id != "" && secret != ""
    ensures var (reg', o) := RegisterLegacy(reg, Some(id), name, secret);
      && (o.Ok? <==> id in reg.devices ==> !reg.devices[id].revoked && reg.devices[id].owner == "")
      && (o.Ok? ==> Authenticate(reg', id, secret) == Ok("")) && (o.Err? ==> reg' == reg)
  {
  }

  /** A code is handed out exactly for a known, unrevoked, unowned device; it can then be
      consumed by anyone within ten minutes, and older codes of the device cannot. */
  lemma CreatedIsUsable(reg: Registry, id: DeviceId, code: string)
    ensures var (reg', o) := CreateCode(reg, id, code);
      && (o.Ok? <==> id != "" && id in reg.devices && !reg.devices[id].revoked && reg.devices[id].owner == "")
      && (o.Err? ==> reg' == reg)
      && (o.Ok? ==> Usable(reg', code) && reg'.codes[Hash(code)] == PairCode(id, reg.now + 600, false))
      && (o.Ok? ==> forall h :: h in reg'.codes && h != Hash(code) && reg'.codes[h].device == id ==> reg'.codes[h].used)
      && (forall h :: h in reg.codes && h != Hash(code) && reg.codes[h].device != id ==>
        h in reg'.codes && reg'.codes[h] == reg.codes[h])
  {
  }

  /** A code is consumed exactly if it is well-formed, unused, unexpired, and its device is
      known, unrevoked and unowned or the user's. */
  lemma ConsumedIff(reg: Registry, code: string, user: User)
    ensures ConsumeCode(reg, code, user).1.Ok? <==>
      && |code| == 6 && user != "" && Hash(code) in reg.codes
      && !reg.codes[Hash(code)].used && reg.codes[Hash(code)].expires > reg.now
      && reg.codes[Hash(code)].device in reg.devices
      && !reg.devices[reg.codes[Hash(code)].device].revoked
      && reg.devices[reg.codes[Hash(code)].device].owner in ["", user]
    ensures ConsumeCode(reg, code, user).1.Err? ==> ConsumeCode(reg, code, user).0 == reg
  {
  }

  /** Cleanup removes no code that could still be used. */
  lemma CleanupKeepsUsable(w: World, code: string)
    ensures Usable(Next(w, Cleanup).0.reg, code) <==> Usable(w.reg, code)
    ensures Next(w, Cleanup).0.reg.devices == w.reg.devices
  {
  }

  /** A device revoked by its owner never authenticates again, in any run; nobody else
      can revoke it. */
  lemma RevokedNeverAuthenticates(w: World, user: User, id: DeviceId, steps: seq<Step>, secret: string)
    requires Inv(w)
    ensures Next(w, DoRevoke(user, Some(id))).1.Ok? <==>
      user != "" && id in w.reg.devices && w.reg.devices[id].owner == user
    ensures Next(w, DoRevoke(user, Some(id))).1.Err? ==> Next(w, DoRevoke(user, Some(id))).0 == w
    ensures var w' := Next(w, DoRevoke(user, Some(id))).0;
      Next(w, DoRevoke(user, Some(id))).1.Ok? ==> !Authenticate(Run(w', steps).reg, id, secret).Ok?
  {
    StepKeeps(w, DoRevoke(user, Some(id)));
    EveryRunKeepsOwners(Next(w, DoRevoke(user, Some(id))).0, steps);
  }

  // ---- The memory store ----

  class DeviceStore {
    var now: nat
    var memoryDevices: map<DeviceId, Device>
    var memoryPairCodes: map<Hash, PairCode>

    ghost function View(): Registry reads this { Registry(now, memoryDevices, memoryPairCodes) }

    constructor ()
      ensures View() == Start.reg
    {
      now, memoryDevices, memoryPairCodes := 0, map[], map[];
    }

    method EnrollDevice(user: User, requested: Requested, name: string, secret: string) returns (o: Outcome)
      modifies this`memoryDevices
      ensures (View(), o) == Enroll(old(View()), user, requested, name, secret)
    {
      if user == "" { return Err(DeviceUnauthorized); }
      if requested.Malformed? { return Err(InvalidDeviceId); }
      var id := requested.id;
      if id in memoryDevices {
        if memoryDevices[id].revoked { return Err(DeviceRevoked); }
        if memoryDevices[id].owner != "" && memoryDevices[id].owner != user { return Err(DeviceOwned); }
      }
      memoryDevices := memoryDevices[id := Device(user, name, Hash(secret), false)];
      return Ok(secret);
    }

    method CreatePairCode(id: DeviceId, code: string) returns (o: Outcome)
      modifies this`memoryPairCodes
      ensures (View(), o) == CreateCode(old(View()), id, code)
    {
      if id == "" || id !in memoryDevices || memoryDevices[id].revoked { return Err(DeviceNotFound); }
      if memoryDevices[id].owner != "" { return Err(CodeOwned); }
      var left := memoryPairCodes.Keys;
      assert SpentBut(memoryPairCodes, id, left) == memoryPairCodes;
      while left != {}
        invariant left <= old(memoryPairCodes).Keys
        invariant memoryPairCodes == SpentBut(old(memoryPairCodes), id, left)
        decreases |left|
      {
        var h :| h in left;
        left := left - {h};
        if memoryPairCodes[h].device == id && !memoryPairCodes[h].used {
          memoryPairCodes := memoryPairCodes[h := memoryPairCodes[h].(used := true)];
        }
      }
      memoryPairCodes := memoryPairCodes[Hash(code) := PairCode(id, now + PAIR_CODE_TTL, false)];
      return Ok(code);
    }

    method ConsumePairCode(code: string, user: User) returns (o: Outcome)
      modifies this`memoryDevices, this`memoryPairCodes
      ensures (View(), o) == ConsumeCode(old(View()), code, user)
    {
      if |code| != PAIR_CODE_LENGTH || user == "" { return Err(CodeInvalid); }
      var h := Hash(code);
      if h !in memoryPairCodes || memoryPairCodes[h].used || memoryPairCodes[h].expires <= now {
        return Err(CodeInvalid);
      }
      var id := memoryPairCodes[h].device;
      if id !in memoryDevices || memoryDevices[id].revoked { return Err(CodeInvalid); }
      if memoryDevices[id].owner != "" && memoryDevices[id].owner != user { return Err(CodeOwned); }
      memoryDevices := memoryDevices[id := memoryDevices[id].(owner := user)];
      memoryPairCodes := memoryPairCodes[h := memoryPairCodes[h].(used := true)];
      return Ok(id);
    }

    /** The pair-code loop of cleanupExpired. */
    method CleanupExpired()
      modifies this`memoryPairCodes
      ensures memoryPairCodes == Unexpired(old(memoryPairCodes), now)
      ensures forall h :: h in memoryPairCodes <==> h in old(memoryPairCodes) && old(memoryPairCodes)[h].expires > now
    {
      var left := memoryPairCodes.Keys;
      while left != {}
        invariant left <= old(memoryPairCodes).Keys
        invariant memoryPairCodes == map h |
          h in old(memoryPairCodes) && (h in left || old(memoryPairCodes)[h].expires > now) :: old(memoryPairCodes)[h]
        decreases |left|
      {
        var h :| h in left;
        left := left - {h};
        if memoryPairCodes[h].expires <= now {
          memoryPairCodes := memoryPairCodes - {h};
        }
      }
    }

    method RevokeDevice(user: User, target: Option<DeviceId>) returns (o: Outcome)
      modifies this`memoryDevices
      ensures (View(), o) == Revoke(old(View()), user, target)
    {
      if user == "" { return Err(DeviceUnauthorized); }
      if target.None? { return Err(InvalidDeviceId); }
      var id := target.value;
      if id !in memoryDevices || memoryDevices[id].owner != user { return Err(DeviceUnauthorized); }
      memoryDevices := memoryDevices[id := memoryDevices[id].(revoked := true)];
      return Ok("");
    }
  }
}
