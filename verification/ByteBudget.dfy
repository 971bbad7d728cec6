/** A peer's outbound queue (cloud-relay-go/peer_io.go): any number of senders
    reserve bytes with compare-and-swap, hand payloads to a bounded channel, and
    one writer drains it. Every step is one atomic action. */
module ByteBudget {

  const MAX_BYTES: nat := 33_554_432 // 32 << 20
  const BUFFER: nat := 256

  datatype Payload = Payload(id: nat, size: nat)

  /** A call of sendJSON, or of sendJSONBlockingUntil when `blocking`. */
  datatype Sender =
    | Idle
    | Trying(p: Payload, blocking: bool)
    | Loaded(p: Payload, blocking: bool, current: int)
    | Reserved(p: Payload, blocking: bool)
    | Finished(p: Payload, blocking: bool, sent: bool)

  datatype Writer = Waiting | Dequeued(p: Payload) | Writing(p: Payload) | Ended

  /** `accepted` and `written` record the payloads that entered the channel and
      that were handed to the socket, including one whose write then failed. */
  datatype Peer = Peer(
    counter: int, queue: seq<Payload>, closed: bool,
    senders: seq<Sender>, writer: Writer,
    accepted: seq<Payload>, written: seq<Payload>)

  datatype Step =
    | Spawn
    | Begin(i: nat, p: Payload, blocking: bool)
    | SeeClosed(i: nat)            // the blocking loop's first select
    | Load(i: nat)
    | Swap(i: nat, late: bool)     // the limit test and CompareAndSwap
    | Enqueue(i: nat)
    | GiveBack(i: nat, late: bool) // closed or full channel; `late`: past the deadline
    | Dequeue
    | Subtract
    | Write(failed: bool)
    | Close
    | WriterStops

  predicate Enabled(s: Peer, step: Step)
  {
    match step
    case Spawn => true
    case Begin(i, _, _) => i < |s.senders| && (s.senders[i].Idle? || s.senders[i].Finished?)
    case SeeClosed(i) => i < |s.senders| && s.senders[i].Trying? && s.senders[i].blocking && s.closed
    case Load(i) => i < |s.senders| && s.senders[i].Trying?
    case Swap(i, late) => i < |s.senders| && s.senders[i].Loaded?
    case Enqueue(i) => i < |s.senders| && s.senders[i].Reserved? && |s.queue| < BUFFER
    case GiveBack(i, _) => i < |s.senders| && s.senders[i].Reserved? && (s.closed || |s.queue| == BUFFER)
    case Dequeue => s.writer.Waiting? && s.queue != []
    case Subtract => s.writer.Dequeued?
    case Write(_) => s.writer.Writing?
    case Close => true
    case WriterStops => s.closed && s.writer.Waiting?
  }

  function Put(s: Peer, i: nat, sender: Sender): Peer
    requires i < |s.senders|
  {
    s.(senders := s.senders[i := sender])
  }

  /** A send that cannot get its bytes: sendJSON closes the peer, a blocking send
      tries again until its deadline. */
  function Refuse(s: Peer, i: nat, late: bool): Peer
    requires i < |s.senders| && !s.senders[i].Idle?
  {
    var me := s.senders[i];
    if me.blocking && !late then Put(s, i, Trying(me.p, true))
    else Put(s, i, Finished(me.p, me.blocking, false)).(closed := true)
  }

  predicate OverLimit(size: int, current: int)
  {
    size <= 0 || size > MAX_BYTES || current > MAX_BYTES - size
  }

  function Next(s: Peer, step: Step): Peer
    requires Enabled(s, step)
  {
    match step
    case Spawn => s.(senders := s.senders + [Idle])
    case Begin(i, p, blocking) =>
      if p.size <= MAX_BYTES then Put(s, i, Trying(p, blocking))
      else if blocking then Put(s, i, Finished(p, blocking, false))
      else Put(s, i, Finished(p, blocking, false)).(closed := true)
    case SeeClosed(i) => Put(s, i, Finished(s.senders[i].p, true, false))
    case Load(i) => Put(s, i, Loaded(s.senders[i].p, s.senders[i].blocking, s.counter))
    case Swap(i, late) =>
      var me := s.senders[i];
      if OverLimit(me.p.size, me.current) then Refuse(s, i, late)
      else if s.counter == me.current then
        Put(s, i, Reserved(me.p, me.blocking)).(counter := me.current + me.p.size)
      else Put(s, i, Trying(me.p, me.blocking))
    case Enqueue(i) =>
      var me := s.senders[i];
      Put(s, i, Finished(me.p, me.blocking, true)).(queue := s.queue + [me.p], accepted := s.accepted + [me.p])
    case GiveBack(i, late) =>
      var me := s.senders[i];
      if s.closed then Put(s, i, Finished(me.p, me.blocking, false)).(counter := s.counter - me.p.size)
      else Refuse(s, i, late).(counter := s.counter - me.p.size)
    case Dequeue => s.(queue := s.queue[1..], writer := Dequeued(s.queue[0]))
    case Subtract => s.(counter := s.counter - s.writer.p.size, writer := Writing(s.writer.p))
    case Write(failed) =>
      if failed then s.(writer := Ended, closed := true, written := s.written + [s.writer.p])
      else s.(writer := Waiting, written := s.written + [s.writer.p])
    case Close => s.(closed := true)
    case WriterStops => s.(writer := Ended)
  }

  // ---- The budget ----

  function Bytes(queue: seq<Payload>): nat
  {
    if queue == [] then 0 else queue[0].size + Bytes(queue[1..])
  }

  function Held(sender: Sender): nat { if sender.Reserved? then sender.p.size else 0 }

  function InFlight(senders: seq<Sender>): nat
  {
    if senders == [] then 0 else InFlight(senders[..|senders| - 1]) + Held(senders[|senders| - 1])
  }

  function Unsubtracted(writer: Writer): nat { if writer.Dequeued? then writer.p.size else 0 }

  function InHand(writer: Writer): seq<Payload>
  {
    if writer.Dequeued? || writer.Writing? then [writer.p] else []
  }

  lemma {:induction false} BytesAppend(queue: seq<Payload>, p: Payload)
    ensures Bytes(queue + [p]) == Bytes(queue) + p.size
  {
    if queue == [] {
      assert ([] + [p])[1..] == [];
    } else {
      assert (queue + [p])[1..] == queue[1..] + [p];
      BytesAppend(queue[1..], p);
    }
  }

  lemma {:induction false} InFlightUpdate(senders: seq<Sender>, i: nat, sender: Sender)
    requires i < |senders|
    ensures InFlight(senders[i := sender]) == InFlight(senders) - Held(senders[i]) + Held(sender)
  {
    var n := |senders| - 1;
    if i == n {
      assert senders[i := sender][..n] == senders[..n];
    } else {
      assert senders[i := sender][..n] == senders[..n][i := sender];
      InFlightUpdate(senders[..n], i, sender);
    }
  }

  ghost predicate Balanced(s: Peer)
  {
    s.counter == Bytes(s.queue) + InFlight(s.senders) + Unsubtracted(s.writer) && s.counter <= MAX_BYTES
  }

  /** Payloads leave in the order they were accepted, none lost or repeated. */
  ghost predicate Ordered(s: Peer)
  {
    s.accepted == s.written + InHand(s.writer) + s.queue && |s.queue| <= BUFFER
  }

  /** Only a closed peer has refused a payload that fits. */
  ghost predicate HonestSender(sender: Sender, closed: bool)
  {
    && (sender.Finished? && !sender.sent && 0 < sender.p.size <= MAX_BYTES ==> closed)
    && (sender.Reserved? ==> 0 < sender.p.size <= MAX_BYTES)
  }

  ghost predicate Honest(s: Peer)
  {
    forall i :: 0 <= i < |s.senders| ==> HonestSender(s.senders[i], s.closed)
  }

  ghost predicate Inv(s: Peer) { Balanced(s) && Ordered(s) && Honest(s) }

  /** A sender's step changes the counter by what the sender holds more. */
  lemma SenderKeepsBalance(s: Peer, s': Peer, i: nat)
    requires Balanced(s) && i < |s.senders| == |s'.senders|
    requires s'.senders == s.senders[i := s'.senders[i]]
    requires s'.queue == s.queue && s'.writer == s.writer
    requires s'.counter == s.counter + Held(s'.senders[i]) - Held(s.senders[i]) <= MAX_BYTES
    ensures Balanced(s')
  {
    InFlightUpdate(s.senders, i, s'.senders[i]);
  }

  lemma EnqueueKeepsBalance(s: Peer, i: nat)
    requires Balanced(s) && Enabled(s, Enqueue(i))
    ensures Balanced(Next(s, Enqueue(i)))
  {
    InFlightUpdate(s.senders, i, Next(s, Enqueue(i)).senders[i]);
    BytesAppend(s.queue, s.senders[i].p);
  }

  lemma StepKeepsBalance(s: Peer, step: Step)
    requires Balanced(s) && Enabled(s, step)
    ensures Balanced(Next(s, step))
  {
    var s' := Next(s, step);
    hide InFlight;
    match step
    case Spawn => assert InFlight(s'.senders) == InFlight(s.senders) by { SpawnHolds(s.senders); }
    case Begin(i, _, _) => SenderKeepsBalance(s, s', i);
    case SeeClosed(i) => SenderKeepsBalance(s, s', i);
    case Load(i) => SenderKeepsBalance(s, s', i);
    case Swap(i, _) => SenderKeepsBalance(s, s', i);
    case Enqueue(i) => EnqueueKeepsBalance(s, i);
    case GiveBack(i, _) => SenderKeepsBalance(s, s', i);
    case _ =>
  }

  lemma SpawnHolds(senders: seq<Sender>)
    ensures InFlight(senders + [Idle]) == InFlight(senders)
  {
    assert (senders + [Idle])[..|senders|] == senders;
  }

  lemma StepKeepsOrder(s: Peer, step: Step)
    requires Ordered(s) && Enabled(s, step)
    ensures Ordered(Next(s, step))
  {
  }

  lemma StepKeepsHonest(s: Peer, step: Step)
    requires Honest(s) && Enabled(s, step)
    ensures Honest(Next(s, step))
  {
    var s' := Next(s, step);
    forall i | 0 <= i < |s'.senders| ensures HonestSender(s'.senders[i], s'.closed) {
      if i < |s.senders| { assert HonestSender(s.senders[i], s.closed); }
    }
  }

  // ---- Whole runs ----

  ghost predicate Possible(s: Peer, steps: seq<Step>)
    decreases |steps|
  {
    steps != [] ==> Enabled(s, steps[0]) && Possible(Next(s, steps[0]), steps[1..])
  }

  ghost function Run(s: Peer, steps: seq<Step>): Peer
    requires Possible(s, steps)
    decreases |steps|
  {
    if steps == [] then s else Run(Next(s, steps[0]), steps[1..])
  }

  ghost const NewPeer := Peer(0, [], false, [], Waiting, [], [])

  /** In every reachable state the counter is exactly the queued bytes plus the
      bytes reserved by senders in flight plus the bytes dequeued but not yet
      subtracted, and lies between 0 and 32 MiB; the queue is first-in first-out
      with at most 256 payloads; only a closed peer refuses a payload that fits. */
  lemma {:induction false} EveryRunIsBalanced(s: Peer, steps: seq<Step>)
    requires Inv(s) && Possible(s, steps)
    ensures Inv(Run(s, steps)) && Run(s, steps).counter >= 0
    decreases |steps|
  {
    if steps == [] {
    } else {
      StepKeepsBalance(s, steps[0]);
      StepKeepsOrder(s, steps[0]);
      StepKeepsHonest(s, steps[0]);
      EveryRunIsBalanced(Next(s, steps[0]), steps[1..]);
    }
  }

  lemma NewPeerIsBalanced()
    ensures Inv(NewPeer)
  {
  }

  /** The same for every state a new peer can reach. */
  lemma EveryReachablePeerIsBalanced(steps: seq<Step>)
    requires Possible(NewPeer, steps)
    ensures Inv(Run(NewPeer, steps)) && 0 <= Run(NewPeer, steps).counter <= MAX_BYTES
  {
    NewPeerIsBalanced();
    EveryRunIsBalanced(NewPeer, steps);
  }

  // ---- What the steps achieve ----

  /** A swap grants the bytes exactly if the counter is as loaded and has room. */
  lemma SwapGrantsIff(s: Peer, i: nat, late: bool)
    requires Enabled(s, Swap(i, late))
    ensures var me, s' := s.senders[i], Next(s, Swap(i, late));
      if s.counter == me.current && 0 < me.p.size <= MAX_BYTES && s.counter + me.p.size <= MAX_BYTES
      then s'.senders[i] == Reserved(me.p, me.blocking) && s'.counter == s.counter + me.p.size
      else !s'.senders[i].Reserved? && s'.counter == s.counter
  {
  }

  /** A sender that is not disturbed, with room in counter and queue, gets its payload to
      the end of the queue and reports success. */
  lemma UndisturbedSendSucceeds(s: Peer, i: nat, p: Payload, blocking: bool, late: bool)
    requires Enabled(s, Begin(i, p, blocking)) && 0 < p.size && s.counter + p.size <= MAX_BYTES && p.size <= MAX_BYTES
    requires |s.queue| < BUFFER
    ensures var s1 := Next(s, Begin(i, p, blocking));
      Enabled(s1, Load(i)) && var s2 := Next(s1, Load(i));
      Enabled(s2, Swap(i, late)) && var s3 := Next(s2, Swap(i, late));
      Enabled(s3, Enqueue(i)) && var s4 := Next(s3, Enqueue(i));
      && s4.queue == s.queue + [p] && s4.accepted == s.accepted + [p] && s4.counter == s.counter + p.size
      && s4.senders[i] == Finished(p, blocking, true) && s4.closed == s.closed
  {
  }

  /** A payload above the limit is refused at once; a plain send then closes the peer. */
  lemma OversizedIsRefused(s: Peer, i: nat, p: Payload, blocking: bool)
    requires Enabled(s, Begin(i, p, blocking)) && p.size > MAX_BYTES
    ensures var s' := Next(s, Begin(i, p, blocking));
      s'.senders[i] == Finished(p, blocking, false) && s'.closed == (s.closed || !blocking) && s'.counter == s.counter
  {
  }

  /** The writer hands the oldest payload to the socket and frees exactly its bytes. */
  lemma WriterDrains(s: Peer)
    requires Enabled(s, Dequeue)
    ensures var s1 := Next(s, Dequeue);
      Enabled(s1, Subtract) && var s2 := Next(s1, Subtract);
      Enabled(s2, Write(false)) && var s3 := Next(s2, Write(false));
      && s3.queue == s.queue[1..] && s3.written == s.written + [s.queue[0]]
      && s3.counter == s.counter - s.queue[0].size && s3.writer.Waiting? && s3.closed == s.closed
  {
  }

  /** A send that finds the peer closed or the channel full gives its bytes back: a plain
      send closes the peer, a blocking one tries again until it is late. */
  lemma GiveBackReturnsBytes(s: Peer, i: nat, late: bool)
    requires Enabled(s, GiveBack(i, late))
    ensures var me, s' := s.senders[i], Next(s, GiveBack(i, late));
      && s'.counter == s.counter - me.p.size && s'.queue == s.queue && s'.accepted == s.accepted
      && (if !s.closed && me.blocking && !late then s'.senders[i] == Trying(me.p, true) && !s'.closed
          else s'.senders[i] == Finished(me.p, me.blocking, false) && s'.closed)
  {
  }

  // ---- The reservation loop on its own ----

  datatype Reservation = Granted | Refused | StillTrying

  /** reserveOutboundBytes against any interference: `seen` lists the pairs of values
      that this loop's load and its compare-and-swap find in the counter, round by
      round. It is granted only by a swap that adds the size to an unchanged counter
      with room for it, and refused only when a loaded value leaves no room. */
  method ReserveOutboundBytes(size: int, seen: seq<(int, int)>) returns (r: Reservation, rounds: nat, after: int)
    ensures rounds <= |seen|
    ensures forall k :: 0 <= k < rounds ==> seen[k].0 != seen[k].1 && !OverLimit(size, seen[k].0)
    ensures r.StillTrying? <==> rounds == |seen|
    ensures r.Refused? <==> rounds < |seen| && OverLimit(size, seen[rounds].0)
    ensures r.Granted? ==>
      seen[rounds].0 == seen[rounds].1 && after == seen[rounds].1 + size && 0 < size && after <= MAX_BYTES
  {
    rounds, after := 0, 0;
    while rounds < |seen|
      invariant rounds <= |seen|
      invariant forall k :: 0 <= k < rounds ==> seen[k].0 != seen[k].1 && !OverLimit(size, seen[k].0)
    {
      var (current, found) := seen[rounds];
      if size <= 0 || size > MAX_BYTES || current > MAX_BYTES - size {
        return Refused, rounds, after;
      }
      if found == current {
        return Granted, rounds, current + size;
      }
      rounds := rounds + 1;
    }
    r := StillTrying;
  }
}
