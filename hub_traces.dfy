/** Runs of the Hub: `Run` is driven by a sequence of inputs, each one an arm
    of the loop's `select` or a call the hub's owner makes while it runs
    (Close, or writing one of the exported fields). Inputs that the hub
    cannot take in its current state are skipped. The lemmas here are about
    whole runs: the close flag never resets, only the first Close schedules
    the close signal, the loop returns at most once, and nothing happens to
    members or channels after it has returned. */
module HubTraces {
  import opened Clients
  import opened HubSpec

  /** One thing that can happen to a hub. */
  datatype Input =
    | Start(now: int)                     // Run is entered
    | Register(d: ClientData)             // the register arm
    | Unregister(c: Client)               // the unregister arm
    | Broadcast(msg: ClientEvent, now: int) // the broadcast arm
    | Tick(now: int)                      // the idle-ticker arm
    | CloseSignal                         // the close arm
    | CloseCall                           // Close, from anywhere
    | SetCloseOnNoClients(on: bool)       // `hub.CloseOnNoClients = on`
    | SetCloseTimeout(timeout: int)       // `hub.CloseTimeout = timeout`
    | Receive(c: Client)                  // the client's reader takes an event

  /** Whether the hub can take input `i` now: an arm needs the loop to be
      running (the ticker only fires when due, the close arm only with a
      signal pending); Register needs an open channel the model tracks that
      is not the sentinel; CloseTimeout must be positive. */
  ghost predicate Enabled(w: World, i: Input) {
    match i
    case Start(_) => w.hub.phase == Created
    case Register(d) =>
      && w.hub.phase == Running && d.client in w.inboxes && !w.inboxes[d.client].closed
      && d.client != w.hub.dummy
    case Unregister(_) => w.hub.phase == Running
    case Broadcast(_, _) => w.hub.phase == Running
    case Tick(now) => w.hub.phase == Running && now >= w.hub.nextTick
    case CloseSignal => w.hub.phase == Running && w.hub.closeSignalPending
    case CloseCall => true
    case SetCloseOnNoClients(_) => true
    case SetCloseTimeout(t) => t > 0
    case Receive(_) => true
  }

  /** The effect of one enabled input; it keeps the invariant. */
  ghost function Apply(w: World, i: Input): (r: World)
    requires Inv(w) && Enabled(w, i)
    ensures Inv(r)
  {
    match i
    case Start(now) => StartInv(w, now); StartStep(w, now)
    case Register(d) => RegisterInv(w, d); RegisterStep(w, d)
    case Unregister(c) => UnregisterInv(w, c); UnregisterStep(w, c)
    case Broadcast(msg, now) => BroadcastInv(w, msg, now); BroadcastStep(w, msg, now)
    case Tick(now) => TickInv(w, now); TickStep(w, now)
    case CloseSignal => CloseSignalInv(w); CloseSignalStep(w)
    case CloseCall => CloseInv(w); w.(hub := RequestClose(w.hub))
    case SetCloseOnNoClients(on) => SetCloseOnNoClientsInv(w, on); w.(hub := w.hub.(closeOnNoClients := on))
    case SetCloseTimeout(t) => SetCloseTimeoutInv(w, t); w.(hub := w.hub.(closeTimeout := t))
    case Receive(c) => ReceiveInv(w, c); ReceiveStep(w, c)
  }

  /** The state after the first input, or the same state if it is skipped. */
  ghost function Next(w: World, i: Input): (r: World)
    requires Inv(w)
    ensures Inv(r)
  {
    if Enabled(w, i) then Apply(w, i) else w
  }

  /** The hub after the inputs `ins`, in order. */
  ghost function Run(w: World, ins: seq<Input>): (r: World)
    requires Inv(w)
    ensures Inv(r)
    decreases |ins|
  {
    if ins == [] then w else Run(Next(w, ins[0]), ins[1..])
  }

  /** Whether input `i` schedules the close signal (starts the goroutine of
      Close). */
  ghost predicate Schedules(w: World, i: Input)
    requires Inv(w)
  {
    Enabled(w, i) && !w.hub.closeSignalPending && Apply(w, i).hub.closeSignalPending
  }

  /** How many inputs of `ins` schedule the close signal. */
  ghost function ScheduleCount(w: World, ins: seq<Input>): nat
    requires Inv(w)
    decreases |ins|
  {
    if ins == [] then 0
    else (if Schedules(w, ins[0]) then 1 else 0) + ScheduleCount(Next(w, ins[0]), ins[1..])
  }

  /** How many inputs of `ins` are taken by the close arm, the only way Run
      returns. */
  ghost function ShutdownCount(w: World, ins: seq<Input>): nat
    requires Inv(w)
    decreases |ins|
  {
    if ins == [] then 0
    else (if ins[0] == CloseSignal && Enabled(w, ins[0]) then 1 else 0) + ShutdownCount(Next(w, ins[0]), ins[1..])
  }

  /** `w1`'s channels are `w0`'s after their readers took some events: no
      channel was added, written to or closed. */
  ghost predicate OnlyDrained(w0: World, w1: World) {
    w1.inboxes.Keys == w0.inboxes.Keys && forall c :: c in w0.inboxes ==> DrainedFrom(w0.inboxes[c], w1.inboxes[c])
  }

  /** Neither a broadcast nor a write of CloseTimeout. */
  predicate Quiet(i: Input) {
    !i.Broadcast? && !i.SetCloseTimeout?
  }

  // ---------------------------------------------------------------------
  // One step

  /** No input clears the close flag. */
  lemma NextKeepsCloseFlag(w: World, i: Input)
    requires Inv(w) && w.hub.closeFlag
    ensures Next(w, i).hub.closeFlag
  {
    if Enabled(w, i) {
      match i
      case Unregister(c) => UnregisterEffect(w, c);
      case Broadcast(msg, now) => BroadcastCloseRequest(w, msg, now);
      case Tick(now) => TickEffect(w, now);
      case CloseSignal => CloseSignalEffect(w);
      case _ =>
    }
  }

  /** No input forgets that a client has been registered. */
  lemma NextKeepsClientsHaveExisted(w: World, i: Input)
    requires Inv(w) && w.hub.clientsHaveExisted
    ensures Next(w, i).hub.clientsHaveExisted
  {
    if Enabled(w, i) {
      match i
      case Unregister(c) => if c in w.hub.members { CloseClientHub(w, c); }
      case Broadcast(msg, now) => BroadcastCloseRequest(w, msg, now);
      case CloseSignal =>
        var w1 := w.(hub := w.hub.(closeSignalPending := false, phase := Stopped));
        EvictAllHub(w1, w1.hub.members.Keys);
      case _ =>
    }
  }

  /** An input that schedules the close signal finds the flag unset and sets
      it. */
  lemma ScheduleNeedsUnsetFlag(w: World, i: Input)
    requires Inv(w) && Schedules(w, i)
    ensures !w.hub.closeFlag && Next(w, i).hub.closeFlag
  {
    assert Apply(w, i).hub.closeFlag;
  }

  /** After the loop has returned nothing but the configuration changes: no
      member, no channel, and the phase stays Stopped. */
  lemma NextAfterStop(w: World, i: Input)
    requires Inv(w) && w.hub.phase == Stopped
    ensures Next(w, i).hub.phase == Stopped
    ensures Next(w, i).hub.members == w.hub.members == map[]
    ensures OnlyDrained(w, Next(w, i))
    ensures !i.Receive? ==> Next(w, i).inboxes == w.inboxes
    ensures Next(w, i).hub.closeFlag && !Next(w, i).hub.closeSignalPending
  {
    forall c | c in w.inboxes ensures DrainedFrom(w.inboxes[c], Next(w, i).inboxes[c]) {
      PopDrains(w.inboxes[c]);
    }
  }

  /** Only a broadcast stamps the time of the last message, and only a write
      of CloseTimeout changes the timeout. */
  lemma NextKeepsIdleClock(w: World, i: Input)
    requires Inv(w)
    ensures !i.Broadcast? ==> Next(w, i).hub.lastMessageTimestamp == w.hub.lastMessageTimestamp
    ensures !i.SetCloseTimeout? ==> Next(w, i).hub.closeTimeout == w.hub.closeTimeout
  {
    if Enabled(w, i) {
      match i
      case Register(d) => RegisterEffect(w, d);
      case Unregister(c) => UnregisterEffect(w, c);
      case Broadcast(msg, now) => BroadcastCloseRequest(w, msg, now);
      case Tick(now) => TickEffect(w, now);
      case CloseSignal => CloseSignalEffect(w);
      case _ =>
    }
  }

  /** The idle tick that follows: a due tick requests Close iff the time since
      the last message has reached CloseTimeout (or Close was requested). */
  lemma NextTick(w: World, now: int)
    requires Inv(w) && w.hub.phase == Running && now >= w.hub.nextTick
    ensures Next(w, Tick(now)).hub.closeFlag <==>
              w.hub.closeFlag || now - w.hub.lastMessageTimestamp >= w.hub.closeTimeout
  {
    TickEffect(w, now);
  }

  // ---------------------------------------------------------------------
  // Whole runs

  lemma OnlyDrainedTrans(w0: World, w1: World, w2: World)
    requires OnlyDrained(w0, w1) && OnlyDrained(w1, w2)
    ensures OnlyDrained(w0, w2)
  {
    forall c | c in w0.inboxes ensures DrainedFrom(w0.inboxes[c], w2.inboxes[c]) {
      DrainedTrans(w0.inboxes[c], w1.inboxes[c], w2.inboxes[c]);
    }
  }

  lemma OnlyDrainedRefl(w: World)
    ensures OnlyDrained(w, w)
  {
    forall c | c in w.inboxes ensures DrainedFrom(w.inboxes[c], w.inboxes[c]) {
      assert w.inboxes[c].queue[0..] == w.inboxes[c].queue;
    }
  }

  /** The close flag never returns to unset. */
  lemma {:induction false} CloseFlagNeverResets(w: World, ins: seq<Input>)
    requires Inv(w) && w.hub.closeFlag
    ensures Run(w, ins).hub.closeFlag
    decreases |ins|
  {
    if ins != [] {
      NextKeepsCloseFlag(w, ins[0]);
      CloseFlagNeverResets(Next(w, ins[0]), ins[1..]);
    }
  }

  /** Once a client has been registered, the hub remembers it for the rest of
      any run, so the empty check stays armed. */
  lemma {:induction false} ClientsHaveExistedStays(w: World, ins: seq<Input>)
    requires Inv(w) && w.hub.clientsHaveExisted
    ensures Run(w, ins).hub.clientsHaveExisted
    decreases |ins|
  {
    if ins != [] {
      NextKeepsClientsHaveExisted(w, ins[0]);
      ClientsHaveExistedStays(Next(w, ins[0]), ins[1..]);
    }
  }

  /** Only the Close that swaps the flag schedules the close signal: at most
      once in any run, and never once the flag is set. */
  lemma {:induction false} CloseSchedulesOnce(w: World, ins: seq<Input>)
    requires Inv(w)
    ensures ScheduleCount(w, ins) <= if w.hub.closeFlag then 0 else 1
    decreases |ins|
  {
    if ins != [] {
      var w' := Next(w, ins[0]);
      CloseSchedulesOnce(w', ins[1..]);
      if Schedules(w, ins[0]) {
        ScheduleNeedsUnsetFlag(w, ins[0]);
      } else if w.hub.closeFlag {
        NextKeepsCloseFlag(w, ins[0]);
      }
    }
  }

  /** After the loop has returned, nobody is a member again and no channel
      is written to or closed, whatever happens: the channels change only by
      their readers draining them, and not at all when nobody reads. */
  lemma {:induction false} StoppedIsFinal(w: World, ins: seq<Input>)
    requires Inv(w) && w.hub.phase == Stopped
    ensures Run(w, ins).hub.phase == Stopped
    ensures Run(w, ins).hub.members == map[]
    ensures OnlyDrained(w, Run(w, ins))
    ensures (forall k :: 0 <= k < |ins| ==> !ins[k].Receive?) ==> Run(w, ins).inboxes == w.inboxes
    decreases |ins|
  {
    if ins != [] {
      var w' := Next(w, ins[0]);
      NextAfterStop(w, ins[0]);
      StoppedIsFinal(w', ins[1..]);
      OnlyDrainedTrans(w, w', Run(w', ins[1..]));
      if forall k :: 0 <= k < |ins| ==> !ins[k].Receive? {
        assert forall k :: 0 <= k < |ins[1..]| ==> ins[1..][k] == ins[k + 1];
      }
    } else {
      OnlyDrainedRefl(w);
    }
  }

  /** The loop returns at most once in any run, and not at all once it has
      returned. */
  lemma {:induction false} ShutdownOnce(w: World, ins: seq<Input>)
    requires Inv(w)
    ensures ShutdownCount(w, ins) <= if w.hub.phase == Stopped then 0 else 1
    decreases |ins|
  {
    if ins != [] {
      var w' := Next(w, ins[0]);
      ShutdownOnce(w', ins[1..]);
      if ins[0] == CloseSignal && Enabled(w, ins[0]) {
        CloseSignalEffect(w);
      } else if w.hub.phase == Stopped {
        NextAfterStop(w, ins[0]);
      }
    }
  }

  /** A read leaves the hub alone and only drains a channel. */
  lemma NextReceive(w: World, c: Client)
    requires Inv(w)
    ensures Next(w, Receive(c)).hub == w.hub
    ensures OnlyDrained(w, Next(w, Receive(c)))
  {
    ReceiveEffect(w, c);
    var r := Next(w, Receive(c));
    forall k | k in w.inboxes ensures DrainedFrom(w.inboxes[k], r.inboxes[k]) {
      PopDrains(w.inboxes[k]);
      if k != c {
        OnlyDrainedRefl(w);
      }
    }
  }

  /** Unregister and broadcast inputs before the first Register, among any
      reads, change nothing but the time of the last message: they never
      request Close through the empty check, and deliver to and close no
      channel. */
  lemma {:induction false} NoEmptyCloseBeforeFirstRegister(w: World, ins: seq<Input>)
    requires Inv(w) && !w.hub.clientsHaveExisted
    requires forall k :: 0 <= k < |ins| ==> ins[k].Unregister? || ins[k].Broadcast? || ins[k].Receive?
    ensures Run(w, ins).hub.closeFlag == w.hub.closeFlag
    ensures Run(w, ins).hub.closeSignalPending == w.hub.closeSignalPending
    ensures Run(w, ins).hub.members == w.hub.members == map[]
    ensures OnlyDrained(w, Run(w, ins))
    decreases |ins|
  {
    if ins != [] {
      var w' := Next(w, ins[0]);
      match ins[0] {
        case Unregister(c) =>
          if Enabled(w, ins[0]) { NoEmptyCloseBeforeRegister(w, c, ClientEvent(c, Event("", [])), 0); }
          OnlyDrainedRefl(w);
        case Broadcast(msg, now) =>
          if Enabled(w, ins[0]) { NoEmptyCloseBeforeRegister(w, msg.client, msg, now); }
          OnlyDrainedRefl(w);
        case Receive(c) => NextReceive(w, c);
      }
      assert forall k :: 0 <= k < |ins[1..]| ==> ins[1..][k] == ins[k + 1];
      NoEmptyCloseBeforeFirstRegister(w', ins[1..]);
      OnlyDrainedTrans(w, w', Run(w', ins[1..]));
    } else {
      OnlyDrainedRefl(w);
    }
  }

  /** Between broadcasts and writes of CloseTimeout the idle clock stands
      still: the time of the last message and the timeout are kept. */
  lemma {:induction false} QuietRunKeepsIdleClock(w: World, ins: seq<Input>)
    requires Inv(w)
    requires forall k :: 0 <= k < |ins| ==> Quiet(ins[k])
    ensures Run(w, ins).hub.lastMessageTimestamp == w.hub.lastMessageTimestamp
    ensures Run(w, ins).hub.closeTimeout == w.hub.closeTimeout
    decreases |ins|
  {
    if ins != [] {
      NextKeepsIdleClock(w, ins[0]);
      assert forall k :: 0 <= k < |ins[1..]| ==> ins[1..][k] == ins[k + 1];
      QuietRunKeepsIdleClock(Next(w, ins[0]), ins[1..]);
    }
  }

  /** A broadcast at time `t` postpones the idle shutdown by a full
      CloseTimeout, whatever else happens in between short of another
      broadcast or a new timeout: a due tick at `now` then requests Close iff
      `now - t` has reached CloseTimeout (or Close was requested already). */
  lemma BroadcastPostponesIdleCloseInRun(w: World, msg: ClientEvent, t: int, ins: seq<Input>, now: int)
    requires Inv(w) && w.hub.phase == Running
    requires forall k :: 0 <= k < |ins| ==> Quiet(ins[k])
    ensures var before := Run(w, [Broadcast(msg, t)] + ins);
      before.hub.phase == Running && now >= before.hub.nextTick ==>
        (Run(w, [Broadcast(msg, t)] + ins + [Tick(now)]).hub.closeFlag <==>
           before.hub.closeFlag || now - t >= w.hub.closeTimeout)
  {
    var b := [Broadcast(msg, t)];
    var w1 := Next(w, Broadcast(msg, t));
    NextBroadcast(w, msg, t);
    BroadcastCloseRequest(w, msg, t);
    RunOne(w, Broadcast(msg, t));
    RunAppend(w, b, ins);
    QuietRunKeepsIdleClock(w1, ins);
    var before := Run(w, b + ins);
    RunAppend(w, b + ins, [Tick(now)]);
    RunOne(before, Tick(now));
    if before.hub.phase == Running && now >= before.hub.nextTick {
      NextTick(before, now);
    }
  }

  // ---------------------------------------------------------------------
  // A concrete run

  /** The default registration options: no self-echo, no onClose. */
  function Plain(c: Client): ClientData {
    RegistrationData(c, RegistrationOptions(false, NoCallback))
  }

  /** An empty 256-slot channel, the capacity of the sample clients. */
  const Fresh: Inbox := Inbox(256, [], false, 0)

  /** The three registrations of the concrete run, one input at a time. */
  ghost function Registered(a: Client, b: Client, c: Client, dummy: Client): World {
    World(NewHub(dummy, 0).(phase := Running, nextTick := TenMinutes, clientsHaveExisted := true,
                            members := map[a := Plain(a), b := Plain(b), c := Plain(c)]),
          map[a := Fresh, b := Fresh, c := Fresh])
  }

  /** What the concrete run's later steps need to know of `Registered`. */
  lemma RegisteredFacts(a: Client, b: Client, c: Client, dummy: Client)
    requires a != b && b != c && a != c && dummy !in {a, b, c}
    ensures var w := Registered(a, b, c, dummy);
      && w.hub.phase == Running && !w.hub.closeFlag
      && w.hub.members.Keys == {a, b, c} && !w.hub.members[a].receiveSelfMessages
      && w.inboxes.Keys == {a, b, c} && w.inboxes[a] == w.inboxes[b] == w.inboxes[c] == Fresh
      && forall x :: x in w.hub.members ==> Accepts(w.inboxes[x])
  {
  }

  /** Starting the hub and registering three clients gives `Registered`. */
  lemma StartAndRegister(a: Client, b: Client, c: Client, dummy: Client)
    requires a != b && b != c && a != c && dummy !in {a, b, c}
    ensures var w := World(NewHub(dummy, 0), map[a := Fresh, b := Fresh, c := Fresh]);
      Inv(w) && Run(w, [Start(0), Register(Plain(a)), Register(Plain(b)), Register(Plain(c))]) == Registered(a, b, c, dummy)
    ensures Inv(Registered(a, b, c, dummy))
  {
    var ib := map[a := Fresh, b := Fresh, c := Fresh];
    var w0 := World(NewHub(dummy, 0), ib);
    NewHubInv(dummy, 0, ib);
    var w1 := Next(w0, Start(0));
    assert w1 == StartStep(w0, 0);
    var w2 := Next(w1, Register(Plain(a)));
    assert w2 == RegisterStep(w1, Plain(a));
    var w3 := Next(w2, Register(Plain(b)));
    assert w3 == RegisterStep(w2, Plain(b));
    var w4 := Next(w3, Register(Plain(c)));
    assert w4 == RegisterStep(w3, Plain(c));
    assert w4.inboxes == Registered(a, b, c, dummy).inboxes;
    assert w4.hub == Registered(a, b, c, dummy).hub;
    var ins := [Start(0), Register(Plain(a)), Register(Plain(b)), Register(Plain(c))];
    assert ins[1..] == [Register(Plain(a)), Register(Plain(b)), Register(Plain(c))];
    assert ins[1..][1..] == [Register(Plain(b)), Register(Plain(c))];
    assert ins[1..][1..][1..] == [Register(Plain(c))];
    assert Run(w0, ins) == Run(w1, ins[1..]);
    assert Run(w1, ins[1..]) == Run(w2, ins[1..][1..]);
    assert Run(w2, ins[1..][1..]) == Run(w3, ins[1..][1..][1..]);
    assert Run(w3, ins[1..][1..][1..]) == Run(w4, ins[1..][1..][1..][1..]);
    assert ins[1..][1..][1..][1..] == [];
  }

  /** A run of one input is one step. */
  lemma RunOne(w: World, i: Input)
    requires Inv(w)
    ensures Run(w, [i]) == Next(w, i)
  {
    assert [i][1..] == [];
  }

  /** While the loop runs, a broadcast input is the broadcast arm. */
  lemma NextBroadcast(w: World, msg: ClientEvent, now: int)
    requires Inv(w) && w.hub.phase == Running
    ensures Next(w, Broadcast(msg, now)) == BroadcastStep(w, msg, now)
  {
  }

  /** Running `ins` and then `more` is running their concatenation. */
  lemma {:induction false} RunAppend(w: World, ins: seq<Input>, more: seq<Input>)
    requires Inv(w)
    ensures Run(w, ins + more) == Run(Run(w, ins), more)
    decreases |ins|
  {
    if ins != [] {
      assert (ins + more)[0] == ins[0] && (ins + more)[1..] == ins[1..] + more;
      assert Run(w, ins + more) == Run(Next(w, ins[0]), ins[1..] + more);
      assert Run(w, ins) == Run(Next(w, ins[0]), ins[1..]);
      RunAppend(Next(w, ins[0]), ins[1..], more);
    } else {
      assert ins + more == more;
    }
  }

  /** A broadcast from a member that does not ask for its own messages,
      when the two other members have room: they get the event, the sender
      nothing. */
  lemma BroadcastToRoomyPeers(w: World, msg: ClientEvent, now: int, b: Client, c: Client)
    requires Inv(w) && w.hub.members.Keys == {msg.client, b, c}
    requires msg.client != b && msg.client != c
    requires !w.hub.members[msg.client].receiveSelfMessages
    requires Accepts(w.inboxes[b]) && Accepts(w.inboxes[c])
    ensures var r := BroadcastStep(w, msg, now);
      && r.inboxes[b] == Push(w.inboxes[b], msg) && r.inboxes[c] == Push(w.inboxes[c], msg)
      && r.inboxes[msg.client] == w.inboxes[msg.client]
  {
    BroadcastNoSelfEcho(w, msg, now);
    BroadcastDeliversOrEvicts(w, msg, now, b);
    BroadcastDeliversOrEvicts(w, msg, now, c);
  }

  /** A broadcast in which every channel has room evicts nobody and does
      not request Close. */
  lemma BroadcastToRoomyMembersKeepsAll(w: World, msg: ClientEvent, now: int)
    requires Inv(w) && w.hub.members != map[]
    requires forall c :: c in w.hub.members ==> Accepts(w.inboxes[c])
    ensures BroadcastStep(w, msg, now).hub.members.Keys == w.hub.members.Keys
    ensures BroadcastStep(w, msg, now).hub.closeFlag == w.hub.closeFlag
  {
    BroadcastCloseRequest(w, msg, now);
    assert Refusing(w, msg.client) == {};
  }

  /** Three clients with fresh 256-slot channels register with a new hub;
      when one of them broadcasts, each of the other two receives the event
      exactly once, the sender receives nothing, and all three stay. */
  lemma PingReachesOthers(a: Client, b: Client, c: Client, dummy: Client, e: Event)
    requires a != b && b != c && a != c && dummy !in {a, b, c}
    ensures var w := World(NewHub(dummy, 0), map[a := Fresh, b := Fresh, c := Fresh]);
      var msg := ClientEvent(a, e);
      var r := Run(w, [Start(0), Register(Plain(a)), Register(Plain(b)), Register(Plain(c)), Broadcast(msg, 1)]);
      && a in r.inboxes && b in r.inboxes && c in r.inboxes
      && r.inboxes[b].queue == [msg] && r.inboxes[c].queue == [msg] && r.inboxes[a].queue == []
      && r.hub.members.Keys == {a, b, c}
      && !r.hub.closeFlag
  {
    var w := World(NewHub(dummy, 0), map[a := Fresh, b := Fresh, c := Fresh]);
    var msg := ClientEvent(a, e);
    var start := [Start(0), Register(Plain(a)), Register(Plain(b)), Register(Plain(c))];
    StartAndRegister(a, b, c, dummy);
    var w4 := Registered(a, b, c, dummy);
    RunAppend(w, start, [Broadcast(msg, 1)]);
    assert start + [Broadcast(msg, 1)] == [Start(0), Register(Plain(a)), Register(Plain(b)), Register(Plain(c)), Broadcast(msg, 1)];
    RunOne(w4, Broadcast(msg, 1));
    RegisteredFacts(a, b, c, dummy);
    NextBroadcast(w4, msg, 1);
    BroadcastToRoomyPeers(w4, msg, 1, b, c);
    BroadcastToRoomyMembersKeepsAll(w4, msg, 1);
  }
}
