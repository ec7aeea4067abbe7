/** The Hub of hub.go as an object whose methods update its fields in place:
    the request API (Register, Unregister, Broadcast, BroadcastAll, Close),
    closeClient and closeAllClients, and one method per arm of Run's
    `select`. Each method is proved to make the transition HubSpec gives for
    it, on the hub and on the channels of the clients it touches. */
module Hubs {
  import opened Clients
  import opened HubSpec

  /** The channels of the clients in `S`. */
  ghost function Channels(S: set<Client>): map<Client, Inbox>
    reads S`inbox
  {
    map c | c in S :: c.inbox
  }

  class Hub {
    var clients: map<Client, ClientData>
    /** The sentinel sender of BroadcastAll, created privately by the constructor. */
    const dummyClient: Client
    var closeFlag: bool
    /** The goroutine started by the winning Close, waiting to hand the
        close signal to the loop. */
    var closeSignalPending: bool
    var CloseOnNoClients: bool
    var clientsHaveExisted: bool
    var CloseTimeout: int
    var lastMessageTimestamp: int
    /** When the idle ticker fires next. */
    var nextTick: int
    var phase: Phase
    /** Every client whose onClose has been invoked, with multiplicity. */
    ghost var onCloseCalls: multiset<Client>

    ghost function State(): HubState
      reads this
    {
      HubState(clients, dummyClient, closeFlag, closeSignalPending, clientsHaveExisted, CloseOnNoClients,
               CloseTimeout, lastMessageTimestamp, nextTick, phase, onCloseCalls)
    }

    /** The hub together with the channels of the clients in `S`. */
    ghost function View(S: set<Client>): World
      reads this, S`inbox
    {
      World(State(), Channels(S))
    }

    /** The hub's fields and the channels of `S` are those of `w`. */
    ghost predicate Matches(S: set<Client>, w: World)
      reads this, S`inbox
    {
      State() == w.hub && Channels(S) == w.inboxes
    }

    /** The hub's invariant over its members, and each member belongs to
        this hub alone. */
    ghost predicate Valid()
      reads this, clients.Keys
    {
      && Inv(View(clients.Keys))
      && (forall c :: c in clients ==> c.owner == this)
    }

    /** The view of fewer clients is the restriction of the view of more. */
    lemma ViewRestrict(S: set<Client>, D: set<Client>)
      requires D <= S
      ensures View(D) == World(View(S).hub, map c | c in D :: View(S).inboxes[c])
    {
    }

    /** The invariant of a view that covers the members gives Valid. */
    lemma ValidFromView(S: set<Client>, w: World)
      requires Matches(S, w) && Inv(w) && clients.Keys <= S
      requires forall c :: c in clients ==> c.owner == this
      ensures Valid()
    {
      assert View(S) == w;
      ViewRestrict(S, clients.Keys);
      InvRestrict(View(S), clients.Keys);
    }

    /** NewHub. `Run` never sets `lastMessageTimestamp` before its loop, so
        its initial value is a parameter. */
    constructor (lastMessageTimestamp: int)
      ensures Valid() && State() == NewHub(dummyClient, lastMessageTimestamp)
      ensures fresh(dummyClient) && dummyClient.inbox == Inbox(0, [], false, 0)
    {
      dummyClient := new Client(0);
      clients := map[];
      closeFlag := false;
      closeSignalPending := false;
      CloseOnNoClients := false;
      clientsHaveExisted := false;
      CloseTimeout := TenMinutes;
      this.lastMessageTimestamp := lastMessageTimestamp;
      nextTick := 0;
      phase := Created;
      onCloseCalls := multiset{};
      new;
      assert Channels(clients.Keys) == map[];
      NewHubInv(dummyClient, lastMessageTimestamp, map[]);
    }

    /** Close: only the call that swaps the flag from unset to set starts the
        goroutine that delivers the close signal. It may be called at any
        time, also from an onClose callback running inside the loop. */
    method Close()
      modifies this`closeFlag, this`closeSignalPending
      ensures State() == RequestClose(old(State()))
      ensures old(Valid()) ==> Valid()
    {
      if !closeFlag {
        closeFlag := true;
        closeSignalPending := true;
      }
      if old(Valid()) {
        CloseInv(old(View(clients.Keys)));
      }
    }

    /** The exported CloseOnNoClients field, set by the hub's owner. */
    method SetCloseOnNoClients(on: bool)
      requires Valid()
      modifies this`CloseOnNoClients
      ensures Valid() && State() == old(State()).(closeOnNoClients := on)
    {
      CloseOnNoClients := on;
      SetCloseOnNoClientsInv(old(View(clients.Keys)), on);
    }

    /** The exported CloseTimeout field, which must be positive. */
    method SetCloseTimeout(d: int)
      requires Valid() && d > 0
      modifies this`CloseTimeout
      ensures Valid() && State() == old(State()).(closeTimeout := d)
    {
      CloseTimeout := d;
      SetCloseTimeoutInv(old(View(clients.Keys)), d);
    }

    /** closeClient: delete the entry, close the client, then invoke its
        onClose if it has one. `S` is any set of clients holding it whose
        channels the caller tracks. */
    method CloseClient(client: Client, data: ClientData, ghost S: set<Client>)
      requires client in clients && data == clients[client] && !client.inbox.closed && client in S
      modifies this, client
      ensures clients == old(clients) - {client} && client.owner == null
      ensures Matches(S, HubSpec.CloseClient(old(View(S)), client))
    {
      ghost var w := View(S);
      clients := clients - {client};
      client.Close();
      client.owner := null;
      ghost var ib := w.inboxes[client := Shut(w.inboxes[client])];
      forall c | c in S ensures c.inbox == ib[c] {
        if c != client {
          assert c.inbox == old(c.inbox);
        }
      }
      assert Channels(S) == ib;
      InvokeOnClose(client, data.onClose, S, World(w.hub.(members := w.hub.members - {client}), ib));
    }

    /** `data.onClose(h)`, if present, for the client just closed. */
    method InvokeOnClose(client: Client, f: OnClose, ghost S: set<Client>, ghost w: World)
      requires Matches(S, w)
      modifies this`onCloseCalls, this`closeFlag, this`closeSignalPending
      ensures Matches(S, RunOnClose(w, client, f))
    {
      match f {
        case NoCallback =>
        case Callback(closes) =>
          onCloseCalls := onCloseCalls + multiset{client};
          if closes {
            Close();
          }
      }
    }

    /** closeAllClients: closeClient on every member, in any order. */
    method CloseAllClients(ghost S: set<Client>, ghost w0: World)
      requires Registry(w0) && S == w0.hub.members.Keys && Matches(S, w0)
      modifies this, S
      ensures Matches(S, HubSpec.CloseAllClients(w0))
    {
      var remaining := clients.Keys;
      ghost var visited: set<Client> := {};
      EvictNone(w0);
      while remaining != {}
        invariant remaining !! visited && remaining + visited == S
        invariant State() == EvictAll(w0, visited).hub
        invariant Channels(S) == EvictAll(w0, visited).inboxes
        decreases remaining
      {
        var c :| c in remaining;
        EvictNext(c, S, w0, visited);
        remaining := remaining - {c};
        visited := visited + {c};
      }
    }

    /** One iteration of closeAllClients: closing member `c` after the
        members in `V` is the eviction of `V + {c}`. */
    method EvictNext(c: Client, ghost S: set<Client>, ghost w0: World, ghost V: set<Client>)
      requires Registry(w0) && S == w0.hub.members.Keys && V <= S && c in S && c !in V
      requires State() == EvictAll(w0, V).hub && Channels(S) == EvictAll(w0, V).inboxes
      modifies this, c
      ensures State() == EvictAll(w0, V + {c}).hub && Channels(S) == EvictAll(w0, V + {c}).inboxes
    {
      EvictAllStep(w0, V, c);
      assert View(S) == EvictAll(w0, V);
      CloseClient(c, clients[c], S);
    }

    /** Run's prologue: the loop starts and the idle ticker is armed. */
    method Start(now: int)
      requires Valid() && phase == Created
      modifies this
      ensures Valid() && clients == old(clients)
      ensures Matches(clients.Keys, StartStep(old(View(clients.Keys)), now))
    {
      phase := Running;
      nextTick := now + CloseTimeout;
      StartInv(old(View(clients.Keys)), now);
    }

    /** The register arm. The client must be open (a closed channel would
        make the next send panic), must not be registered with another hub,
        and cannot be the private sentinel. */
    method OnRegister(d: ClientData)
      requires Valid() && phase == Running
      requires d.client != dummyClient && d.client.Valid() && !d.client.inbox.closed
      requires d.client.owner == null || d.client.owner == this
      modifies this, d.client`owner
      ensures Valid() && clients.Keys == old(clients.Keys) + {d.client}
      ensures Matches(clients.Keys, RegisterStep(old(View(clients.Keys + {d.client})), d))
    {
      ghost var K := clients.Keys;
      ghost var S := K + {d.client};
      ghost var w := View(K);
      ghost var b := d.client.inbox;
      clients := clients[d.client := d];
      clientsHaveExisted := true;
      d.client.owner := this;
      ghost var wd := World(w.hub, w.inboxes[d.client := b]);
      assert Channels(S) == wd.inboxes;
      RegisterInvExtend(w, d, b);
      ValidFromView(S, RegisterStep(wd, d));
    }

    /** The unregister arm: close and evict the client if it is a member;
        the empty check runs either way. */
    method OnUnregister(c: Client)
      requires Valid() && phase == Running
      modifies this, clients.Keys
      ensures Valid()
      ensures Matches(old(clients.Keys), UnregisterStep(old(View(clients.Keys)), c))
    {
      ghost var S := clients.Keys;
      ghost var w := View(S);
      if c in clients {
        CloseClient(c, clients[c], S);
      }
      CheckEmpty(S, if c in w.hub.members then HubSpec.CloseClient(w, c) else w);
      UnregisterInv(w, c);
      ValidFromView(S, UnregisterStep(w, c));
    }

    /** The broadcast arm: stamp the time, then visit every member once, in
        whatever order the map yields; then the empty check. */
    method OnBroadcast(msg: ClientEvent, now: int)
      requires Valid() && phase == Running
      modifies this, clients.Keys
      ensures Valid()
      ensures Matches(old(clients.Keys), BroadcastStep(old(View(clients.Keys)), msg, now))
    {
      ghost var S := clients.Keys;
      ghost var w0 := View(S);
      lastMessageTimestamp := now;
      ghost var w1 := w0.(hub := w0.hub.(lastMessageTimestamp := now));
      assert Matches(S, w1);
      FanOutMembers(msg, S, w1);
      FinishBroadcast(msg, now, S, w0);
    }

    /** The end of the broadcast arm, after the loop: the empty check. */
    method FinishBroadcast(msg: ClientEvent, now: int, ghost S: set<Client>, ghost w0: World)
      requires Inv(w0) && w0.hub.phase == Running && S == w0.hub.members.Keys
      requires Matches(S, FanOut(w0.(hub := w0.hub.(lastMessageTimestamp := now)), msg, S))
      requires forall c :: c in clients ==> c.owner == this
      modifies this`closeFlag, this`closeSignalPending
      ensures Valid() && Matches(S, BroadcastStep(w0, msg, now))
    {
      CheckEmpty(S, FanOut(w0.(hub := w0.hub.(lastMessageTimestamp := now)), msg, S));
      BroadcastInv(w0, msg, now);
      ValidFromView(S, BroadcastStep(w0, msg, now));
    }

    /** The check after the unregister and broadcast arms: Close when no
        member is left, close-on-empty is on and clients have existed. */
    method CheckEmpty(ghost S: set<Client>, ghost w: World)
      requires Matches(S, w)
      modifies this`closeFlag, this`closeSignalPending
      ensures Matches(S, CloseWhenEmpty(w))
    {
      if |clients| == 0 && CloseOnNoClients && clientsHaveExisted {
        Close();
      }
    }

    /** The loop of the broadcast arm over the members `S` of `w1`. */
    method FanOutMembers(msg: ClientEvent, ghost S: set<Client>, ghost w1: World)
      requires Registry(w1) && S == w1.hub.members.Keys && Matches(S, w1)
      requires forall c :: c in clients ==> c.owner == this
      modifies this, S
      ensures Matches(S, FanOut(w1, msg, S))
      ensures forall c :: c in clients ==> c.owner == this
    {
      var remaining := clients.Keys;
      ghost var visited: set<Client> := {};
      FanOutNone(w1, msg);
      while remaining != {}
        invariant remaining !! visited && remaining + visited == S
        invariant State() == FanOut(w1, msg, visited).hub
        invariant Channels(S) == FanOut(w1, msg, visited).inboxes
        invariant forall c :: c in clients ==> c.owner == this
        decreases remaining
      {
        var c :| c in remaining;
        VisitNext(c, msg, S, w1, visited);
        remaining := remaining - {c};
        visited := visited + {c};
      }
    }

    /** One iteration of the broadcast loop: visiting member `c` after the
        members in `V` gives the fan-out over `V + {c}`. */
    method VisitNext(c: Client, msg: ClientEvent, ghost S: set<Client>, ghost w1: World, ghost V: set<Client>)
      requires Registry(w1) && S == w1.hub.members.Keys && V <= S && c in S && c !in V
      requires Matches(S, FanOut(w1, msg, V))
      requires forall k :: k in clients ==> k.owner == this
      modifies this, c
      ensures Matches(S, FanOut(w1, msg, V + {c}))
      ensures forall k :: k in clients ==> k.owner == this
    {
      FanOutStep(w1, msg, V, c);
      VisitMember(c, msg, S, FanOut(w1, msg, V));
    }

    /** One pass of the broadcast loop: skip the member on self-echo
        grounds, or try a non-blocking send and evict it if the send fails. */
    method VisitMember(c: Client, msg: ClientEvent, ghost S: set<Client>, ghost x: World)
      requires c in clients && c in S && !c.inbox.closed && Matches(S, x)
      requires forall k :: k in clients ==> k.owner == this
      modifies this, c
      ensures Matches(S, Visit(x, msg, c))
      ensures forall k :: k in clients ==> k.owner == this
    {
      assert View(S) == x;
      var data := clients[c];
      if !data.receiveSelfMessages && msg.client == c {
      } else {
        var ok := c.TrySend(msg);
        if ok {
          ghost var ib := x.inboxes[c := Push(x.inboxes[c], msg)];
          forall k | k in S ensures k.inbox == ib[k] {
            if k != c {
              assert k.inbox == old(k.inbox);
            }
          }
          assert Channels(S) == ib;
        } else {
          CloseClient(c, data, S);
        }
      }
    }

    /** The idle-tick arm: request Close if no broadcast came for at least
        CloseTimeout, and rearm the ticker for a full CloseTimeout. */
    method OnTick(now: int)
      requires Valid() && phase == Running && now >= nextTick
      modifies this
      ensures Valid() && clients == old(clients)
      ensures Matches(clients.Keys, TickStep(old(View(clients.Keys)), now))
    {
      ghost var w := View(clients.Keys);
      if now - lastMessageTimestamp >= CloseTimeout {
        Close();
      }
      nextTick := now + CloseTimeout;
      TickInv(w, now);
      ValidFromView(clients.Keys, TickStep(w, now));
    }

    /** The close-signal arm: the loop returns and its deferred cleanup
        closes every remaining member. */
    method OnCloseSignal()
      requires Valid() && phase == Running && closeSignalPending
      modifies this, clients.Keys
      ensures Valid() && clients == map[]
      ensures Matches(old(clients.Keys), CloseSignalStep(old(View(clients.Keys))))
    {
      ghost var S := clients.Keys;
      ghost var w := View(S);
      closeSignalPending := false;
      phase := Stopped;
      ghost var w1 := w.(hub := w.hub.(closeSignalPending := false, phase := Stopped));
      assert Matches(S, w1);
      CloseAllClients(S, w1);
      CloseSignalInv(w);
      ValidFromView(S, CloseSignalStep(w));
    }

    /** Register: hand the client and its options to the register arm. */
    method Register(client: Client, options: RegistrationOptions)
      requires Valid() && phase == Running
      requires client != dummyClient && client.Valid() && !client.inbox.closed
      requires client.owner == null || client.owner == this
      modifies this, client`owner
      ensures Valid() && clients.Keys == old(clients.Keys) + {client}
      ensures Matches(clients.Keys, RegisterStep(old(View(clients.Keys + {client})), RegistrationData(client, options)))
    {
      OnRegister(RegistrationData(client, options));
    }

    /** Unregister: hand the client to the unregister arm. */
    method Unregister(client: Client)
      requires Valid() && phase == Running
      modifies this, clients.Keys
      ensures Valid()
      ensures Matches(old(clients.Keys), UnregisterStep(old(View(clients.Keys)), client))
    {
      OnUnregister(client);
    }

    /** Broadcast: an event attributed to `client`, read by the loop at `now`. */
    method Broadcast(client: Client, event: string, b: seq<byte>, now: int)
      requires Valid() && phase == Running
      modifies this, clients.Keys
      ensures Valid()
      ensures Matches(old(clients.Keys), BroadcastStep(old(View(clients.Keys)), ClientEvent(client, Event(event, b)), now))
    {
      OnBroadcast(ClientEvent(client, Event(event, b)), now);
    }

    /** BroadcastAll: an event attributed to the private sentinel. */
    method BroadcastAll(event: string, b: seq<byte>, now: int)
      requires Valid() && phase == Running
      modifies this, clients.Keys
      ensures Valid()
      ensures Matches(old(clients.Keys), BroadcastStep(old(View(clients.Keys)), ClientEvent(dummyClient, Event(event, b)), now))
    {
      OnBroadcast(ClientEvent(dummyClient, Event(event, b)), now);
    }
  }
}
