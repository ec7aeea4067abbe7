/** The Client capability a Hub delivers to (client.go), and the event records
    that travel through it (hub.go). A Client is an object with a delivery
    channel and a close operation; the channel is modelled by its buffer. */
module Clients {

  newtype byte = x: int | 0 <= x < 256

  /** A named event with an opaque (JSON) payload. */
  datatype Event = Event(name: string, data: seq<byte>)

  /** An event together with the client it is attributed to. */
  datatype ClientEvent = ClientEvent(client: Client, event: Event)

  /** The observable state of a client's delivery channel: buffer capacity,
      buffered events (oldest first), whether the channel is closed, and how
      many times Close has been called on the client. */
  datatype Inbox = Inbox(capacity: nat, queue: seq<ClientEvent>, closed: bool, closeCount: nat)

  /** A state a channel can be in: never more buffered than its capacity, and
      closed exactly when Close has been called, which happened at most once. */
  predicate InboxValid(b: Inbox) {
    |b.queue| <= b.capacity && b.closeCount == (if b.closed then 1 else 0)
  }

  /** A non-blocking send succeeds exactly when the buffer has room. */
  predicate Accepts(b: Inbox) {
    |b.queue| < b.capacity
  }

  /** The channel after a successful non-blocking send of `e`. */
  function Push(b: Inbox, e: ClientEvent): (r: Inbox)
    ensures InboxValid(b) && Accepts(b) ==> InboxValid(r)
    ensures |r.queue| == |b.queue| + 1 && r.queue[..|b.queue|] == b.queue && r.queue[|b.queue|] == e
    ensures r.capacity == b.capacity && r.closed == b.closed && r.closeCount == b.closeCount
  {
    b.(queue := b.queue + [e])
  }

  /** The channel after Close: closed, Close counted once more, buffer kept
      for the reader to drain. */
  function Shut(b: Inbox): (r: Inbox)
    ensures InboxValid(b) && !b.closed ==> InboxValid(r) && r.closeCount == 1
    ensures r.closed && r.closeCount == b.closeCount + 1
    ensures r.capacity == b.capacity && r.queue == b.queue
  {
    b.(closed := true, closeCount := b.closeCount + 1)
  }

  /** The channel after its reader takes the oldest buffered event; an empty
      buffer yields nothing and stays as it is. */
  function Pop(b: Inbox): (r: Inbox)
    ensures InboxValid(b) ==> InboxValid(r)
    ensures b.queue != [] ==> r.queue == b.queue[1..]
    ensures b.queue == [] ==> r == b
    ensures r.capacity == b.capacity && r.closed == b.closed && r.closeCount == b.closeCount
  {
    if b.queue == [] then b else b.(queue := b.queue[1..])
  }

  /** `b1` is `b0` after its reader has taken some of the oldest events: same
      capacity and close state, and the buffer a suffix of the old one. */
  predicate DrainedFrom(b0: Inbox, b1: Inbox) {
    && b1.capacity == b0.capacity && b1.closed == b0.closed && b1.closeCount == b0.closeCount
    && |b1.queue| <= |b0.queue| && b1.queue == b0.queue[|b0.queue| - |b1.queue|..]
  }

  /** Reading drains a channel. */
  lemma PopDrains(b: Inbox)
    ensures DrainedFrom(b, Pop(b))
  {
    if b.queue != [] {
      assert b.queue[|b.queue| - |Pop(b).queue|..] == b.queue[1..];
    }
  }

  /** Draining after draining is draining. */
  lemma DrainedTrans(b0: Inbox, b1: Inbox, b2: Inbox)
    requires DrainedFrom(b0, b1) && DrainedFrom(b1, b2)
    ensures DrainedFrom(b0, b2)
  {
    var n0, n1, n2 := |b0.queue|, |b1.queue|, |b2.queue|;
    assert b2.queue == b1.queue[n1 - n2..];
    assert b1.queue[n1 - n2..] == b0.queue[n0 - n1..][n1 - n2..];
    assert b0.queue[n0 - n1..][n1 - n2..] == b0.queue[n0 - n2..];
  }

  /** A registrant of a Hub. Every implementation of the Go interface (the
      hub's private sentinel, the websocket client, the in-process callback
      client) is a channel of some capacity plus a close operation, which is
      what this class keeps. */
  class Client {
    /** The client's delivery channel (`Send()`) and its Close count. */
    var inbox: Inbox
    /** The Hub this client is registered with, if any: a client belongs to
        at most one Hub at a time. */
    ghost var owner: object?

    ghost predicate Valid()
      reads this
    {
      InboxValid(inbox)
    }

    /** A fresh client with an empty channel of the given capacity
        (`make(chan ClientEvent, capacity)`). */
    constructor (capacity: nat)
      ensures Valid() && owner == null
      ensures inbox == Inbox(capacity, [], false, 0)
    {
      inbox := Inbox(capacity, [], false, 0);
      owner := null;
    }

    /** `select { case c.Send() <- e: default: }`: a send that never blocks.
        Sending on a closed channel panics in Go, so the channel must be open. */
    method TrySend(e: ClientEvent) returns (ok: bool)
      requires !inbox.closed
      modifies this`inbox
      ensures ok <==> Accepts(old(inbox))
      ensures inbox == if ok then Push(old(inbox), e) else old(inbox)
    {
      ok := |inbox.queue| < inbox.capacity;
      if ok {
        inbox := inbox.(queue := inbox.queue + [e]);
      }
    }

    /** Close closes the client's channel (`close(send)`); closing a closed
        channel panics in Go, so the channel must be open. */
    method Close()
      requires !inbox.closed
      modifies this`inbox
      ensures inbox == Shut(old(inbox))
    {
      inbox := inbox.(closed := true, closeCount := inbox.closeCount + 1);
    }

    /** The client's own reader taking the oldest buffered event; on an empty
        buffer nothing is received (a closed one yields no value). */
    method Receive() returns (e: ClientEvent, got: bool)
      modifies this`inbox
      ensures got <==> old(inbox.queue) != []
      ensures got ==> e == old(inbox.queue)[0]
      ensures inbox == Pop(old(inbox))
    {
      got := inbox.queue != [];
      if got {
        e := inbox.queue[0];
        inbox := inbox.(queue := inbox.queue[1..]);
      } else {
        e := ClientEvent(this, Event("", []));
      }
    }
  }
}
