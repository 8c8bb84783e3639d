/**
 * The live event channel: the set of connected Server-Sent Events stream
 * controllers and the broadcast that frames one payload and enqueues it on
 * every controller, dropping those whose enqueue throws.
 *
 * A controller is a handle; what has been enqueued on it so far is kept in
 * `streams`. Which controllers are closed (their `enqueue` throws) is an
 * oracle argument of the broadcast. Serialisation (`JSON.stringify`) and
 * UTF-8 encoding are outside the model: the broadcast takes the serialised
 * payload and frames it as a string.
 */
module SseStore {
  import opened Text
  import opened JsValue

  /** A `ReadableStreamDefaultController`, compared by identity. */
  datatype Controller = Controller(handle: nat)

  /** The event-stream frame for one serialised payload: `data: <json>` and a blank line. */
  function Frame(json: string): (f: string)
    ensures StartsWith(f, "data: ") && EndsWith(f, "\n\n")
    ensures |f| == |json| + 8 && f[6..|f| - 2] == json
  {
    "data: " + json + "\n\n"
  }

  /** Framing is injective: different payloads never produce the same frame. */
  lemma FrameInjective(a: string, b: string)
    requires Frame(a) == Frame(b)
    ensures a == b
  {
    assert a == Frame(a)[6..|Frame(a)| - 2];
  }

  class Broadcaster {
    /** The module-level `clients` set. */
    var clients: set<Controller>
    /** The frames enqueued on each controller so far, oldest first. */
    var streams: map<Controller, seq<string>>

    constructor ()
      ensures clients == {} && streams == map[]
    {
      clients := {};
      streams := map[];
    }

    /** The frames controller `c` has been given. */
    function Received(c: Controller): seq<string>
      reads this
    {
      if c in streams then streams[c] else []
    }

    /** `registerClient`: adds the controller; nothing already broadcast is replayed to it. */
    method Register(c: Controller)
      modifies this`clients
      ensures clients == old(clients) + {c}
      ensures |clients| == if c in old(clients) then old(|clients|) else old(|clients|) + 1
    {
      clients := clients + {c};
    }

    /** `unregisterClient`: removes the controller if present; the other clients stay. */
    method Unregister(c: Controller)
      modifies this`clients
      ensures clients == old(clients) - {c}
      ensures c !in clients && forall d :: d != c ==> (d in clients <==> d in old(clients))
    {
      clients := clients - {c};
    }

    /** `controller.enqueue(frame)` on a controller that is still open: the frame goes to that controller only. */
    method Enqueue(c: Controller, frame: string)
      modifies this`streams
      ensures Received(c) == old(Received(c)) + [frame]
      ensures forall d :: d != c ==> Received(d) == old(Received(d))
    {
      streams := streams[c := Received(c) + [frame]];
    }

    /** `getClientCount`. */
    method ClientCount() returns (n: nat)
      ensures n == |clients|
    {
      n := |clients|;
    }

    /**
     * `broadcastMessage`: frames the payload once and enqueues the same frame
     * on every registered controller. A controller in `closed` throws on
     * enqueue: it receives nothing and is removed, and delivery to the others
     * goes on.
     */
    method Broadcast(json: string, closed: set<Controller>)
      modifies this
      ensures clients == old(clients) - closed
      ensures forall c :: c in old(clients) && c !in closed ==> Received(c) == old(Received(c)) + [Frame(json)]
      ensures forall c :: c !in old(clients) || c in closed ==> Received(c) == old(Received(c))
    {
      var frame := Frame(json);
      var pending := clients;
      while pending != {}
        invariant pending <= old(clients)
        invariant clients == old(clients) - (old(clients) - pending) * closed
        invariant forall c :: c in old(clients) - pending && c !in closed ==> Received(c) == old(Received(c)) + [frame]
        invariant forall c :: c !in old(clients) - pending || c in closed ==> Received(c) == old(Received(c))
        decreases pending
      {
        var c :| c in pending;
        if c in closed {
          clients := clients - {c};
        } else {
          streams := streams[c := Received(c) + [frame]];
        }
        pending := pending - {c};
      }
    }
  }

  /**
   * A controller registered after a broadcast does not receive it: a new
   * client's stream holds only what is broadcast after it registered.
   */
  method LateRegistration(b: Broadcaster, c: Controller, json: string, closed: set<Controller>)
    requires c !in b.clients
    modifies b
    ensures c in b.clients && b.Received(c) == old(b.Received(c))
  {
    b.Broadcast(json, closed);
    b.Register(c);
  }

  /** A controller unregistered before a broadcast does not receive it. */
  method NoDeliveryAfterUnregister(b: Broadcaster, c: Controller, json: string, closed: set<Controller>)
    modifies b
    ensures c !in b.clients && b.Received(c) == old(b.Received(c))
  {
    b.Unregister(c);
    b.Broadcast(json, closed);
  }

  /**
   * The `start` of the event-stream route: the controller is registered and
   * then given the `connected` frame, whose serialised payload (it carries
   * the connection time) is the argument `hello`.
   */
  method OpenStream(b: Broadcaster, c: Controller, hello: string)
    modifies b
    ensures b.clients == old(b.clients) + {c}
    ensures b.Received(c) == old(b.Received(c)) + [Frame(hello)]
    ensures forall d :: d != c ==> b.Received(d) == old(b.Received(d))
  {
    b.Register(c);
    b.Enqueue(c, Frame(hello));
  }

  /**
   * A new stream starts with its `connected` frame, and a broadcast that
   * follows comes right after it.
   */
  method ConnectedFrameFirst(b: Broadcaster, c: Controller, hello: string, json: string, closed: set<Controller>)
    requires b.Received(c) == [] && c !in closed
    modifies b
    ensures c in b.clients
    ensures b.Received(c) == [Frame(hello), Frame(json)]
  {
    OpenStream(b, c, hello);
    b.Broadcast(json, closed);
  }

  /**
   * The `cancel` of the event-stream route as written. A stream calls its
   * source's `cancel` with the cancellation reason, so the parameter named
   * `controller` holds that reason, and it is the reason that reaches
   * `unregisterClient`. `clients.delete` compares by identity and no reason
   * is a registered controller, so nothing is removed.
   */
  method CancelAsWritten(b: Broadcaster, reason: Value)
    modifies b
    ensures b.clients == old(b.clients)
    ensures forall d :: b.Received(d) == old(b.Received(d))
  {
  }

  /**
   * A cancelled stream stays registered and counted: `getClientCount` does
   * not drop when a client disconnects.
   */
  method CancelledStreamStaysCounted(b: Broadcaster, c: Controller, reason: Value) returns (before: nat, after: nat)
    requires c in b.clients
    modifies b
    ensures c in b.clients
    ensures after == before
  {
    before := b.ClientCount();
    CancelAsWritten(b, reason);
    after := b.ClientCount();
  }

  /**
   * With the route's `cancel` as written, a disconnected controller leaves
   * the client set only when a later broadcast's `enqueue` throws on it.
   */
  method CancelledDroppedByBroadcast(b: Broadcaster, c: Controller, reason: Value, json: string, closed: set<Controller>)
    requires c in b.clients && c in closed
    modifies b
    ensures c !in b.clients
    ensures b.Received(c) == old(b.Received(c))
  {
    CancelAsWritten(b, reason);
    assert c in b.clients;
    b.Broadcast(json, closed);
  }

  /**
   * The `cancel` the route evidently intends: unregister the controller the
   * stream was opened with, so the client count drops at once.
   */
  method CancelStream(b: Broadcaster, c: Controller)
    modifies b
    ensures b.clients == old(b.clients) - {c}
    ensures c in old(b.clients) ==> |b.clients| == old(|b.clients|) - 1
    ensures forall d :: b.Received(d) == old(b.Received(d))
  {
    b.Unregister(c);
  }

  /** Opening a new stream and then cancelling it leaves the client set as it was. */
  method OpenThenCancel(b: Broadcaster, c: Controller, hello: string)
    requires c !in b.clients
    modifies b
    ensures b.clients == old(b.clients)
    ensures b.Received(c) == old(b.Received(c)) + [Frame(hello)]
  {
    OpenStream(b, c, hello);
    CancelStream(b, c);
  }
}
