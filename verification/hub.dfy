/** The relay hub (socket/index.ts): the shared record, the set of peers
    subscribed to the single broadcast topic, and the log of every delivery
    the hub has made. A peer's outbox — the ordered messages it has been
    sent — is read off the log. The `open`, `message` and `close` handlers
    are pure transitions of this record. */
module Hub {
  import opened Wrappers
  import opened Json
  import opened StateStore
  import opened Router
  import opened Messages

  /** One send or publish: the message and the peers it went to. */
  datatype Delivery = Delivery(to: set<Id>, msg: Msg)

  /** The hub. Deliveries are kept in the order they were made; a peer that
      leaves keeps what it was sent, and only `subscribers` says who is
      connected. */
  datatype Hub = Hub(state: SharedState, subscribers: set<Id>, sent: seq<Delivery>)

  /** The messages of `log` addressed to `p`, in order: one per delivery
      that names `p`, none for the others. */
  function Received(log: seq<Delivery>, p: Id): (s: seq<Msg>)
    ensures |s| <= |log|
    decreases |log|
  {
    if log == [] then []
    else
      var last := log[|log| - 1];
      Received(log[..|log| - 1], p) + (if p in last.to then [last.msg] else [])
  }

  /** Splitting the log splits every peer's messages the same way, so a
      peer's outbox can be read off the log piece by piece. */
  lemma {:induction false} ReceivedAppend(a: seq<Delivery>, b: seq<Delivery>, p: Id)
    ensures Received(a + b, p) == Received(a, p) + Received(b, p)
    decreases |b|
  {
    if b == [] {
      assert a + b == a;
    } else {
      var b0 := b[..|b| - 1];
      assert (a + b)[..|a + b| - 1] == a + b0;
      assert (a + b)[|a + b| - 1] == b[|b| - 1];
      ReceivedAppend(a, b0, p);
    }
  }

  /** A peer named by no delivery has been sent nothing. */
  lemma {:induction false} ReceivedNothing(log: seq<Delivery>, p: Id)
    requires forall i :: 0 <= i < |log| ==> p !in log[i].to
    ensures Received(log, p) == []
    decreases |log|
  {
    if log != [] {
      var init := log[..|log| - 1];
      assert forall i :: 0 <= i < |init| ==> init[i] == log[i];
      assert p !in log[|log| - 1].to;
      ReceivedNothing(init, p);
    }
  }

  /** What `p` has been sent so far. */
  function Outbox(h: Hub, p: Id): seq<Msg> {
    Received(h.sent, p)
  }

  /** The hub when the process starts. */
  function Init(): (h: Hub)
    ensures h.state.speed == 0 && h.state.forward == Bool(true)
    ensures h.subscribers == {}
    ensures forall p :: Outbox(h, p) == []
  {
    Hub(Initial, {}, [])
  }

  // ---------------------------------------------------------------- delivery

  /** Sends `m` to every peer in `to`: each of them has it appended to its
      outbox, and no other outbox changes. */
  function Deliver(h: Hub, to: set<Id>, m: Msg): (r: Hub)
    ensures r.state == h.state && r.subscribers == h.subscribers
    ensures forall p :: p in to ==> Outbox(r, p) == Outbox(h, p) + [m]
    ensures forall p :: p !in to ==> Outbox(r, p) == Outbox(h, p)
  {
    var log := h.sent + [Delivery(to, m)];
    assert log[..|log| - 1] == h.sent;
    h.(sent := log)
  }

  /** `ws.send`: one message to one peer. */
  function Send(h: Hub, p: Id, m: Msg): (r: Hub)
    ensures r.state == h.state && r.subscribers == h.subscribers
    ensures Outbox(r, p) == Outbox(h, p) + [m]
    ensures forall q :: q != p ==> Outbox(r, q) == Outbox(h, q)
  {
    Deliver(h, {p}, m)
  }

  /** `broadcastToAll`, that is `server.publish`: every subscriber receives
      `m`, and nobody else. */
  function Publish(h: Hub, m: Msg): (r: Hub)
    ensures r.state == h.state && r.subscribers == h.subscribers
    ensures forall p :: p in h.subscribers ==> Outbox(r, p) == Outbox(h, p) + [m]
    ensures forall p :: p !in h.subscribers ==> Outbox(r, p) == Outbox(h, p)
  {
    Deliver(h, h.subscribers, m)
  }

  /** `ws.publish`: every subscriber except the publishing socket. */
  function PublishFrom(h: Hub, sender: Id, m: Msg): (r: Hub)
    ensures r.state == h.state && r.subscribers == h.subscribers
    ensures forall p :: p in h.subscribers && p != sender ==> Outbox(r, p) == Outbox(h, p) + [m]
    ensures Outbox(r, sender) == Outbox(h, sender)
    ensures forall p :: p !in h.subscribers ==> Outbox(r, p) == Outbox(h, p)
  {
    Deliver(h, h.subscribers - {sender}, m)
  }

  /** `broadcastUserCount`: every subscriber is told how many subscribers
      there are, at the moment of the call. */
  function BroadcastUserCount(h: Hub): (r: Hub)
    ensures r.state == h.state && r.subscribers == h.subscribers
    ensures forall p :: p in h.subscribers ==> Outbox(r, p) == Outbox(h, p) + [Users(|h.subscribers|)]
    ensures forall p :: p !in h.subscribers ==> Outbox(r, p) == Outbox(h, p)
  {
    Publish(h, Users(|h.subscribers|))
  }

  /** Publishing from a socket that has already left the topic reaches every
      subscriber, as a server-wide publish does. */
  lemma PublishFromOutsider(h: Hub, sender: Id, m: Msg)
    requires sender !in h.subscribers
    ensures PublishFrom(h, sender, m) == Publish(h, m)
  {
    assert h.subscribers - {sender} == h.subscribers;
  }

  /** The per-socket buffers a transport fills from the log: one pass over
      the deliveries, and for each, one pass over the peers. Each buffer ends
      up holding exactly that peer's outbox. */
  method Mailboxes(log: seq<Delivery>, peers: set<Id>) returns (boxes: map<Id, seq<Msg>>)
    ensures boxes.Keys == peers
    ensures forall p :: p in peers ==> boxes[p] == Received(log, p)
  {
    boxes := map p | p in peers :: [];
    var i := 0;
    while i < |log|
      invariant 0 <= i <= |log|
      invariant boxes.Keys == peers
      invariant forall p :: p in peers ==> boxes[p] == Received(log[..i], p)
    {
      var d := log[i];
      assert log[..i + 1][..i] == log[..i] && log[..i + 1][i] == d;
      var todo := peers;
      while todo != {}
        invariant todo <= peers
        invariant boxes.Keys == peers
        invariant forall p :: p in peers - todo ==> boxes[p] == Received(log[..i + 1], p)
        invariant forall p :: p in todo ==> boxes[p] == Received(log[..i], p)
        decreases todo
      {
        var p :| p in todo;
        if p in d.to {
          boxes := boxes[p := boxes[p] + [d.msg]];
        }
        todo := todo - {p};
      }
      i := i + 1;
    }
    assert log[..i] == log;
  }

  // ---------------------------------------------------------------- handlers

  /** `open`: subscribe, send the new peer a snapshot carrying its own id,
      then tell every subscriber the new count. */
  function Open(h: Hub, id: Id): (r: Hub)
    requires id !in h.subscribers
    ensures r.state == h.state
    ensures r.subscribers == h.subscribers + {id}
    ensures |r.subscribers| == |h.subscribers| + 1
    ensures Outbox(r, id) == Outbox(h, id) + [State(h.state.speed, h.state.forward, Some(id)), Users(|r.subscribers|)]
    ensures forall p :: p in h.subscribers ==> Outbox(r, p) == Outbox(h, p) + [Users(|r.subscribers|)]
    ensures forall p :: p !in r.subscribers ==> Outbox(r, p) == Outbox(h, p)
  {
    var joined := h.(subscribers := h.subscribers + {id});
    var greeted := Send(joined, id, State(h.state.speed, h.state.forward, Some(id)));
    BroadcastUserCount(greeted)
  }

  /** `message`: a cursor goes to every other subscriber, tagged with the
      sender's id; a command replaces the shared record and its new value,
      without a `userId`, goes to every subscriber, the sender included;
      anything else — a frame that does not decode among it, and a command
      whose `speed` cannot be converted, which throws inside the `try` —
      changes nothing. */
  function Message(h: Hub, id: Id, d: Decoded, parseInt: IntParser): (r: Hub)
    requires id in h.subscribers
    ensures r.subscribers == h.subscribers
    ensures forall p :: p !in h.subscribers ==> Outbox(r, p) == Outbox(h, p)
    ensures Classify(d).RelayCursor? ==>
              && r.state == h.state
              && Outbox(r, id) == Outbox(h, id)
              && forall p :: p in h.subscribers && p != id ==>
                   Outbox(r, p) == Outbox(h, p) + [Cursor(id, d.payload.x, d.payload.y)]
    ensures Classify(d).ApplyCommand? && SpeedThrows(d.payload.speed) ==> r == h
    ensures Classify(d).ApplyCommand? && !SpeedThrows(d.payload.speed) ==>
              && Some(r.state.speed) == NormaliseSpeed(d.payload.speed, parseInt)
              && r.state.forward == NormaliseForward(d.payload.forward)
              && forall p :: p in h.subscribers ==>
                   Outbox(r, p) == Outbox(h, p) + [State(r.state.speed, r.state.forward, None)]
    ensures Classify(d).Ignore? ==> r == h
  {
    match Classify(d)
    case RelayCursor(x, y) => PublishFrom(h, id, Cursor(id, x, y))
    case ApplyCommand(speed, forward) =>
      (match Apply(speed, forward, parseInt)
       case None => h
       case Some(s) => Publish(h.(state := s), State(s.speed, s.forward, None)))
    case Ignore => h
  }

  /** `close`: leave the topic first, then tell the remaining subscribers who
      left, then the count after leaving. The timer that defers the count is
      taken as the next step. */
  function Close(h: Hub, id: Id): (r: Hub)
    requires id in h.subscribers
    ensures r.state == h.state
    ensures r.subscribers == h.subscribers - {id}
    ensures |r.subscribers| == |h.subscribers| - 1
    ensures Outbox(r, id) == Outbox(h, id)
    ensures forall p :: p in r.subscribers ==>
              Outbox(r, p) == Outbox(h, p) + [UserDisconnected(id), Users(|r.subscribers|)]
    ensures forall p :: p !in r.subscribers ==> Outbox(r, p) == Outbox(h, p)
  {
    var left := h.(subscribers := h.subscribers - {id});
    var told := PublishFrom(left, id, UserDisconnected(id));
    BroadcastUserCount(told)
  }

  // -------------------------------------------------------------- invariant

  /** Every peer that has been sent anything was first sent its own
      snapshot, and every subscriber has been sent something. */
  ghost predicate Valid(h: Hub) {
    && (forall p :: p in h.subscribers ==> Outbox(h, p) != [])
    && (forall p :: Outbox(h, p) != [] ==> Outbox(h, p)[0].State? && Outbox(h, p)[0].userId == Some(p))
  }

  lemma InitValid()
    ensures Valid(Init())
  {
  }

  lemma OpenValid(h: Hub, id: Id)
    requires Valid(h) && id !in h.subscribers
    ensures Valid(Open(h, id))
  {
  }

  lemma MessageValid(h: Hub, id: Id, d: Decoded, parseInt: IntParser)
    requires Valid(h) && id in h.subscribers
    ensures Valid(Message(h, id, d, parseInt))
  {
  }

  lemma CloseValid(h: Hub, id: Id)
    requires Valid(h) && id in h.subscribers
    ensures Valid(Close(h, id))
  {
  }
}
