/** Concrete runs of the hub with two peers, "A" and "B". */
module Scenarios {
  import opened Wrappers
  import opened Json
  import opened StateStore
  import opened Router
  import opened Messages
  import opened Hub

  /** A payload with only the given properties defined. */
  function CommandFrame(speed: Value, forward: Value): Decoded {
    Decoded(Payload(Some(Str("command")), Some(speed), Some(forward), None, None))
  }

  function CursorFrame(x: Value, y: Value): Decoded {
    Decoded(Payload(Some(Str("cursor")), None, None, Some(x), Some(y)))
  }

  /** The first peer to connect is greeted with the initial record and its
      own id, then told that one peer is connected. */
  lemma FirstPeerGreeted()
    ensures Outbox(Open(Init(), "A"), "A") == [State(0, Bool(true), Some("A")), Users(1)]
  {
  }

  /** The second peer is greeted the same way, and the first peer hears the
      new count. */
  lemma SecondPeerJoins()
    ensures var h := Open(Open(Init(), "A"), "B");
            && Outbox(h, "A") == [State(0, Bool(true), Some("A")), Users(1), Users(2)]
            && Outbox(h, "B") == [State(0, Bool(true), Some("B")), Users(2)]
  {
    var h1 := Open(Init(), "A");
    assert h1.subscribers == {"A"};
    assert |h1.subscribers| == 1;
  }

  /** A command whose speed parses to 42 reaches both peers, the sender
      included, with the normalised record. */
  lemma CommandReachesEveryone(parseInt: IntParser)
    requires parseInt(Str("42")) == Some(42)
    ensures var h := Open(Open(Init(), "A"), "B");
            var r := Message(h, "A", CommandFrame(Str("42"), Bool(false)), parseInt);
            && r.state == SharedState(42, Bool(false))
            && Outbox(r, "A") == Outbox(h, "A") + [State(42, Bool(false), None)]
            && Outbox(r, "B") == Outbox(h, "B") + [State(42, Bool(false), None)]
  {
    var h1 := Open(Init(), "A");
    assert h1.subscribers == {"A"};
  }

  /** A cursor from "A" reaches "B" only. */
  lemma CursorSkipsSender(parseInt: IntParser)
    ensures var h := Open(Open(Init(), "A"), "B");
            var r := Message(h, "A", CursorFrame(Num(10.0), Num(20.0)), parseInt);
            && r.state == h.state
            && Outbox(r, "A") == Outbox(h, "A")
            && Outbox(r, "B") == Outbox(h, "B") + [Cursor("A", Some(Num(10.0)), Some(Num(20.0)))]
  {
    var h1 := Open(Init(), "A");
    assert h1.subscribers == {"A"};
  }

  /** When "A" leaves, "B" is told so and then hears the count of one, and
      "A" is sent nothing more. */
  lemma DisconnectNotifiesRest()
    ensures var h := Open(Open(Init(), "A"), "B");
            var r := Close(h, "A");
            && Outbox(r, "A") == Outbox(h, "A")
            && Outbox(r, "B") == Outbox(h, "B") + [UserDisconnected("A"), Users(1)]
  {
    var h1 := Open(Init(), "A");
    assert h1.subscribers == {"A"};
    var h := Open(h1, "B");
    assert h.subscribers - {"A"} == {"B"};
  }

  /** A command whose `speed` is an object with its own `toString` throws
      when `parseInt` converts it; the handler swallows the error, so the
      record is not touched and nobody is sent anything. */
  lemma UnconvertibleSpeedChangesNothing(h: Hub, id: Id, parseInt: IntParser)
    requires id in h.subscribers
    ensures Message(h, id, CommandFrame(Obj([("toString", Num(0.0))]), Bool(false)), parseInt) == h
    ensures Message(h, id, CommandFrame(Arr([Null, Obj([("toString", Null)])]), Bool(false)), parseInt) == h
  {
    var own := Obj([("toString", Num(0.0))]);
    assert own.props[0].0 == "toString";
    assert SpeedThrows(Some(own));
    var inner := Obj([("toString", Null)]);
    assert inner.props[0].0 == "toString";
    var arr := Arr([Null, inner]);
    assert arr.elems[1] == inner;
    assert SpeedThrows(Some(arr));
  }

  /** A frame that does not decode changes nothing: no record update, no
      message to anyone, and the sender stays connected. */
  lemma MalformedChangesNothing(h: Hub, id: Id, parseInt: IntParser)
    requires id in h.subscribers
    ensures Message(h, id, Malformed, parseInt) == h
  {
  }
}
