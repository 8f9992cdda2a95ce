/** Sequences of connection events and what they do to the hub: the
    handlers run one after another, each on the hub the previous one left. */
module Traces {
  import opened Wrappers
  import opened Json
  import opened StateStore
  import opened Router
  import opened Messages
  import opened Hub

  /** One handler invocation. */
  datatype Event = Connect(id: Id) | Receive(id: Id, frame: Decoded) | Disconnect(id: Id)

  /** The runtime only opens a socket that is not yet connected, and only
      delivers frames and closes to a connected one. */
  predicate Enabled(connected: set<Id>, e: Event) {
    match e
    case Connect(id) => id !in connected
    case Receive(id, _) => id in connected
    case Disconnect(id) => id in connected
  }

  /** The event is a command the hub applies: a command frame whose
      `speed` converts without throwing. */
  predicate IsCommandEvent(e: Event) {
    e.Receive? && Classify(e.frame).ApplyCommand? && !SpeedThrows(Classify(e.frame).speed)
  }

  /** Who is connected after `e`, given who was connected before. */
  function Next(connected: set<Id>, e: Event): set<Id> {
    match e
    case Connect(id) => connected + {id}
    case Receive(_, _) => connected
    case Disconnect(id) => connected - {id}
  }

  /** Peers never lose a message already sent: outboxes only grow at the end. */
  ghost predicate Grows(h: Hub, r: Hub) {
    forall p :: Outbox(h, p) <= Outbox(r, p)
  }

  /** One handler invocation. */
  function Step(h: Hub, e: Event, parseInt: IntParser): (r: Hub)
    requires Enabled(h.subscribers, e)
    ensures r.subscribers == Next(h.subscribers, e)
  {
    match e
    case Connect(id) => Open(h, id)
    case Receive(id, d) => Message(h, id, d, parseInt)
    case Disconnect(id) => Close(h, id)
  }

  /** A handler only appends to outboxes. */
  lemma StepGrows(h: Hub, e: Event, parseInt: IntParser)
    requires Enabled(h.subscribers, e)
    ensures Grows(h, Step(h, e, parseInt))
  {
  }

  /** Every handler keeps the hub valid. */
  lemma StepValid(h: Hub, e: Event, parseInt: IntParser)
    requires Enabled(h.subscribers, e) && Valid(h)
    ensures Valid(Step(h, e, parseInt))
  {
    match e
    case Connect(id) => OpenValid(h, id);
    case Receive(id, d) => MessageValid(h, id, d, parseInt);
    case Disconnect(id) => CloseValid(h, id);
  }

  /** Only an applied command changes the shared record, and it replaces it
      with the command's normalisation. */
  lemma StepState(h: Hub, e: Event, parseInt: IntParser)
    requires Enabled(h.subscribers, e)
    ensures !IsCommandEvent(e) ==> Step(h, e, parseInt).state == h.state
    ensures IsCommandEvent(e) ==>
              Some(Step(h, e, parseInt).state) == Apply(Classify(e.frame).speed, Classify(e.frame).forward, parseInt)
  {
  }

  /** Every event of `t` is enabled among the peers connected when it
      happens. Which events can happen depends only on who is connected. */
  predicate Admissible(connected: set<Id>, t: seq<Event>)
    decreases |t|
  {
    t == [] || (Enabled(connected, t[0]) && Admissible(Next(connected, t[0]), t[1..]))
  }

  /** Number of connections opened in `t`. */
  function Joins(t: seq<Event>): nat {
    if t == [] then 0 else (if t[0].Connect? then 1 else 0) + Joins(t[1..])
  }

  /** Number of connections closed in `t`. */
  function Leaves(t: seq<Event>): nat {
    if t == [] then 0 else (if t[0].Disconnect? then 1 else 0) + Leaves(t[1..])
  }

  /** Who is connected after the events of `t`. */
  function After(connected: set<Id>, t: seq<Event>): set<Id>
    decreases |t|
  {
    if t == [] then connected else After(Next(connected, t[0]), t[1..])
  }

  /** The hub after the events of `t`, in order. */
  function Run(h: Hub, t: seq<Event>, parseInt: IntParser): (r: Hub)
    requires Admissible(h.subscribers, t)
    ensures r.subscribers == After(h.subscribers, t)
    ensures Grows(h, r)
    decreases |t|
  {
    if t == [] then h
    else
      StepGrows(h, t[0], parseInt);
      Run(Step(h, t[0], parseInt), t[1..], parseInt)
  }

  /** Every run keeps the hub valid. */
  lemma {:induction false} RunValid(h: Hub, t: seq<Event>, parseInt: IntParser)
    requires Admissible(h.subscribers, t) && Valid(h)
    ensures Valid(Run(h, t, parseInt))
    decreases |t|
  {
    if t != [] {
      StepValid(h, t[0], parseInt);
      RunValid(Step(h, t[0], parseInt), t[1..], parseInt);
    }
  }

  // ------------------------------------------------------------ composition

  /** An admissible `a + b` is an admissible `a` followed by a `b` that is
      admissible among the peers `a` leaves connected. */
  lemma {:induction false} AdmissibleAppend(connected: set<Id>, a: seq<Event>, b: seq<Event>)
    ensures Admissible(connected, a + b) <==> Admissible(connected, a) && Admissible(After(connected, a), b)
    ensures After(connected, a + b) == After(After(connected, a), b)
    decreases |a|
  {
    if a == [] {
      assert a + b == b;
    } else {
      assert (a + b)[0] == a[0] && (a + b)[1..] == a[1..] + b;
      AdmissibleAppend(Next(connected, a[0]), a[1..], b);
    }
  }

  /** Running `a + b` is running `a`, then `b` on the hub `a` leaves. */
  lemma {:induction false} RunAppend(h: Hub, a: seq<Event>, b: seq<Event>, parseInt: IntParser)
    requires Admissible(h.subscribers, a + b)
    ensures Admissible(h.subscribers, a)
    ensures Admissible(Run(h, a, parseInt).subscribers, b)
    ensures Run(h, a + b, parseInt) == Run(Run(h, a, parseInt), b, parseInt)
    decreases |a|
  {
    AdmissibleAppend(h.subscribers, a, b);
    if a == [] {
      assert a + b == b;
    } else {
      assert (a + b)[0] == a[0] && (a + b)[1..] == a[1..] + b;
      RunAppend(Step(h, a[0], parseInt), a[1..], b, parseInt);
    }
  }

  /** The last event of an admissible run is a single step on the hub its
      prefix leaves. */
  lemma RunLast(h: Hub, t: seq<Event>, parseInt: IntParser)
    requires Admissible(h.subscribers, t) && t != []
    ensures Admissible(h.subscribers, t[..|t| - 1])
    ensures Enabled(Run(h, t[..|t| - 1], parseInt).subscribers, t[|t| - 1])
    ensures Run(h, t, parseInt) == Step(Run(h, t[..|t| - 1], parseInt), t[|t| - 1], parseInt)
  {
    var a, e := t[..|t| - 1], t[|t| - 1];
    assert t == a + [e];
    RunAppend(h, a, [e], parseInt);
  }

  // ------------------------------------------------------------- properties

  /** From a fresh process, every peer's first message is a snapshot naming
      that peer, and every connected peer has received one. */
  lemma FirstMessageIsOwnSnapshot(t: seq<Event>, parseInt: IntParser, p: Id)
    requires Admissible({}, t)
    ensures var r := Run(Init(), t, parseInt);
            && (p in r.subscribers ==> Outbox(r, p) != [])
            && (Outbox(r, p) != [] ==> Outbox(r, p)[0].State? && Outbox(r, p)[0].userId == Some(p))
  {
    InitValid();
    RunValid(Init(), t, parseInt);
  }

  /** The number of connected peers moves by one per open and per close. */
  lemma {:induction false} ConnectedCount(connected: set<Id>, t: seq<Event>)
    requires Admissible(connected, t)
    ensures |After(connected, t)| == |connected| + Joins(t) - Leaves(t)
    decreases |t|
  {
    if t != [] {
      ConnectedCount(Next(connected, t[0]), t[1..]);
    }
  }

  /** A connect or a disconnect ends every connected peer's outbox with
      the new count. */
  lemma StepCount(h: Hub, e: Event, parseInt: IntParser, p: Id)
    requires Enabled(h.subscribers, e) && !e.Receive?
    ensures var r := Step(h, e, parseInt);
            p in r.subscribers ==>
              Outbox(r, p) != [] && Outbox(r, p)[|Outbox(r, p)| - 1] == Users(|r.subscribers|)
  {
  }

  /** After a connect or a disconnect, the last message every connected peer
      holds is the count, and the count is the number of connected peers. */
  lemma CountAfterPresenceChange(h: Hub, t: seq<Event>, parseInt: IntParser)
    requires Admissible(h.subscribers, t) && t != [] && !t[|t| - 1].Receive?
    ensures var r := Run(h, t, parseInt);
            forall p :: p in r.subscribers ==>
              Outbox(r, p) != [] && Outbox(r, p)[|Outbox(r, p)| - 1] == Users(|r.subscribers|)
  {
    var e := t[|t| - 1];
    RunLast(h, t, parseInt);
    var h0 := Run(h, t[..|t| - 1], parseInt);
    var r := Step(h0, e, parseInt);
    assert Run(h, t, parseInt) == r;
    forall p | p in r.subscribers
      ensures Outbox(r, p) != [] && Outbox(r, p)[|Outbox(r, p)| - 1] == Users(|r.subscribers|)
    {
      StepCount(h0, e, parseInt, p);
    }
  }

  /** A peer that is not connected and does not connect during `t` stays
      disconnected and is sent nothing during `t`. */
  lemma {:induction false} AbsentPeerUntouched(h: Hub, t: seq<Event>, parseInt: IntParser, p: Id)
    requires Admissible(h.subscribers, t)
    requires p !in h.subscribers && Connect(p) !in t
    ensures p !in Run(h, t, parseInt).subscribers
    ensures Outbox(Run(h, t, parseInt), p) == Outbox(h, p)
    decreases |t|
  {
    if t != [] {
      assert t[0] in t;
      assert Connect(p) !in t[1..];
      AbsentPeerUntouched(Step(h, t[0], parseInt), t[1..], parseInt, p);
    }
  }

  /** No message appended to `before` to make `after` names peer `q`. */
  predicate SilentSince(before: seq<Msg>, after: seq<Msg>, q: Id) {
    forall i :: |before| <= i < |after| ==> !Mentions(after[i], q)
  }

  lemma OpenSilent(h: Hub, id: Id, q: Id, p: Id)
    requires id !in h.subscribers && q !in h.subscribers && id != q
    ensures SilentSince(Outbox(h, p), Outbox(Open(h, id), p), q)
  {
    var r := Open(h, id);
    var added := if p == id then [State(h.state.speed, h.state.forward, Some(id)), Users(|r.subscribers|)]
                 else if p in h.subscribers then [Users(|r.subscribers|)]
                 else [];
    assert Outbox(r, p) == Outbox(h, p) + added;
  }

  lemma MessageSilent(h: Hub, id: Id, d: Decoded, parseInt: IntParser, q: Id, p: Id)
    requires id in h.subscribers && q !in h.subscribers
    ensures SilentSince(Outbox(h, p), Outbox(Message(h, id, d, parseInt), p), q)
  {
    var r := Message(h, id, d, parseInt);
    var added := if Classify(d).RelayCursor? && p in h.subscribers && p != id then [Cursor(id, d.payload.x, d.payload.y)]
                 else if Classify(d).ApplyCommand? && !SpeedThrows(d.payload.speed) && p in h.subscribers then [State(r.state.speed, r.state.forward, None)]
                 else [];
    assert Outbox(r, p) == Outbox(h, p) + added;
  }

  lemma CloseSilent(h: Hub, id: Id, q: Id, p: Id)
    requires id in h.subscribers && q !in h.subscribers
    ensures SilentSince(Outbox(h, p), Outbox(Close(h, id), p), q)
  {
    var r := Close(h, id);
    var added := if p in r.subscribers then [UserDisconnected(id), Users(|r.subscribers|)] else [];
    assert Outbox(r, p) == Outbox(h, p) + added;
  }

  /** Any handler invocation other than `q` connecting sends nothing that
      names `q`, once `q` is gone. */
  lemma StepSilent(h: Hub, e: Event, parseInt: IntParser, q: Id, p: Id)
    requires Enabled(h.subscribers, e) && q !in h.subscribers && e != Connect(q)
    ensures SilentSince(Outbox(h, p), Outbox(Step(h, e, parseInt), p), q)
  {
    match e
    case Connect(id) => OpenSilent(h, id, q, p);
    case Receive(id, d) => MessageSilent(h, id, d, parseInt, q, p);
    case Disconnect(id) => CloseSilent(h, id, q, p);
  }

  /** Silence over two consecutive stretches of an outbox is silence over both. */
  lemma SilentConcat(s0: seq<Msg>, s1: seq<Msg>, s2: seq<Msg>, q: Id)
    requires s1 <= s2
    requires SilentSince(s0, s1, q) && SilentSince(s1, s2, q)
    ensures SilentSince(s0, s2, q)
  {
    forall i | |s0| <= i < |s2|
      ensures !Mentions(s2[i], q)
    {
      if i < |s1| {
        assert s2[i] == s1[i];
      }
    }
  }

  /** Once `q` has left, and as long as it does not connect again, no peer is
      sent a message that names it: no cursor of its, no second notice of
      its leaving, no snapshot addressed to it. */
  lemma {:induction false} NoMentionAfterLeave(h: Hub, t: seq<Event>, parseInt: IntParser, q: Id, p: Id)
    requires Admissible(h.subscribers, t)
    requires q !in h.subscribers && Connect(q) !in t
    ensures SilentSince(Outbox(h, p), Outbox(Run(h, t, parseInt), p), q)
    decreases |t|
  {
    if t != [] {
      assert t[0] in t;
      assert Connect(q) !in t[1..];
      var h1 := Step(h, t[0], parseInt);
      StepSilent(h, t[0], parseInt, q, p);
      NoMentionAfterLeave(h1, t[1..], parseInt, q, p);
      SilentConcat(Outbox(h, p), Outbox(h1, p), Outbox(Run(h, t, parseInt), p), q);
    }
  }

  /** The record a single event leaves, if it is a command. */
  function Command(s: SharedState, e: Event, parseInt: IntParser): SharedState {
    if IsCommandEvent(e) then Apply(Classify(e.frame).speed, Classify(e.frame).forward, parseInt).value else s
  }

  /** The shared record after `t`, reading the commands alone. */
  function StateAfter(s: SharedState, t: seq<Event>, parseInt: IntParser): SharedState
    decreases |t|
  {
    if t == [] then s
    else
      StateAfter(Command(s, t[0], parseInt), t[1..], parseInt)
  }

  /** Only commands move the shared record: a run's record is the one the
      commands alone produce. */
  lemma {:induction false} RunState(h: Hub, t: seq<Event>, parseInt: IntParser)
    requires Admissible(h.subscribers, t)
    ensures Run(h, t, parseInt).state == StateAfter(h.state, t, parseInt)
    decreases |t|
  {
    if t != [] {
      StepState(h, t[0], parseInt);
      RunState(Step(h, t[0], parseInt), t[1..], parseInt);
    }
  }

  /** Events that are not applied commands leave the shared record alone. */
  lemma {:induction false} StateWithoutCommands(s: SharedState, t: seq<Event>, parseInt: IntParser)
    requires forall i :: 0 <= i < |t| ==> !IsCommandEvent(t[i])
    ensures StateAfter(s, t, parseInt) == s
    decreases |t|
  {
    if t != [] {
      assert !IsCommandEvent(t[0]);
      StateWithoutCommands(s, t[1..], parseInt);
    }
  }

  /** The record is the normalisation of the last applied command in `t`. */
  lemma {:induction false} LastCommandState(s: SharedState, t: seq<Event>, k: nat, parseInt: IntParser)
    requires k < |t| && IsCommandEvent(t[k])
    requires forall i :: k < i < |t| ==> !IsCommandEvent(t[i])
    ensures Some(StateAfter(s, t, parseInt)) == Apply(Classify(t[k].frame).speed, Classify(t[k].frame).forward, parseInt)
    decreases |t|
  {
    var s1 := Command(s, t[0], parseInt);
    if k == 0 {
      StateWithoutCommands(s1, t[1..], parseInt);
    } else {
      LastCommandState(s1, t[1..], k - 1, parseInt);
    }
  }

  /** The shared record after a run is the normalisation of the last
      command applied, whatever came before it; a later command whose
      `speed` cannot be converted does not count. */
  lemma LastCommandWins(h: Hub, t: seq<Event>, k: nat, parseInt: IntParser)
    requires Admissible(h.subscribers, t)
    requires k < |t| && IsCommandEvent(t[k])
    requires forall i :: k < i < |t| ==> !IsCommandEvent(t[i])
    ensures Some(Run(h, t, parseInt).state) == Apply(Classify(t[k].frame).speed, Classify(t[k].frame).forward, parseInt)
  {
    RunState(h, t, parseInt);
    LastCommandState(h.state, t, k, parseInt);
  }

  /** A run without applied commands leaves the shared record as it found it. */
  lemma NoCommandKeepsState(h: Hub, t: seq<Event>, parseInt: IntParser)
    requires Admissible(h.subscribers, t)
    requires forall i :: 0 <= i < |t| ==> !IsCommandEvent(t[i])
    ensures Run(h, t, parseInt).state == h.state
  {
    RunState(h, t, parseInt);
    StateWithoutCommands(h.state, t, parseInt);
  }
}
