/** Outbound messages and the objects the hub serialises for them
    (socket/index.ts, the object literals handed to `JSON.stringify`). */
module Messages {
  import opened Wrappers
  import opened Json

  /** A peer identifier, assigned once per connection. */
  type Id = string

  /** Every message the hub sends. */
  datatype Msg =
    | State(speed: int, forward: Value, userId: Option<Id>)
    | Cursor(id: Id, x: Field, y: Field)
    | Users(count: nat)
    | UserDisconnected(id: Id)

  /** The `type` discriminator each message carries. */
  function Tag(m: Msg): string {
    match m
    case State(_, _, _) => "state"
    case Cursor(_, _, _) => "cursor"
    case Users(_) => "users"
    case UserDisconnected(_) => "user_disconnected"
  }

  /** The message names peer `p`: as the snapshot's owner, the cursor's
      sender, or the peer that left. */
  predicate Mentions(m: Msg, p: Id) {
    match m
    case State(_, _, u) => u == Some(p)
    case Cursor(q, _, _) => q == p
    case Users(_) => false
    case UserDisconnected(q) => q == p
  }

  /** A JSON object as an ordered list of properties. */
  type Object = seq<(string, Value)>

  /** A property that `JSON.stringify` writes only when it is defined. */
  function Prop(key: string, f: Field): (o: Object)
    ensures |o| <= 1
    ensures f.Some? <==> |o| == 1
    ensures f.Some? ==> o[0] == (key, f.value)
  {
    if f.Some? then [(key, f.value)] else []
  }

  /** Keys of an object are pairwise distinct. */
  predicate DistinctKeys(o: Object) {
    forall i, j :: 0 <= i < j < |o| ==> o[i].0 != o[j].0
  }

  /** The object built for a cursor, before serialisation. */
  function CursorObject(id: Id, x: Field, y: Field): Object {
    [("type", Str("cursor")), ("id", Str(id))] + Prop("x", x) + Prop("y", y)
  }

  /** The object built for a message, properties in insertion order: the
      state spread puts `speed` before `forward`, and an undefined cursor
      coordinate is dropped from the text. */
  function Wire(m: Msg): (o: Object)
    ensures |o| >= 2 && o[0] == ("type", Str(Tag(m)))
    ensures DistinctKeys(o)
    ensures m.State? ==>
              && |o| == (if m.userId.Some? then 4 else 3)
              && o[1] == ("speed", Num(m.speed as real))
              && o[2] == ("forward", m.forward)
              && (m.userId.Some? ==> o[3] == ("userId", Str(m.userId.value)))
    ensures m.Cursor? ==>
              && |o| == 2 + (if m.x.Some? then 1 else 0) + (if m.y.Some? then 1 else 0)
              && o[1] == ("id", Str(m.id))
              && Lookup(o, "x") == m.x
              && Lookup(o, "y") == m.y
    ensures m.Users? ==> |o| == 2 && o[1] == ("count", Num(m.count as real))
    ensures m.UserDisconnected? ==> |o| == 2 && o[1] == ("id", Str(m.id))
  {
    match m
    case State(s, f, u) =>
      [("type", Str("state")), ("speed", Num(s as real)), ("forward", f)] + Prop("userId", if u.Some? then Some(Str(u.value)) else None)
    case Cursor(id, x, y) =>
      CursorCoordinates(id, x, y);
      CursorObject(id, x, y)
    case Users(n) =>
      [("type", Str("users")), ("count", Num(n as real))]
    case UserDisconnected(id) =>
      [("type", Str("user_disconnected")), ("id", Str(id))]
  }

  /** Distinct messages serialise to distinct objects, so a receiver can
      recover every message from its text. */
  lemma WireInjective(m1: Msg, m2: Msg)
    requires Wire(m1) == Wire(m2)
    ensures m1 == m2
  {
  }

  /** Where a cursor's coordinates sit in its object, read back by key. */
  lemma CursorCoordinates(id: Id, x: Field, y: Field)
    ensures x == Lookup(CursorObject(id, x, y), "x")
    ensures y == Lookup(CursorObject(id, x, y), "y")
  {
    var o := CursorObject(id, x, y);
    var rest := Prop("x", x) + Prop("y", y);
    assert o == [("type", Str("cursor")), ("id", Str(id))] + rest;
    assert o[1..][1..] == rest;
    assert Lookup(o, "x") == Lookup(rest, "x");
    assert Lookup(o, "y") == Lookup(rest, "y");
    if x.Some? {
      assert rest[1..] == Prop("y", y);
      assert Lookup(rest, "y") == Lookup(Prop("y", y), "y");
    } else {
      assert rest == Prop("y", y);
      if y.Some? {
        assert rest[0].0 == "y";
        assert rest[1..] == [];
        assert Lookup(rest, "x") == Lookup(rest[1..], "x");
      }
    }
  }

  /** The value stored under `key`, if any. */
  function Lookup(o: Object, key: string): Field {
    if o == [] then None
    else if o[0].0 == key then Some(o[0].1)
    else Lookup(o[1..], key)
  }
}
