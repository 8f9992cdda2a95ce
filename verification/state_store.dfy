/** The single shared record `{speed, forward}` and the normalisation a
    command applies to it (socket/index.ts, `globalState`). */
module StateStore {
  import opened Wrappers
  import opened Json

  /** JavaScript's `parseInt` applied to a present property value that
      converts to a string; `None` stands for NaN. Text-to-number parsing is
      not modelled, so the parse is a parameter of every operation that needs
      it. A value whose string conversion throws never reaches it. */
  type IntParser = Value -> Option<int>

  /** The shared record. `forward` is whatever non-nullish value the last
      command carried, so it is a JSON value rather than a boolean. */
  datatype SharedState = SharedState(speed: int, forward: Value)

  /** The value the process starts with. */
  const Initial: SharedState := SharedState(0, Bool(true))

  /** `parseInt` first converts its argument to a string, which throws for
      some decoded values. */
  predicate SpeedThrows(speed: Field) {
    speed.Some? && ToStringThrows(speed.value)
  }

  /** `parseInt(speed) || 0`, or `None` when the conversion throws. An
      undefined `speed` parses to NaN; NaN and a parsed zero both fall
      through to 0. */
  function NormaliseSpeed(speed: Field, parseInt: IntParser): (n: Option<int>)
    ensures n == None <==> SpeedThrows(speed)
    ensures n.Some? && n.value != 0 ==> speed.Some? && parseInt(speed.value) == n
    ensures n.Some? && speed.Some? && parseInt(speed.value).Some? ==> n == parseInt(speed.value)
    ensures n == Some(0) <==>
              speed == None || (!ToStringThrows(speed.value) && parseInt(speed.value) in {None, Some(0)})
  {
    match speed
    case None => Some(0)
    case Some(v) => if ToStringThrows(v) then None else Some(parseInt(v).GetOr(0))
  }

  /** `forward ?? true`: the payload's value unless it is undefined or null. */
  function NormaliseForward(forward: Field): (v: Value)
    ensures Nullish(forward) ==> v == Bool(true)
    ensures !Nullish(forward) ==> Some(v) == forward
    ensures v != Null
  {
    Coalesce(forward, Bool(true))
  }

  /** The State Store update: both fields are overwritten from the command,
      so nothing of the previous record survives. When converting `speed`
      throws, the handler stops before either assignment and there is no
      new record. */
  function Apply(speed: Field, forward: Field, parseInt: IntParser): (r: Option<SharedState>)
    ensures r == None <==> SpeedThrows(speed)
    ensures r.Some? ==> Some(r.value.speed) == NormaliseSpeed(speed, parseInt)
    ensures r.Some? ==> r.value.forward == NormaliseForward(forward)
  {
    match NormaliseSpeed(speed, parseInt)
    case None => None
    case Some(n) => Some(SharedState(n, NormaliseForward(forward)))
  }

  /** A command whose `speed` is missing or parses to NaN, and whose
      `forward` is missing or null, resets the record to its initial value. */
  lemma DefaultsRestoreInitial(speed: Field, forward: Field, parseInt: IntParser)
    requires speed == None || (!ToStringThrows(speed.value) && parseInt(speed.value) == None)
    requires Nullish(forward)
    ensures Apply(speed, forward, parseInt) == Some(Initial)
  {
  }
}
