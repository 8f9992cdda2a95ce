/** Classification of an inbound payload (socket/index.ts, `message`
    handler): cursor relay, state command, or nothing. */
module Router {
  import opened Wrappers
  import opened Json

  /** The properties of a decoded payload that the handler reads. A payload
      that decodes to a boolean, a number, a string or an array has none of them, and is
      represented with every field undefined. */
  datatype Payload = Payload(kind: Field, speed: Field, forward: Field, x: Field, y: Field)

  /** Outcome of decoding a frame. `Malformed` covers text that is not JSON
      and the JSON `null`, whose property read throws inside the same `try`. */
  datatype Decoded = Malformed | Decoded(payload: Payload)

  /** What the handler does with a frame. */
  datatype Action =
    | RelayCursor(x: Field, y: Field)
    | ApplyCommand(speed: Field, forward: Field)
    | Ignore

  /** The strict test `data.type === 'cursor'`. */
  predicate IsCursor(p: Payload) {
    p.kind == Some(Str("cursor"))
  }

  /** `data.type === 'command' || (!data.type && data.speed !== undefined)`. */
  predicate IsCommand(p: Payload) {
    p.kind == Some(Str("command")) || (Falsy(p.kind) && p.speed.Some?)
  }

  /** The handler's dispatch, in its priority order. */
  function Classify(d: Decoded): (a: Action)
    ensures a.RelayCursor? <==> d.Decoded? && IsCursor(d.payload)
    ensures a.ApplyCommand? <==> d.Decoded? && !IsCursor(d.payload) && IsCommand(d.payload)
    ensures a.RelayCursor? ==> a.x == d.payload.x && a.y == d.payload.y
    ensures a.ApplyCommand? ==> a.speed == d.payload.speed && a.forward == d.payload.forward
  {
    match d
    case Malformed => Ignore
    case Decoded(p) =>
      if IsCursor(p) then RelayCursor(p.x, p.y)
      else if IsCommand(p) then ApplyCommand(p.speed, p.forward)
      else Ignore
  }

  /** The priority rules in the payload's own terms: a cursor type wins even
      when a speed is present; a legacy untyped payload is a command only when
      it carries a speed; any other truthy type is ignored, speed or not; a
      frame that fails to decode is ignored. */
  lemma ClassificationPriority(p: Payload)
    ensures p.kind == Some(Str("cursor")) ==> Classify(Decoded(p)) == RelayCursor(p.x, p.y)
    ensures p.kind == Some(Str("command")) ==> Classify(Decoded(p)) == ApplyCommand(p.speed, p.forward)
    ensures p.kind == None && p.speed.Some? ==> Classify(Decoded(p)) == ApplyCommand(p.speed, p.forward)
    ensures Falsy(p.kind) && p.speed == None ==> Classify(Decoded(p)) == Ignore
    ensures (!Falsy(p.kind) && p.kind != Some(Str("cursor")) && p.kind != Some(Str("command")))
              ==> Classify(Decoded(p)) == Ignore
    ensures Classify(Malformed) == Ignore
  {
  }

  /** The dispatch reads only `type` and whether `speed` is defined: payloads
      that agree on those take the same branch, whatever their other fields. */
  lemma ClassifyReadsTypeAndSpeed(p: Payload, q: Payload)
    requires p.kind == q.kind && p.speed.Some? == q.speed.Some?
    ensures Classify(Decoded(p)).RelayCursor? == Classify(Decoded(q)).RelayCursor?
    ensures Classify(Decoded(p)).ApplyCommand? == Classify(Decoded(q)).ApplyCommand?
  {
  }
}
