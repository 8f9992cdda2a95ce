# Relay hub model

A Dafny model of the relay hub in `socket/index.ts`. Browser control UIs and actuator devices connect to this
WebSocket server. The hub keeps one shared record, `{speed, forward}`, and one broadcast topic that every
connected peer subscribes to. It relays three kinds of traffic:

- **open**: the hub subscribes the peer and sends it a `state` snapshot that carries its own `userId`. It then
  publishes `users` with the subscriber count.
- **message**: a `cursor` payload is relayed to every other subscriber, tagged with the sender's id. A `command`
  payload, or an untyped payload that carries a `speed`, replaces the shared record; the new value is then published
  to every subscriber, the sender included. Anything else, including a frame that does not decode, is ignored.
- **close**: the hub unsubscribes the peer and publishes `user_disconnected` to the remaining peers, then
  publishes `users` with the new count.

The model is functional. A `Hub` value holds the shared record, the subscriber set, and the log of deliveries
the hub has made. Each delivery is a message plus the set of peers it went to. A peer's outbox is the sequence
of logged messages addressed to it, in order. `Open`, `Message` and `Close` are pure transitions of a hub.
`Traces.Run` runs a sequence of such events in order.

Modules (one file each): `Wrappers` (option type), `Json` (decoded values, JavaScript falsiness and `??`),
`StateStore` (shared record and command normalisation), `Router` (payload classification), `Messages`
(outbound messages and the objects serialised for them), `Hub` (deliveries and the three handlers), `Traces`
(event sequences and properties of whole runs), `Scenarios` (concrete two-peer runs).

Four details the model keeps exactly as the code has them:

- `forward` is set to `data.forward ?? true`, so any non-nullish JSON value is stored and rebroadcast, not only a
  boolean. The model keeps `forward` as a JSON value.
- The legacy-command rule tests `!data.type`. A payload whose `type` is `null`, `false`, `0` or `""` is therefore
  treated like one with no `type`.
- A JSON `null` payload makes the property read throw inside the same `try` as the parse, so it is modelled as a
  malformed frame. A boolean, number, string or array payload has none of the properties, so it is modelled as a payload
  with every field undefined, and it is ignored.
- `parseInt` first converts its argument to a string. For a decoded object with its own `toString` property, or
  an array holding one, that conversion throws inside the `try`: the error is swallowed, the record is not
  assigned, and nothing is broadcast. The model drops such a command and leaves the hub as it was.

Abstractions:

- JavaScript's `parseInt` is a parameter of type `Value -> Option<int>`, where `None` stands for NaN. It is
  consulted only for a value whose string conversion does not throw. An undefined `speed` always parses to NaN.
- The decoded JSON payload is a record of optional fields (`type`, `speed`, `forward`, `x`, `y`).
- Bun's topic publish is an explicit delivery to the subscriber set: `server.publish` reaches every subscriber,
  and `ws.publish` reaches every subscriber except the publishing socket.
- Peer ids are parameters. `Open` requires that the id is not already connected. `Message` and `Close` require
  that it is connected, because the runtime calls these handlers only for an open socket.

## Model

| member | source | states |
|---|---|---|
| Hub.Init | socket/index.ts:4-7 | The initial hub has the initial record, no subscriber, and an empty outbox for every peer. |
| StateStore.NormaliseSpeed | socket/index.ts:81 | There is no result exactly when converting `speed` to a string throws. Otherwise the stored speed is nonzero only when `speed` is present and parses to that nonzero integer, and it is 0 exactly when `speed` is undefined, parses to NaN, or parses to 0. |
| StateStore.NormaliseForward | socket/index.ts:82 | The stored forward is the payload's value unless that value is undefined or null, in which case it is true. It is never null. |
| StateStore.Apply | socket/index.ts:81-82 | A command yields no new record exactly when its speed conversion throws. Otherwise both fields are replaced by the normalised speed and forward, and nothing of the old record survives. |
| StateStore.DefaultsRestoreInitial | socket/index.ts:81-82 | A command whose speed is missing or parses to NaN, and whose forward is missing or null, resets the record to its initial value. |
| Router.Classify | socket/index.ts:64-89 | Cursor relay exactly when `type` is the string "cursor". Command exactly when not a cursor and `type` is "command", or `type` is falsy and `speed` is defined. Otherwise ignored. Each action carries the payload's own fields. |
| Router.ClassifyReadsTypeAndSpeed | socket/index.ts:64-79 | Two payloads with the same `type` and the same definedness of `speed` take the same branch, whatever their other fields. |
| Router.ClassificationPriority | socket/index.ts:64-79 | A cursor type wins even when `speed` is present. An untyped payload with a speed is a command. An untyped payload without a speed is ignored. Any other truthy type is ignored, speed or not. A malformed frame is ignored. |
| Messages.Wire | socket/index.ts:49-102 | Each serialised object starts with its `type` discriminator and has distinct keys. A state object holds speed, then forward, then `userId` exactly when the message carries one. A cursor object holds `id`, and each coordinate is found under its key exactly when it is defined, so an undefined one is omitted. `users` holds the count and `user_disconnected` the id. |
| Messages.WireInjective | socket/index.ts:49-102 | Two messages that serialise to the same object are the same message. |
| Hub.ReceivedAppend | socket/index.ts:10-13 | A peer's messages from two consecutive stretches of deliveries are its messages from the first followed by those from the second. |
| Hub.ReceivedNothing | socket/index.ts:10-13 | A peer that no delivery addresses has been sent nothing. |
| Hub.Deliver | socket/index.ts:10-13 | A delivery appends the message to the outbox of each addressed peer and changes no other outbox, the record or the subscribers. |
| Hub.Mailboxes | socket/index.ts:10-13 | Filling one buffer per peer, delivery by delivery and peer by peer, gives each peer exactly its outbox. |
| Hub.Send | socket/index.ts:49-54 | `ws.send` appends the message to that one peer's outbox only. |
| Hub.Publish | socket/index.ts:10-13 | `broadcastToAll` appends the message to every subscriber's outbox and to no one else's. |
| Hub.PublishFrom | socket/index.ts:69-74 | `ws.publish` appends the message to every subscriber except the sender. The sender and non-subscribers receive nothing. |
| Hub.BroadcastUserCount | socket/index.ts:16-21 | Every subscriber receives `users` with the number of subscribers at the moment of the call, and nobody else receives anything. |
| Hub.PublishFromOutsider | socket/index.ts:96-102 | Once the closing socket has left the topic, its publish reaches every remaining subscriber. |
| Hub.Open | socket/index.ts:41-58 | The peer is added to the subscribers and the record is unchanged. The new peer receives the current record with its own userId, then the count. Each earlier subscriber receives the count. The count equals the number of subscribers after joining. Peers not connected receive nothing. |
| Hub.Message | socket/index.ts:59-93 | A cursor reaches every subscriber except the sender, tagged with the sender's id, and the record is unchanged. A command whose speed converts sets the record to the normalised speed and forward, and every subscriber, sender included, receives that record without a userId. A command whose speed conversion throws, an ignored frame and a malformed frame all leave the hub identical. Subscribers never change. |
| Hub.Close | socket/index.ts:94-109 | The peer is removed before any notification and receives nothing. Each remaining peer receives `user_disconnected` for that id, then the count after removal. The record is unchanged. |
| Hub.InitValid | socket/index.ts:4-7 | The initial hub satisfies the outbox invariant: every subscriber has been sent something, and every nonempty outbox starts with that peer's own snapshot. |
| Hub.OpenValid | socket/index.ts:46-57 | `open` preserves the outbox invariant. |
| Hub.MessageValid | socket/index.ts:59-93 | `message` preserves the outbox invariant. |
| Hub.CloseValid | socket/index.ts:94-109 | `close` preserves the outbox invariant. |
| Traces.Step | socket/index.ts:41-109 | The handler an event invokes changes the subscriber set by adding the opened id, removing the closed id, or neither. |
| Traces.StepState | socket/index.ts:79-92 | Only a command whose speed converts changes the record, and it replaces the record with the command's normalisation. |
| Traces.Run | socket/index.ts:41-109 | Across a run, outboxes only grow at the end, and the subscribers are those the open and close events leave. |
| Traces.RunValid | socket/index.ts:41-109 | Every run preserves the outbox invariant. |
| Traces.FirstMessageIsOwnSnapshot | socket/index.ts:46-54 | From process start, every connected peer has been sent something, and every peer's first message is a state snapshot naming that peer. |
| Traces.ConnectedCount | socket/index.ts:16-21 | The number of connected peers is the starting number plus the opens minus the closes. |
| Traces.CountAfterPresenceChange | socket/index.ts:56-57 | After an open or a close, every connected peer's last message is `users` with the number of connected peers. |
| Traces.AbsentPeerUntouched | socket/index.ts:96-108 | A peer that is not connected and does not connect again stays disconnected and is sent nothing. |
| Traces.NoMentionAfterLeave | socket/index.ts:94-109 | Once a peer has left, and until it connects again, no peer is sent a message naming it: no cursor, no second departure notice, no snapshot addressed to it. |
| Traces.LastCommandWins | socket/index.ts:79-92 | After any run, the record is the normalisation of the last applied command in it, whatever came before. A later command whose speed conversion throws does not count. |
| Traces.NoCommandKeepsState | socket/index.ts:63-92 | A run without applied commands leaves the record unchanged. |
| Traces.RunAppend | socket/index.ts:41-109 | Running two event sequences one after the other is running their concatenation. |
| Scenarios.FirstPeerGreeted | socket/index.ts:46-57 | The first peer receives `state` with speed 0, forward true and its own userId, then `users` with count 1. |
| Scenarios.SecondPeerJoins | socket/index.ts:46-57 | When a second peer joins, the first receives `users` 2, and the second receives its own snapshot and then `users` 2. |
| Scenarios.CommandReachesEveryone | socket/index.ts:79-88 | A command whose speed parses to 42, with forward false, sets the record and reaches both peers as `state` 42/false. |
| Scenarios.CursorSkipsSender | socket/index.ts:64-75 | A cursor from A at (10, 20) reaches B only. |
| Scenarios.DisconnectNotifiesRest | socket/index.ts:94-109 | When A leaves, B receives `user_disconnected` for A and then `users` 1, and A receives nothing. |
| Scenarios.UnconvertibleSpeedChangesNothing | socket/index.ts:79-92 | A command whose speed is `{"toString": 0}`, or an array holding an object with its own `toString`, leaves the hub identical. |
| Scenarios.MalformedChangesNothing | socket/index.ts:60-61 | A frame that fails to decode leaves the whole hub unchanged, and the sender stays subscribed. |

## Left out

- `Bun.serve`, TLS certificate loading and the HTTP upgrade in `fetch` (lines 23-39) are transport set-up, and
  the model does not cover them.
- Id generation with `Math.random`, and the fallback in `open` that assigns an id when none was set, are not
  modelled. Ids are parameters, and uniqueness among connected peers is a precondition.
- `JSON.parse`/`JSON.stringify` text handling is not modelled. Payloads are already-decoded records, and outbound
  messages are property lists.
- The text-to-number rules of `parseInt`, and the rounding of very large results to doubles, are not modelled.
  Speeds are unbounded integers. A digit string whose value is about 1.8e308 or more parses to Infinity, or to
  -Infinity with a leading minus. That covers every string with 310 or more significant digits and some with 309.
  `JSON.stringify` writes it as `null`, so such a speed goes out as `"speed":null`. The model broadcasts the
  integer instead.
- JSON numbers are finite reals. Decoding a number too large for a double yields Infinity, which the model cannot
  represent. Its effect depends on where it appears:
  - as `type`, it is truthy and not one of the known strings, so the frame is ignored;
  - as `speed`, it converts to the string "Infinity", which has no digits, so it parses to NaN and is stored as 0;
  - as `forward`, `x` or `y`, it is kept or relayed, but `JSON.stringify` writes it as `null`, so a `state` or
    `cursor` message can carry `null` for that field.
- The zero-delay timer in `close` is taken as the next step. Other events that could run before it fires are not
  modelled, because that would be concurrency.
- Socket delivery failure is not modelled, nor whether Bun delivers a publish made by a socket that is closing.
  Each delivery is taken to reach its addressees.
- `console.log`/`console.error` output is not modelled.
