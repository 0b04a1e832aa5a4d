# WebSocket pub/sub relay: a Dafny model of the client registry

The relay keeps one shared registry, a `HashMap<String, Client>` behind a
mutex, mapping a connection token to a client record
(`user_id`, `topics`, optional outbound `sender`). This project models that
registry and every operation that reads or changes it:

- registration, which stores a pending record (topics `["cats"]`, no sender)
  under a fresh token and answers with a `ws://127.0.0.1:8080/ws/<token>` URL;
- unregistration, which removes the key and always answers OK;
- the WebSocket handshake lookup, which rejects an unknown token as not found
  and otherwise hands a copy of the record to the connection;
- the connection itself: attach (store the copy with a new outbound channel),
  the read loop that hands each inbound message to the topic updater, and
  teardown (remove the key) however the loop ended;
- the topic updater, which ignores non-text frames, the `ping` / `"ping\n"`
  heartbeat and bodies that do not decode, and otherwise replaces the
  record's topic list wholesale;
- publish routing, which pushes the message once onto the channel of every
  record that passes the optional `user_id` filter, lists the topic and has
  a sender.

Files:

- `types.dfy` (module `Types`): the `Client` record, the `Clients` map, the
  outbound `Queues` (what has been pushed onto each channel) and the two
  registry invariants: every sender names an existing channel, and no two
  records share one.
- `handlers.dfy` (module `Handlers`): the URL, the pending record, the
  publish filter `Matches` and the set of `Recipients`, with lemmas.
- `ws.dfy` (module `Ws`): inbound messages, the heartbeat test, the effect of
  one message (`Apply`) and of a run of them (`Replay`), and `Inbound`, the
  messages the read loop consumes before it stops.
- `relay.dfy` (module `Relay`): class `Relay` with fields `clients` and
  `queues`; each handler is one method, one critical section of the source.
- `scenarios.dfy` (module `Scenarios`): two client methods that drive the
  class through its contracts alone: the register / connect / resubscribe /
  publish / disconnect life cycle, and the lookup-then-attach race.

Where the relay's design description and its code differ, the model follows
the code:

- The handshake only checks that the token is present
  (src/handlers.rs:30-36). A token whose record already has a sender is
  accepted again, and the second attach overwrites the record with a new
  channel (src/ws.rs:20-21). The design description says a second connection
  is rejected.
- Lookup and attach are two separate critical sections: the record is cloned
  at lookup time and re-inserted at attach time. An unregister between them
  is undone, and a topic update made between them is lost
  (`Scenarios.LookupAttachRace`).
- A non-text frame is ignored and the read loop goes on (src/ws.rs:43-46);
  the design description says it ends the loop. Only a receive error or the
  end of the stream ends it.
- Topics are a list (`Vec<String>`), not a set: order and duplicates are kept
  as sent.

The URL names port 8080, while src/main.rs:58 serves on port 8000; the model
keeps the URL as written.

## Model

| member | source | states |
|---|---|---|
| `Relay.Relay.constructor` | src/main.rs:24 | the registry starts empty, with no channels, and satisfies the registry invariants |
| `Relay.Relay.RegisterClient` | src/handlers.rs:74-83 | inserts a record with the given user id, topics `["cats"]` and no sender under a key not yet present; no other key and no channel changes; invariants kept |
| `Relay.Relay.Register` | src/handlers.rs:39-47 | stores the pending record as above and returns the connection URL for the token, from which the token is read back |
| `Handlers.RegisterUrl` | src/handlers.rs:44-46 | the URL is the fixed prefix followed by exactly the token |
| `Handlers.UrlRoundTrip` | src/handlers.rs:41-46 | reading the token back out of a registration URL yields that token |
| `Handlers.RegisterUrlInjective` | src/handlers.rs:41-46 | two tokens with the same URL are the same token |
| `Relay.Relay.Unregister` | src/handlers.rs:49-52 | afterwards the key is absent, every other entry is as before, an absent key leaves the registry unchanged, and the answer is always 200 OK |
| `Relay.Relay.Handshake` | src/handlers.rs:28-37 | rejects as not found exactly when the token is absent; otherwise yields exactly the stored record; changes nothing |
| `Relay.Relay.Attach` | src/ws.rs:20-21 | the entry becomes the record copied at lookup time with the new channel as sender, whatever is stored under the key now; the new channel starts empty; other entries unchanged |
| `Relay.Relay.ClientMsg` | src/ws.rs:40-67 | a non-text frame, a heartbeat or an undecodable body changes nothing; a decoded request replaces the token's topic list wholesale (empty list allowed) keeping user id and sender; a token no longer registered is a silent no-op; channels unchanged |
| `Ws.PingKeepsTopics` | src/ws.rs:48-50 | `ping` and `ping\n` leave the topics as they are, whatever they would decode to |
| `Ws.ReplayLastUpdate` | src/ws.rs:25-66 | after a run of messages handled in arrival order, the topics are those of the last message that carried an update |
| `Ws.ReplayWithoutUpdate` | src/ws.rs:40-58 | a run of heartbeats, non-text frames and undecodable bodies leaves the topics unchanged |
| `Ws.Inbound` | src/ws.rs:25-34 | the read loop consumes the messages up to the first receive error or the end of the stream, in order; non-text messages do not stop it |
| `Relay.Relay.ReadLoop` | src/ws.rs:25-34 | the registry after the loop is the registry before it with the token's topics replayed over exactly the consumed messages; channels unchanged |
| `Relay.Relay.Teardown` | src/ws.rs:36 | the token is removed, every other entry is kept |
| `Relay.Relay.ClientConnection` | src/ws.rs:9-38 | for any stream, whether it ends or fails, the token is gone afterwards and the rest of the registry is as before; the connection's channel exists |
| `Handlers.RecipientIff` | src/handlers.rs:59-68 | an attached record's channel is a recipient exactly when the record passes the user filter (absent filter passes) and lists the topic |
| `Handlers.RecipientsAreMatchingSenders` | src/handlers.rs:59-68 | every recipient channel is the sender of a matching record, so pending records never receive |
| `Relay.Relay.Publish` | src/handlers.rs:54-72 | each recipient channel gets exactly one copy of the message appended, every other channel is unchanged, the registry (keys, user ids, topics, senders) is unchanged, and the answer is 200 OK even with no recipient |

## Left out

- HTTP routing, CORS, the server bootstrap (src/main.rs:22-63) and the health probe (src/handlers.rs:85-87): transport plumbing outside the registry.
- The mutex and the async runtime: each critical section is one atomic method. `ClientConnection` shows a connection with nothing interleaved; interleavings are expressed by calling `Attach`, `ClientMsg`, `Teardown` and the other methods in any order, as `Scenarios.LookupAttachRace` does.
- The outbound pump (src/ws.rs:14-18): it is socket I/O. Its failure closes the channel's receiving end, after which a send fails and the error is discarded; the model never closes a channel, so it does not capture that swallowed send error.
- Relay.Relay.Register: the UUID v4 generator is randomness; the token is a parameter required to have the simple UUID shape and to be absent from the registry. A collision, which the source would overwrite, is excluded, and uniqueness over the whole process lifetime is not modelled.
- JSON encoding and decoding of the request bodies: a library call. The outcome of decoding a text message as a topics request is carried in the message (`decoded`), and the register and publish bodies arrive already decoded.
- The user id is a `usize`; the model uses `nat`, which is only compared for equality, so the width does not matter.
- Logging and WebSocket frame details beyond text versus non-text.
