/** The registry's data model: the `Client` record and the `Clients` map of src/main.rs. */
module Types {

  datatype Option<T> = None | Some(value: T)

  /** A connection token: the simple (hyphen-free) form of a v4 UUID. */
  type Token = string

  /** Identifies one unbounded outbound channel created by a connection. */
  type QueueId = nat

  /** One registered client. `sender` is absent while the record is pending
      and names the outbound channel once a connection has attached. */
  datatype Client = Client(userId: nat, topics: seq<string>, sender: Option<QueueId>)

  /** The shared registry, keyed by token. */
  type Clients = map<Token, Client>

  /** What has been pushed onto each outbound channel, in push order. */
  type Queues = map<QueueId, seq<string>>

  /** Every attached sender refers to a channel that exists. */
  predicate SendersOpen(clients: Clients, queues: Queues)
  {
    forall k :: k in clients && clients[k].sender.Some? ==> clients[k].sender.value in queues
  }

  /** No two records share an outbound channel: each connection creates its own. */
  predicate SendersDistinct(clients: Clients)
  {
    forall k1, k2 ::
      k1 in clients && k2 in clients && k1 != k2 &&
      clients[k1].sender.Some? && clients[k2].sender.Some? ==>
        clients[k1].sender.value != clients[k2].sender.value
  }
}
