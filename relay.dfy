/** The shared registry and every operation that reads or changes it. Each
    method is one critical section of the source: the mutex serialises them,
    so each is modelled as an atomic step on one object. */
module Relay {
  import opened Types
  import opened Handlers
  import opened Ws

  class Relay {
    /** The `HashMap<String, Client>` behind the mutex. */
    var clients: Clients
    /** Contents pushed onto each outbound channel so far. */
    var queues: Queues

    ghost predicate Valid()
      reads this
    {
      SendersOpen(clients, queues) && SendersDistinct(clients)
    }

    constructor ()
      ensures Valid()
      ensures clients == map[] && queues == map[]
    {
      clients := map[];
      queues := map[];
    }

    /** `register_client`: store a pending record under a fresh token. */
    method RegisterClient(id: Token, userId: nat)
      requires Valid()
      requires id !in clients
      modifies this
      ensures Valid()
      ensures clients == old(clients)[id := Client(userId, [DefaultTopic], None)]
      ensures queues == old(queues)
    {
      clients := clients[id := PendingClient(userId)];
    }

    /** `register_handler`: `id` stands for the freshly generated UUID. */
    method Register(id: Token, userId: nat) returns (url: string)
      requires Valid()
      requires IsSimpleUuid(id) && id !in clients
      modifies this
      ensures Valid()
      ensures clients == old(clients)[id := Client(userId, [DefaultTopic], None)]
      ensures queues == old(queues)
      ensures url == RegisterUrl(id) && TokenOf(url) == Some(id)
    {
      RegisterClient(id, userId);
      url := UrlPrefix + id;
      UrlRoundTrip(id);
    }

    /** `unregister_handler`: remove the key, present or not; always OK. */
    method Unregister(id: Token) returns (status: nat)
      requires Valid()
      modifies this
      ensures Valid()
      ensures clients == old(clients) - {id}
      ensures id !in old(clients) ==> clients == old(clients)
      ensures queues == old(queues)
      ensures status == StatusOk
    {
      clients := clients - {id};
      status := StatusOk;
    }

    /** `ws_handler`: look the token up; reject when absent, else hand on a
        copy of the stored record. Only presence is checked. */
    method Handshake(id: Token) returns (r: Handshake)
      ensures r == NotFound <==> id !in clients
      ensures r.Upgrade? ==> id in clients && r.client == clients[id]
    {
      if id in clients {
        r := Upgrade(clients[id]);
      } else {
        r := NotFound;
      }
    }

    /** First step of `client_connection`: set the new channel on the record
        copied at handshake time and insert it, overwriting whatever is now
        stored under `id`. */
    method Attach(id: Token, client: Client, q: QueueId)
      requires Valid()
      requires q !in queues
      modifies this
      ensures Valid()
      ensures clients == old(clients)[id := client.(sender := Some(q))]
      ensures queues == old(queues)[q := []]
    {
      queues := queues[q := []];
      clients := clients[id := client.(sender := Some(q))];
    }

    /** `client_msg`: ignore non-text frames, heartbeats and bodies that do
        not decode; otherwise replace the topics of `id` if it is still
        registered. */
    method ClientMsg(id: Token, msg: Message)
      requires Valid()
      modifies this
      ensures Valid()
      ensures TopicUpdate(msg).None? || id !in old(clients) ==> clients == old(clients)
      ensures TopicUpdate(msg).Some? && id in old(clients) ==>
                clients == old(clients)[id := old(clients)[id].(topics := TopicUpdate(msg).value)]
      ensures queues == old(queues)
    {
      if msg.NonText? {
        return;
      }
      if IsPing(msg.body) {
        return;
      }
      match msg.decoded {
        case None =>
          return;
        case Some(topics) =>
          if id in clients {
            clients := clients[id := clients[id].(topics := topics)];
          }
      }
    }

    /** The read loop of `client_connection`: hand each received message to
        `ClientMsg`, in order, until the stream ends or yields an error. */
    method ReadLoop(id: Token, stream: seq<Received>)
      requires Valid()
      modifies this
      ensures Valid()
      ensures clients == AfterMessages(old(clients), id, Inbound(stream))
      ensures queues == old(queues)
    {
      var i := 0;
      ghost var seen: seq<Message> := [];
      while i < |stream| && stream[i].Received?
        invariant Valid()
        invariant i <= |stream|
        invariant seen + Inbound(stream[i..]) == Inbound(stream)
        invariant clients == AfterMessages(old(clients), id, seen)
        invariant queues == old(queues)
      {
        var msg := stream[i].msg;
        InboundReceived(stream, i);
        AfterOneMore(old(clients), id, seen, msg);
        ClientMsg(id, msg);
        seen := seen + [msg];
        i := i + 1;
      }
      assert Inbound(stream[i..]) == [];
      assert seen + [] == seen;
    }

    /** Last step of `client_connection`: remove the key, whatever ended the loop. */
    method Teardown(id: Token)
      requires Valid()
      modifies this
      ensures Valid()
      ensures clients == old(clients) - {id}
      ensures queues == old(queues)
    {
      clients := clients - {id};
    }

    /** `client_connection` as a whole, for a connection that no other
        operation interleaves with. */
    method ClientConnection(id: Token, client: Client, q: QueueId, stream: seq<Received>)
      requires Valid()
      requires q !in queues
      modifies this
      ensures Valid()
      ensures id !in clients
      ensures clients == old(clients) - {id}
      ensures queues == old(queues)[q := []]
    {
      Attach(id, client, q);
      ReadLoop(id, stream);
      Teardown(id);
    }

    /** `publish_handler`: push the message once onto the channel of every
        record that passes the `user_id` filter, subscribes to the topic and
        has a sender. The registry itself is untouched; the answer is always OK. */
    method Publish(ev: Event) returns (status: nat)
      requires Valid()
      modifies this
      ensures Valid()
      ensures clients == old(clients)
      ensures queues.Keys == old(queues).Keys
      ensures forall q :: q in queues ==>
                queues[q] == if q in Recipients(clients, ev) then old(queues)[q] + [ev.message] else old(queues)[q]
      ensures status == StatusOk
    {
      var pending := clients.Keys;
      while pending != {}
        invariant Valid()
        invariant pending <= clients.Keys
        invariant clients == old(clients)
        invariant queues.Keys == old(queues).Keys
        invariant forall q :: q in queues ==>
                    queues[q] == if q in Recipients(clients - pending, ev) then old(queues)[q] + [ev.message] else old(queues)[q]
        decreases pending
      {
        var k :| k in pending;
        var c := clients[k];
        RecipientsStep(clients, pending, k, ev);
        if UserMatches(ev.userId, c) && ev.topic in c.topics {
          if c.sender.Some? {
            var q := c.sender.value;
            assert q !in Recipients(clients - pending, ev) by {
              if q in Recipients(clients - pending, ev) {
                RecipientsAreMatchingSenders(clients - pending, ev, q);
              }
            }
            queues := queues[q := queues[q] + [ev.message]];
          }
        }
        pending := pending - {k};
      }
      assert clients - pending == clients;
      status := StatusOk;
    }
  }
}
