/** Clients of the `Relay` class that run the relay's documented life cycle
    and its lookup/attach race using only the methods' contracts. */
module Scenarios {
  import opened Types
  import opened Handlers
  import opened Ws
  import opened Relay

  /** With one record, the recipients are its channel or nobody. */
  lemma SingleRecordRecipients(id: Token, c: Client, ev: Event)
    ensures Recipients(map[id := c], ev) == if Matches(c, ev) then {c.sender.value} else {}
  {
    var m := map[id := c];
    assert forall k :: k in m ==> k == id;
    if Matches(c, ev) {
      assert m[id].sender.value in Recipients(m, ev);
    }
  }

  /** Register as subscriber 42, see that the pending record receives
      nothing, then connect. */
  method LifeCycle(id: Token, q: QueueId)
    requires IsSimpleUuid(id)
  {
    var relay := new Relay();
    var url := relay.Register(id, 42);
    assert TokenOf(url) == Some(id);

    var status := relay.Publish(Event("cats", None, "early"));
    assert relay.queues == map[];

    var h := relay.Handshake(id);
    assert h == Upgrade(Client(42, ["cats"], None));
    relay.Attach(id, h.client, q);
    assert relay.clients == map[id := Client(42, ["cats"], Some(q))];
    Connected(relay, id, q);
  }

  /** Receive on "cats", switch to "dogs", see the identity filter. */
  method Connected(relay: Relay, id: Token, q: QueueId)
    requires relay.Valid()
    requires relay.clients == map[id := Client(42, ["cats"], Some(q))]
    requires relay.queues == map[q := []]
    modifies relay
  {
    var ev := Event("cats", None, "m1");
    SingleRecordRecipients(id, relay.clients[id], ev);
    var status := relay.Publish(ev);
    assert relay.queues.Keys == {q} && relay.queues[q] == [] + ["m1"];
    assert relay.queues[q] == ["m1"];
    assert relay.queues == map[q := ["m1"]];

    relay.ClientMsg(id, Text("ping", None));
    relay.ClientMsg(id, NonText);
    relay.ClientMsg(id, Text("{\"topics\":[\"dogs\"]}", Some(["dogs"])));
    assert relay.clients == map[id := Client(42, ["dogs"], Some(q))];
    Resubscribed(relay, id, q);
  }

  /** After the switch only "dogs" for any or the matching identity
      arrives; after disconnecting nothing does, and publish still succeeds. */
  method Resubscribed(relay: Relay, id: Token, q: QueueId)
    requires relay.Valid()
    requires relay.clients == map[id := Client(42, ["dogs"], Some(q))]
    requires relay.queues == map[q := ["m1"]]
    modifies relay
  {
    var c := relay.clients[id];
    SingleRecordRecipients(id, c, Event("cats", None, "m2"));
    var status := relay.Publish(Event("cats", None, "m2"));
    assert relay.queues[q] == ["m1"];
    assert relay.queues == map[q := ["m1"]];

    SingleRecordRecipients(id, c, Event("dogs", None, "m3"));
    status := relay.Publish(Event("dogs", None, "m3"));
    assert relay.queues.Keys == {q} && relay.queues[q] == ["m1"] + ["m3"];
    assert relay.queues[q] == ["m1", "m3"];
    assert relay.queues == map[q := ["m1", "m3"]];

    SingleRecordRecipients(id, c, Event("dogs", Some(7), "m4"));
    status := relay.Publish(Event("dogs", Some(7), "m4"));
    assert relay.queues == map[q := ["m1", "m3"]];

    relay.Teardown(id);
    status := relay.Publish(Event("dogs", None, "m5"));
    assert relay.queues == map[q := ["m1", "m3"]] && status == StatusOk;
  }

  /** Lookup and attach are separate steps: an unregister between them is
      undone, a second connection on an attached token is accepted and takes
      over the record, and the record keeps the topics seen at lookup time. */
  method LookupAttachRace(id: Token, q1: QueueId, q2: QueueId)
    requires IsSimpleUuid(id) && q1 != q2
  {
    var relay := new Relay();
    var url := relay.Register(id, 1);

    var first := relay.Handshake(id);
    var status := relay.Unregister(id);
    assert id !in relay.clients;
    relay.Attach(id, first.client, q1);
    assert relay.clients[id] == Client(1, ["cats"], Some(q1));

    var second := relay.Handshake(id);
    assert second.Upgrade?;
    relay.ClientMsg(id, Text("{\"topics\":[]}", Some([])));
    assert relay.clients[id].topics == [];
    relay.Attach(id, second.client, q2);
    assert relay.clients[id] == Client(1, ["cats"], Some(q2));
  }
}
