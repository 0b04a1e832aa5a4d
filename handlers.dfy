/** The pure parts of src/handlers.rs: the registration URL, the defaults of a
    new record, and the matching predicate of publish routing. */
module Handlers {
  import opened Types

  /** The URL prefix that `register_handler` puts in front of the token. */
  const UrlPrefix: string := "ws://127.0.0.1:8080/ws/"

  /** The topic list every newly registered client starts with. */
  const DefaultTopic: string := "cats"

  /** `StatusCode::OK`. */
  const StatusOk: nat := 200

  /** A publish request: the `Event` body. */
  datatype Event = Event(topic: string, userId: Option<nat>, message: string)

  /** Outcome of the handshake lookup: upgrade with the record cloned at
      lookup time, or reject as not found. */
  datatype Handshake = Upgrade(client: Client) | NotFound

  predicate IsLowerHex(ch: char)
  {
    '0' <= ch <= '9' || 'a' <= ch <= 'f'
  }

  /** The shape of `Uuid::new_v4().simple().to_string()`: 32 lower-case hex digits. */
  predicate IsSimpleUuid(s: string)
  {
    |s| == 32 && forall i :: 0 <= i < |s| ==> IsLowerHex(s[i])
  }

  /** The pending record that registration stores. */
  function PendingClient(userId: nat): Client
  {
    Client(userId, [DefaultTopic], None)
  }

  /** The connection URL handed back by registration. */
  function RegisterUrl(token: Token): (url: string)
    ensures |url| == |UrlPrefix| + |token|
    ensures url[..|UrlPrefix|] == UrlPrefix
    ensures url[|UrlPrefix|..] == token
  {
    UrlPrefix + token
  }

  /** The token a client reads back out of a connection URL. */
  function TokenOf(url: string): Option<Token>
  {
    if |UrlPrefix| <= |url| && url[..|UrlPrefix|] == UrlPrefix then Some(url[|UrlPrefix|..]) else None
  }

  /** The token is recoverable from the URL. */
  lemma UrlRoundTrip(token: Token)
    ensures TokenOf(RegisterUrl(token)) == Some(token)
  {
  }

  /** Distinct tokens give distinct URLs. */
  lemma RegisterUrlInjective(a: Token, b: Token)
    requires RegisterUrl(a) == RegisterUrl(b)
    ensures a == b
  {
    UrlRoundTrip(a);
    UrlRoundTrip(b);
  }

  /** The `user_id` filter: absent matches everyone. */
  predicate UserMatches(filter: Option<nat>, c: Client)
  {
    match filter
    case Some(v) => c.userId == v
    case None => true
  }

  /** A record is sent the event when it passes both filters and has a sender. */
  predicate Matches(c: Client, ev: Event)
  {
    UserMatches(ev.userId, c) && ev.topic in c.topics && c.sender.Some?
  }

  /** The channels a publish of `ev` pushes onto. */
  function Recipients(clients: Clients, ev: Event): set<QueueId>
  {
    set k | k in clients && Matches(clients[k], ev) :: clients[k].sender.value
  }

  /** A record's channel is among the recipients exactly when the record matches. */
  lemma RecipientIff(clients: Clients, ev: Event, k: Token)
    requires SendersDistinct(clients)
    requires k in clients && clients[k].sender.Some?
    ensures clients[k].sender.value in Recipients(clients, ev) <==> Matches(clients[k], ev)
  {
    var q := clients[k].sender.value;
    if q in Recipients(clients, ev) {
      var k' :| k' in clients && Matches(clients[k'], ev) && clients[k'].sender.value == q;
      assert k' == k;
    }
  }

  /** Every recipient belongs to a record that matches; in particular pending
      records (no sender) never receive anything. */
  lemma RecipientsAreMatchingSenders(clients: Clients, ev: Event, q: QueueId)
    requires q in Recipients(clients, ev)
    ensures exists k :: k in clients && clients[k].sender == Some(q) && Matches(clients[k], ev)
  {
    var k :| k in clients && Matches(clients[k], ev) && clients[k].sender.value == q;
    assert clients[k].sender == Some(q);
  }

  /** The recipients of the records outside `pending`, plus one more record. */
  lemma RecipientsStep(clients: Clients, pending: set<Token>, k: Token, ev: Event)
    requires k in pending && pending <= clients.Keys
    ensures Recipients(clients - (pending - {k}), ev) ==
            Recipients(clients - pending, ev) + (if Matches(clients[k], ev) then {clients[k].sender.value} else {})
  {
    var before := clients - pending;
    var after := clients - (pending - {k});
    var extra := if Matches(clients[k], ev) then {clients[k].sender.value} else {};
    forall q | q in Recipients(after, ev)
      ensures q in Recipients(before, ev) + extra
    {
      var k' :| k' in after && Matches(after[k'], ev) && after[k'].sender.value == q;
      if k' != k {
        assert k' in before;
      }
    }
    forall q | q in Recipients(before, ev) + extra
      ensures q in Recipients(after, ev)
    {
      if q in Recipients(before, ev) {
        var k' :| k' in before && Matches(before[k'], ev) && before[k'].sender.value == q;
        assert k' in after;
      } else {
        assert k in after;
      }
    }
  }
}
