/** The pure parts of src/ws.rs: how one inbound message affects a client's
    topics, how a run of messages does, and which messages the read loop
    consumes before it stops. */
module Ws {
  import opened Types

  /** An inbound frame: text, carrying what JSON decoding of its body as a
      topics request yields (`None` when it does not decode), or any frame
      whose payload is not text. */
  datatype Message = Text(body: string, decoded: Option<seq<string>>) | NonText

  /** One item of the receive stream: a message, or a receive error. The end
      of the stream is the end of the sequence. */
  datatype Received = Received(msg: Message) | RecvError

  /** The heartbeat payload, with or without one trailing newline. */
  predicate IsPing(s: string)
  {
    s == "ping" || s == "ping\n"
  }

  /** The replacement topic list a message carries, if it carries one:
      non-text frames, heartbeats and undecodable bodies carry none. */
  function TopicUpdate(msg: Message): Option<seq<string>>
  {
    match msg
    case NonText => None
    case Text(body, decoded) => if IsPing(body) then None else decoded
  }

  /** Topics after one message: replaced wholesale, or kept. */
  function Apply(topics: seq<string>, msg: Message): seq<string>
  {
    match TopicUpdate(msg)
    case Some(t) => t
    case None => topics
  }

  /** Topics after a run of messages handled in arrival order. */
  function Replay(topics: seq<string>, msgs: seq<Message>): seq<string>
    decreases |msgs|
  {
    if msgs == [] then topics
    else Apply(Replay(topics, msgs[..|msgs| - 1]), msgs[|msgs| - 1])
  }

  /** A heartbeat never changes the topics. */
  lemma PingKeepsTopics(topics: seq<string>, body: string, decoded: Option<seq<string>>)
    requires IsPing(body)
    ensures Apply(topics, Text(body, decoded)) == topics
  {
  }

  /** After a run of messages, the topics are the list of the last message
      that carried an update, whatever came before it. */
  lemma {:induction false} ReplayLastUpdate(topics: seq<string>, msgs: seq<Message>, j: nat)
    requires j < |msgs| && TopicUpdate(msgs[j]).Some?
    requires forall i :: j < i < |msgs| ==> TopicUpdate(msgs[i]).None?
    ensures Replay(topics, msgs) == TopicUpdate(msgs[j]).value
    decreases |msgs|
  {
    var init := msgs[..|msgs| - 1];
    if j < |msgs| - 1 {
      assert forall i :: j < i < |init| ==> init[i] == msgs[i];
      ReplayLastUpdate(topics, init, j);
    }
  }

  /** A run of messages none of which carries an update leaves the topics as they were. */
  lemma {:induction false} ReplayWithoutUpdate(topics: seq<string>, msgs: seq<Message>)
    requires forall i :: 0 <= i < |msgs| ==> TopicUpdate(msgs[i]).None?
    ensures Replay(topics, msgs) == topics
    decreases |msgs|
  {
    if msgs != [] {
      var init := msgs[..|msgs| - 1];
      assert forall i :: 0 <= i < |init| ==> init[i] == msgs[i];
      ReplayWithoutUpdate(topics, init);
    }
  }

  /** The messages the read loop hands on: everything up to the first receive
      error or the end of the stream. Non-text messages do not stop it. */
  function Inbound(stream: seq<Received>): (msgs: seq<Message>)
    ensures |msgs| <= |stream|
    ensures forall i :: 0 <= i < |msgs| ==> stream[i] == Received(msgs[i])
    ensures |msgs| < |stream| ==> stream[|msgs|] == RecvError
  {
    if stream == [] then []
    else match stream[0]
      case RecvError => []
      case Received(m) => [m] + Inbound(stream[1..])
  }

  /** A record's entry after the read loop has handled `msgs` for token `id`;
      a token no longer in the registry is left alone. */
  function AfterMessages(clients: Clients, id: Token, msgs: seq<Message>): Clients
  {
    if id in clients then clients[id := clients[id].(topics := Replay(clients[id].topics, msgs))]
    else clients
  }

  /** Handling one more message is one more step of `AfterMessages`. */
  lemma AfterOneMore(clients: Clients, id: Token, msgs: seq<Message>, m: Message)
    ensures var before := AfterMessages(clients, id, msgs);
            AfterMessages(clients, id, msgs + [m]) ==
              if id in before && TopicUpdate(m).Some? then before[id := before[id].(topics := TopicUpdate(m).value)]
              else before
  {
    assert (msgs + [m])[..|msgs|] == msgs;
  }

  /** The read loop's view of a stream that starts with a received message. */
  lemma InboundReceived(stream: seq<Received>, i: nat)
    requires i < |stream| && stream[i].Received?
    ensures Inbound(stream[i..]) == [stream[i].msg] + Inbound(stream[i + 1..])
  {
    assert stream[i..][1..] == stream[i + 1..];
  }
}
