/** The SSE binding: one nullable `sseTransport` slot that `GET /sse`
    overwrites with a new transport and that `POST /messages` forwards to,
    answering 400 while the slot is still empty. The slot is never cleared.

    The history of requests is the specification: `Inbox(history, n)` is what
    the n-th transport ever created has been handed, and the class keeps each
    transport's received messages equal to it. */
module Sse {

  /** The response stream of one `GET /sse` request, an opaque handle. */
  type StreamId = nat

  /** The two routes, in the order their requests arrive. */
  datatype Request = Subscribe(stream: StreamId) | Post(message: string)

  /** The answer to a `POST /messages`: handed to the transport, or refused. */
  datatype PostReply = Forwarded | Rejected(status: int, body: string)

  const MessagesPath := "/messages"
  const NotEstablished := "SSE connection not established"

  /** How many transports the history has created. */
  function Sessions(history: seq<Request>): nat
  {
    if history == [] then 0
    else Sessions(history[..|history| - 1]) + (if history[|history| - 1].Subscribe? then 1 else 0)
  }

  /** The answer to a POST that arrives after `history`. */
  function ReplyAfter(history: seq<Request>): PostReply
  {
    if Sessions(history) == 0 then Rejected(400, NotEstablished) else Forwarded
  }

  /** The answers to the POSTs of the history, in order. */
  function Replies(history: seq<Request>): seq<PostReply>
  {
    if history == [] then []
    else
      var prior := history[..|history| - 1];
      match history[|history| - 1]
      case Subscribe(_) => Replies(prior)
      case Post(_) => Replies(prior) + [ReplyAfter(prior)]
  }

  /** The messages handed to the n-th transport created (counting from 0):
      those posted while it was the newest. */
  function Inbox(history: seq<Request>, n: nat): seq<string>
  {
    if history == [] then []
    else
      var prior := history[..|history| - 1];
      match history[|history| - 1]
      case Subscribe(_) => Inbox(prior, n)
      case Post(m) => if Sessions(prior) == n + 1 then Inbox(prior, n) + [m] else Inbox(prior, n)
  }

  /** A transport not yet created has been handed nothing. */
  lemma {:induction false} InboxOfUnopened(history: seq<Request>, n: nat)
    requires n >= Sessions(history)
    ensures Inbox(history, n) == []
  {
    if history != [] {
      InboxOfUnopened(history[..|history| - 1], n);
    }
  }

  /** Requests only ever add transports. */
  lemma {:induction false} SessionsGrow(history: seq<Request>, later: seq<Request>)
    ensures Sessions(history + later) >= Sessions(history)
  {
    if later != [] {
      var h := history + later;
      assert h[..|h| - 1] == history + later[..|later| - 1];
      SessionsGrow(history, later[..|later| - 1]);
    } else {
      assert history + later == history;
    }
  }

  /** The slot is never reset: once a `GET /sse` has arrived, every later
      POST is forwarded. */
  lemma NeverCleared(history: seq<Request>, later: seq<Request>)
    requires Sessions(history) > 0
    ensures ReplyAfter(history + later) == Forwarded
  {
    SessionsGrow(history, later);
  }

  /** Before any `GET /sse`, every POST is answered 400 and nothing is
      handed to any transport. */
  lemma {:induction false} RejectedUntilSubscribe(history: seq<Request>, n: nat)
    requires forall i :: 0 <= i < |history| ==> history[i].Post?
    ensures Sessions(history) == 0
    ensures forall i :: 0 <= i < |Replies(history)| ==> Replies(history)[i] == Rejected(400, NotEstablished)
    ensures |Replies(history)| == |history|
    ensures Inbox(history, n) == []
  {
    if history != [] {
      var prior := history[..|history| - 1];
      RejectedUntilSubscribe(prior, n);
    }
  }

  /** A transport that has been replaced by a newer one receives nothing
      more, whatever follows. */
  lemma {:induction false} ReplacedTransportStarves(history: seq<Request>, later: seq<Request>, n: nat)
    requires n + 1 < Sessions(history)
    ensures Inbox(history + later, n) == Inbox(history, n)
  {
    if later != [] {
      var h := history + later;
      var prior := later[..|later| - 1];
      assert h[..|h| - 1] == history + prior;
      ReplacedTransportStarves(history, prior, n);
      SessionsGrow(history, prior);
    } else {
      assert history + later == history;
    }
  }

  /** The posts of a list of messages, in order. */
  function Posts(messages: seq<string>): (posts: seq<Request>)
    ensures |posts| == |messages|
    ensures forall i :: 0 <= i < |messages| ==> posts[i] == Post(messages[i])
  {
    if messages == [] then [] else Posts(messages[..|messages| - 1]) + [Post(messages[|messages| - 1])]
  }

  /** After a `GET /sse`, the POSTs that follow all go, in order, to the
      transport it created, and to no other. The POSTs are written with
      `Posts` above. */
  lemma {:induction false} NewestReceives(history: seq<Request>, stream: StreamId, messages: seq<string>, n: nat)
    ensures Sessions(history + [Subscribe(stream)] + Posts(messages)) == Sessions(history) + 1
    ensures Inbox(history + [Subscribe(stream)] + Posts(messages), Sessions(history)) == messages
    ensures n != Sessions(history) ==>
      Inbox(history + [Subscribe(stream)] + Posts(messages), n) == Inbox(history, n)
  {
    var started := history + [Subscribe(stream)];
    assert started[..|started| - 1] == history;
    InboxOfUnopened(history, Sessions(history));
    if messages != [] {
      var init := messages[..|messages| - 1];
      NewestReceives(history, stream, init, n);
      var h := started + Posts(messages);
      assert h[..|h| - 1] == started + Posts(init);
      assert messages == init + [messages[|messages| - 1]];
    } else {
      assert started + Posts(messages) == started;
    }
  }

  /** How many POSTs were forwarded. */
  function ForwardedCount(replies: seq<PostReply>): nat
  {
    if replies == [] then 0
    else ForwardedCount(replies[..|replies| - 1]) + (if replies[|replies| - 1].Forwarded? then 1 else 0)
  }

  /** The number of messages handed to the first k transports. */
  function Delivered(history: seq<Request>, k: nat): nat
  {
    if k == 0 then 0 else Delivered(history, k - 1) + |Inbox(history, k - 1)|
  }

  /** Two histories whose first k transports received the same messages
      deliver the same number of messages to them. */
  lemma {:induction false} DeliveredSame(h1: seq<Request>, h2: seq<Request>, k: nat)
    requires forall n :: 0 <= n < k ==> Inbox(h1, n) == Inbox(h2, n)
    ensures Delivered(h1, k) == Delivered(h2, k)
  {
    if k > 0 {
      DeliveredSame(h1, h2, k - 1);
    }
  }

  /** Every forwarded POST reaches exactly one transport: the messages handed
      to all transports together are as many as the POSTs forwarded. Each
      step compares the inboxes before and after one request with
      `DeliveredSame`. */
  lemma {:induction false} DeliveredExactlyOnce(history: seq<Request>)
    ensures Delivered(history, Sessions(history)) == ForwardedCount(Replies(history))
  {
    if history != [] {
      var prior := history[..|history| - 1];
      var s := Sessions(prior);
      DeliveredExactlyOnce(prior);
      match history[|history| - 1]
      case Subscribe(_) =>
        DeliveredSame(history, prior, s);
        InboxOfUnopened(prior, s);
      case Post(m) =>
        var replies := Replies(history);
        assert replies[..|replies| - 1] == Replies(prior);
        if s == 0 {
          DeliveredSame(history, prior, 0);
        } else {
          DeliveredSame(history, prior, s - 1);
        }
    }
  }

  /** An `SSEServerTransport`: the endpoint it advertises, the stream it
      writes to and the messages `handlePostMessage` has been handed. */
  class SseTransport {
    const endpoint: string
    const stream: StreamId
    var received: seq<string>

    constructor (endpoint: string, stream: StreamId)
      ensures this.endpoint == endpoint && this.stream == stream && received == []
    {
      this.endpoint := endpoint;
      this.stream := stream;
      received := [];
    }

    /** `handlePostMessage(req, res)`, reduced to the message it accepts. */
    method HandlePostMessage(message: string)
      modifies this
      ensures received == old(received) + [message]
    {
      received := received + [message];
    }
  }

  /** The Express app of the SSE binding and its `sseTransport` slot. */
  class SseServer {
    var sseTransport: SseTransport?
    ghost var history: seq<Request>
    ghost var transports: seq<SseTransport>

    /** The slot holds the newest transport ever created, or nothing before
        the first; each transport has been handed exactly its inbox. */
    ghost predicate Valid()
      reads this, transports
    {
      |transports| == Sessions(history) &&
      (sseTransport == null <==> transports == []) &&
      (transports != [] ==> sseTransport == transports[|transports| - 1]) &&
      (forall i, j :: 0 <= i < j < |transports| ==> transports[i] != transports[j]) &&
      (forall n :: 0 <= n < |transports| ==>
         transports[n].endpoint == MessagesPath && transports[n].received == Inbox(history, n))
    }

    /** `let sseTransport = null` */
    constructor ()
      ensures Valid()
      ensures sseTransport == null && history == [] && transports == []
    {
      sseTransport := null;
      history := [];
      transports := [];
    }

    /** `app.get("/sse")`: a new transport on the request's stream replaces
        whatever the slot held. */
    method GetSse(stream: StreamId) returns (t: SseTransport)
      requires Valid()
      modifies this
      ensures Valid() && fresh(t)
      ensures sseTransport == t && t.stream == stream && t.endpoint == MessagesPath && t.received == []
      ensures history == old(history) + [Subscribe(stream)]
      ensures transports == old(transports) + [t]
    {
      t := new SseTransport(MessagesPath, stream);
      sseTransport := t;
      InboxOfUnopened(history, Sessions(history));
      history := history + [Subscribe(stream)];
      transports := transports + [t];
      assert history[..|history| - 1] == old(history);
    }

    /** `app.post("/messages")`: forward to the transport in the slot, or
        answer 400 "SSE connection not established" when it is empty. */
    method PostMessages(message: string) returns (reply: PostReply)
      requires Valid()
      modifies this, transports
      ensures Valid()
      ensures reply == ReplyAfter(old(history))
      ensures history == old(history) + [Post(message)]
      ensures transports == old(transports) && sseTransport == old(sseTransport)
      ensures reply.Rejected? <==> old(sseTransport) == null
      ensures reply.Rejected? ==> transports == []
      ensures reply.Forwarded? ==>
        sseTransport != null && sseTransport.received == old(sseTransport.received) + [message] &&
        forall t :: t in transports && t != sseTransport ==> t.received == old(t.received)
    {
      if sseTransport != null {
        sseTransport.HandlePostMessage(message);
        reply := Forwarded;
      } else {
        reply := Rejected(400, NotEstablished);
      }
      history := history + [Post(message)];
      assert history[..|history| - 1] == old(history);
    }
  }
}
