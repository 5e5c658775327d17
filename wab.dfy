/** The WebSocket variant of the gateway: incoming messages are broadcast to
    every connected WebSocket subscriber. */
module WaB {
  import opened Common
  import Handlers

  /** The decision of the event handler: the payload to broadcast, or None
      when the event is dropped. Only a message from someone else is
      broadcast; an empty text is not filtered here. */
  function EventPayload(e: Event): (r: Option<Payload>)
    ensures r.Some? <==> e.MessageEvent? && !e.info.isFromMe
    ensures e.MessageEvent? && e.info.isFromMe ==> r.None?
    ensures r.Some? ==> r.value.Keys == {"from", "message", "time"}
    ensures r.Some? ==>
      && r.value["from"] == JStr(e.info.sender)
      && r.value["message"] == JStr(GetConversation(e.conversation))
      && r.value["time"] == JInt(e.info.unixTime)
  {
    match e
    case MessageEvent(info, conversation) =>
      if info.isFromMe then None
      else Some(MessagePayload(info.sender, GetConversation(conversation), info.unixTime))
    case OtherEvent(_) => None
  }

  /** A live WebSocket connection, told apart by its identity. */
  datatype Conn = Conn(id: nat)

  /** One WriteMessage call: the connection, the bytes written and whether
      the write succeeded. */
  datatype Frame = Frame(conn: Conn, data: Bytes, ok: bool)

  /** The connections written to. */
  function Recipients(frames: seq<Frame>): set<Conn>
  {
    set i | 0 <= i < |frames| :: frames[i].conn
  }

  /** No connection is written to twice. */
  predicate Distinct(frames: seq<Frame>)
  {
    forall i, j :: 0 <= i < j < |frames| ==> frames[i].conn != frames[j].conn
  }

  /** Every write carries data, and its outcome is what write reported. */
  predicate SameBytes(frames: seq<Frame>, data: Bytes, write: (Conn, Bytes) -> bool)
  {
    forall i :: 0 <= i < |frames| ==> frames[i].data == data && frames[i].ok == write(frames[i].conn, data)
  }

  /** frames is one broadcast of data to exactly the connections in members:
      each member once, every write with the same bytes, each write's
      outcome as the connection reported it. */
  predicate Delivered(frames: seq<Frame>, members: set<Conn>, data: Bytes, write: (Conn, Bytes) -> bool)
  {
    && Recipients(frames) == members
    && Distinct(frames)
    && SameBytes(frames, data, write)
  }

  /** A broadcast makes one write per member. */
  lemma {:induction false} DistinctRecipientsCount(frames: seq<Frame>)
    requires Distinct(frames)
    ensures |Recipients(frames)| == |frames|
  {
    if frames != [] {
      var init := frames[..|frames| - 1];
      var last := frames[|frames| - 1];
      assert Distinct(init);
      DistinctRecipientsCount(init);
      assert frames == init + [last];
      assert Recipients(frames) == Recipients(init) + {last.conn} by {
        assert forall i :: 0 <= i < |init| ==> init[i] == frames[i];
      }
      assert last.conn !in Recipients(init);
    }
  }

  /** Writing to one more connection, not yet written to, keeps the writes
      distinct and adds that connection to the recipients. */
  lemma AppendFrame(frames: seq<Frame>, f: Frame, data: Bytes, write: (Conn, Bytes) -> bool)
    requires Distinct(frames) && f.conn !in Recipients(frames)
    requires SameBytes(frames, data, write) && f.data == data && f.ok == write(f.conn, data)
    ensures Distinct(frames + [f])
    ensures SameBytes(frames + [f], data, write)
    ensures Recipients(frames + [f]) == Recipients(frames) + {f.conn}
  {
    var ext := frames + [f];
    assert forall i :: 0 <= i < |frames| ==> ext[i] == frames[i];
    assert ext[|frames|] == f;
  }

  /** The process state of the WebSocket variant: the library's stored
      identity, the start time and the wsClients set. */
  class Server {
    var identity: Option<Jid>
    const startTime: Time
    var clients: set<Conn>

    constructor (identity: Option<Jid>, startTime: Time)
      ensures this.identity == identity && this.startTime == startTime
      ensures clients == {}
    {
      this.identity := identity;
      this.startTime := startTime;
      clients := {};
    }

    /** The start of wssHandler: the upgraded connection joins the
        subscribers; a connection already there changes nothing. */
    method Register(c: Conn)
      modifies this`clients
      ensures clients == old(clients) + {c}
      ensures c in old(clients) ==> clients == old(clients)
    {
      clients := clients + {c};
    }

    /** The deferred end of wssHandler: the connection leaves the
        subscribers. Removing an absent connection changes nothing, so a
        second removal is a no-op. */
    method Unregister(c: Conn)
      modifies this`clients
      ensures clients == old(clients) - {c}
      ensures c !in old(clients) ==> clients == old(clients)
    {
      clients := clients - {c};
    }

    /** broadcast: serialise once, then write the same bytes to every
        subscriber present at the call. A failed write is recorded and
        ignored: the loop goes on and the subscriber stays. */
    method Broadcast(msg: Payload, marshal: Payload -> Bytes, write: (Conn, Bytes) -> bool)
      returns (frames: seq<Frame>)
      ensures Delivered(frames, clients, marshal(msg), write)
      ensures |frames| == |clients|
    {
      var data := marshal(msg);
      frames := [];
      var pending := clients;
      while pending != {}
        invariant pending <= clients
        invariant Recipients(frames) == clients - pending
        invariant Distinct(frames)
        invariant SameBytes(frames, data, write)
        decreases pending
      {
        var c :| c in pending;
        var ok := write(c, data);
        AppendFrame(frames, Frame(c, data, ok), data, write);
        frames := frames + [Frame(c, data, ok)];
        pending := pending - {c};
      }
      DistinctRecipientsCount(frames);
    }

    /** eventHandler followed by broadcast: a dropped event writes nothing;
        any other message is broadcast once, with its payload. */
    method OnEvent(e: Event, marshal: Payload -> Bytes, write: (Conn, Bytes) -> bool)
      returns (frames: seq<Frame>)
      ensures EventPayload(e).None? ==> frames == []
      ensures EventPayload(e).Some? ==> Delivered(frames, clients, marshal(EventPayload(e).value), write)
    {
      frames := [];
      match EventPayload(e)
      case Some(payload) =>
        frames := Broadcast(payload, marshal, write);
      case None =>
    }

    /** loginHandler, reading the stored identity and the start time. */
    method Login(now: Time) returns (r: Handlers.LoginResp)
      ensures r == Handlers.LoginHandler(identity, startTime, now)
    {
      r := Handlers.LoginHandler(identity, startTime, now);
    }
  }
}
