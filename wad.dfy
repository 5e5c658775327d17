/** The webhook variant of the gateway: incoming messages are posted to one
    webhook URL, which POST /webhook sets. */
module WaD {
  import opened Common
  import Handlers
  import WaB

  /** The decision of the event handler: the payload to push, or None when
      the event is dropped. Besides own messages, this variant also drops a
      message whose text is empty or unset. */
  function EventPayload(e: Event): (r: Option<Payload>)
    ensures r.Some? <==> e.MessageEvent? && !e.info.isFromMe && GetConversation(e.conversation) != ""
    ensures e.MessageEvent? && e.info.isFromMe ==> r.None?
    ensures e.MessageEvent? && GetConversation(e.conversation) == "" ==> r.None?
    ensures r.Some? ==> r.value.Keys == {"from", "message", "time"}
    ensures r.Some? ==>
      && r.value["from"] == JStr(e.info.sender)
      && r.value["message"] == JStr(GetConversation(e.conversation))
      && r.value["time"] == JInt(e.info.unixTime)
  {
    match e
    case MessageEvent(info, conversation) =>
      if info.isFromMe then None
      else
        var text := GetConversation(conversation);
        if text == "" then None
        else Some(MessagePayload(info.sender, text, info.unixTime))
    case OtherEvent(_) => None
  }

  /** The two variants differ only in the empty-text filter: where this one
      forwards a message, the WebSocket variant broadcasts the same payload,
      and this one drops exactly the messages the other drops plus those
      with empty text. */
  lemma EventPayloadRefinesWaB(e: Event)
    ensures EventPayload(e) ==
      if e.MessageEvent? && GetConversation(e.conversation) == "" then None else WaB.EventPayload(e)
  {
  }

  /** One http.Post call: URL, content type and body. */
  datatype Post = Post(url: string, contentType: string, body: Bytes)

  /** The process state of the webhook variant: the library's stored
      identity, the start time and the one webhookURL slot. */
  class Server {
    var identity: Option<Jid>
    const startTime: Time
    var webhookURL: string

    constructor (identity: Option<Jid>, startTime: Time)
      ensures this.identity == identity && this.startTime == startTime
      ensures webhookURL == ""
    {
      this.identity := identity;
      this.startTime := startTime;
      webhookURL := "";
    }

    /** webhookHandler. decoded is the body decoded as a JSON string, None
        when decoding fails. A POST stores the decoded string in the single
        slot, replacing what was there (last write wins); a failed decode
        stores "", which turns the webhook off. The reply echoes the stored
        URL. Any other method is refused and stores nothing. */
    method WebhookHandler(httpMethod: string, decoded: Option<string>) returns (reply: Handlers.Reply)
      modifies this`webhookURL
      ensures httpMethod != "POST" ==>
        reply == Handlers.ErrorReply(405, "POST only") && webhookURL == old(webhookURL)
      ensures httpMethod == "POST" && decoded.Some? ==> webhookURL == decoded.value
      ensures httpMethod == "POST" && decoded.None? ==> webhookURL == ""
      ensures httpMethod == "POST" ==> reply == Handlers.JsonReply(map["webhook" := webhookURL])
    {
      if httpMethod != "POST" {
        reply := Handlers.ErrorReply(405, "POST only");
        return;
      }
      var body := "";
      if decoded.Some? {
        body := decoded.value;
      }
      webhookURL := body;
      reply := Handlers.JsonReply(map["webhook" := webhookURL]);
    }

    /** pushWebhook: nothing when no URL is stored; otherwise exactly one POST
        of the serialised payload to the URL stored at that moment, with no
        retry and the URL left as it is. */
    method PushWebhook(payload: Payload, marshal: Payload -> Bytes) returns (post: Option<Post>)
      ensures post.None? <==> webhookURL == ""
      ensures post.Some? ==> post.value == Post(webhookURL, "application/json", marshal(payload))
    {
      if webhookURL == "" {
        return None;
      }
      var body := marshal(payload);
      post := Some(Post(webhookURL, "application/json", body));
    }

    /** eventHandler followed by pushWebhook: a dropped event posts nothing;
        any other message is posted once, when a URL is stored. */
    method OnEvent(e: Event, marshal: Payload -> Bytes) returns (post: Option<Post>)
      ensures EventPayload(e).None? ==> post.None?
      ensures post.Some? <==> EventPayload(e).Some? && webhookURL != ""
      ensures post.Some? ==>
        post.value == Post(webhookURL, "application/json", marshal(EventPayload(e).value))
    {
      post := None;
      match EventPayload(e)
      case Some(payload) =>
        post := PushWebhook(payload, marshal);
      case None =>
    }

    /** loginHandler, reading the stored identity and the start time. The
        same code appears in both programs, so this repeats WaB.Server.Login
        on purpose: each reads its own program's state. */
    method Login(now: Time) returns (r: Handlers.LoginResp)
      ensures r == Handlers.LoginHandler(identity, startTime, now)
    {
      r := Handlers.LoginHandler(identity, startTime, now);
    }
  }
}
