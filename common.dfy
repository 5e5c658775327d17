/** Values shared by both gateway variants: the messaging library's identity
    and time values, the events it delivers, and the payload built from a
    message event. */
module Common {

  datatype Option<+T> = None | Some(value: T)

  /** A protocol address (the library's types.JID); the gateway reads only its
      user part. */
  datatype Jid = Jid(user: string, server: string)

  /** A time.Time value: Zero is Go's zero time, At is any other instant,
      which the model does not interpret. */
  datatype Time = Zero | At(instant: int)

  /** The part of an incoming message's info that the gateway reads:
      IsFromMe, Sender.String() and Timestamp.Unix(). */
  datatype MessageInfo = MessageInfo(isFromMe: bool, sender: string, unixTime: int)

  /** An event handed to the registered event handler: a *events.Message with
      its optional Conversation text, or an event of any other type. */
  datatype Event =
    | MessageEvent(info: MessageInfo, conversation: Option<string>)
    | OtherEvent(kind: string)

  /** Message.GetConversation(): the text, or "" when the field is unset. */
  function GetConversation(conversation: Option<string>): string
  {
    match conversation
    case Some(text) => text
    case None => ""
  }

  /** The values a payload map may hold. */
  datatype JsonValue = JStr(s: string) | JInt(n: int) | JTime(t: Time)

  /** A map[string]interface{} handed to the JSON encoder. */
  type Payload = map<string, JsonValue>

  /** The map literal built for one incoming message: three members. */
  function MessagePayload(from: string, text: string, unixTime: int): (p: Payload)
    ensures |p| == 3
  {
    var p := map["from" := JStr(from), "message" := JStr(text), "time" := JInt(unixTime)];
    assert p.Keys == {"from", "message", "time"};
    p
  }

  /** The payload loses nothing: sender, text and time can be read back from
      it, so two messages that differ in any of them give different
      payloads. */
  lemma MessagePayloadInjective(from: string, text: string, unixTime: int,
                                from': string, text': string, unixTime': int)
    requires MessagePayload(from, text, unixTime) == MessagePayload(from', text', unixTime')
    ensures from == from' && text == text' && unixTime == unixTime'
  {
    var p, p' := MessagePayload(from, text, unixTime), MessagePayload(from', text', unixTime');
    assert p["from"] == p'["from"] && p["message"] == p'["message"] && p["time"] == p'["time"];
  }

  newtype byte = x: int | 0 <= x < 256

  /** Serialised bytes, as produced by json.Marshal. */
  type Bytes = seq<byte>
}
