/** The two HTTP handlers that both gateway variants share, line for line:
    the login-status report and the send-request decision chain. */
module Handlers {
  import opened Common
  import JsonText

  // ------------------ login status ------------------

  /** The loginResp record: status, qr_file, logged_in_as, login_time and
      generated_at. An empty string or Zero stands for a field left unset. */
  datatype LoginResp = LoginResp(
    status: string,
    qrFile: string,
    loggedInAs: string,
    loginTime: Time,
    generatedAt: Time)

  /** The response of GET /login, given the library's stored identity, the
      process start time and the time of the request. The record starts out
      as "waiting" and one of the two branches always overwrites that. */
  function LoginHandler(identity: Option<Jid>, startTime: Time, now: Time): (r: LoginResp)
    ensures r.status != "waiting"
    ensures r.status == "logged_in" <==> identity.Some?
    ensures r.status == "waiting_qr" <==> identity.None?
    ensures identity.Some? ==>
      r.loggedInAs == identity.value.user && r.loginTime == startTime && r.qrFile == ""
    ensures identity.None? ==>
      r.qrFile == "qr.png" && r.loggedInAs == "" && r.loginTime == Zero
    ensures r.generatedAt == now
  {
    var resp := LoginResp("waiting", "", "", Zero, now);
    if identity.Some? then
      resp.(status := "logged_in", loggedInAs := identity.value.user, loginTime := startTime)
    else
      resp.(status := "waiting_qr", qrFile := "qr.png")
  }

  /** The members encoding/json writes for a loginResp, in field order. The
      omitempty option drops an empty string, but a time.Time is a struct,
      which encoding/json never counts as empty, so login_time is written
      whatever its value. */
  function EncodeLoginRespAsWritten(r: LoginResp): (m: seq<(string, JsonValue)>)
    ensures |m| >= 2 && m[0] == ("status", JStr(r.status)) && m[|m| - 1] == ("generated_at", JTime(r.generatedAt))
    ensures ("qr_file", JStr(r.qrFile)) in m <==> r.qrFile != ""
    ensures ("logged_in_as", JStr(r.loggedInAs)) in m <==> r.loggedInAs != ""
    ensures ("login_time", JTime(r.loginTime)) in m
  {
    [("status", JStr(r.status))]
    + (if r.qrFile != "" then [("qr_file", JStr(r.qrFile))] else [])
    + (if r.loggedInAs != "" then [("logged_in_as", JStr(r.loggedInAs))] else [])
    + [("login_time", JTime(r.loginTime))]
    + [("generated_at", JTime(r.generatedAt))]
  }

  /** The members the omitempty tags ask for: login_time is left out when it
      is the zero time, as qr_file and logged_in_as are when empty. */
  function EncodeLoginResp(r: LoginResp): (m: seq<(string, JsonValue)>)
    ensures |m| >= 2 && m[0] == ("status", JStr(r.status)) && m[|m| - 1] == ("generated_at", JTime(r.generatedAt))
    ensures ("qr_file", JStr(r.qrFile)) in m <==> r.qrFile != ""
    ensures ("logged_in_as", JStr(r.loggedInAs)) in m <==> r.loggedInAs != ""
    ensures ("login_time", JTime(r.loginTime)) in m <==> r.loginTime != Zero
  {
    [("status", JStr(r.status))]
    + (if r.qrFile != "" then [("qr_file", JStr(r.qrFile))] else [])
    + (if r.loggedInAs != "" then [("logged_in_as", JStr(r.loggedInAs))] else [])
    + (if r.loginTime != Zero then [("login_time", JTime(r.loginTime))] else [])
    + [("generated_at", JTime(r.generatedAt))]
  }

  function MemberNames(members: seq<(string, JsonValue)>): seq<string>
  {
    seq(|members|, i requires 0 <= i < |members| => members[i].0)
  }

  /** As written, a "waiting_qr" response still carries a login_time: the
      zero time. */
  lemma WaitingResponseCarriesZeroLoginTime(startTime: Time, now: Time)
    ensures ("login_time", JTime(Zero)) in EncodeLoginRespAsWritten(LoginHandler(None, startTime, now))
  {
  }

  /** With the intended encoding, a logged-out response names the QR file and
      no login, and a logged-in one names the user and the login time but no
      QR file. */
  lemma LoginResponseMembers(identity: Option<Jid>, startTime: Time, now: Time)
    ensures identity.None? ==>
      MemberNames(EncodeLoginResp(LoginHandler(identity, startTime, now)))
        == ["status", "qr_file", "generated_at"]
    ensures identity.Some? && identity.value.user != "" && startTime != Zero ==>
      MemberNames(EncodeLoginResp(LoginHandler(identity, startTime, now)))
        == ["status", "logged_in_as", "login_time", "generated_at"]
  {
  }

  // ------------------ replies ------------------

  /** What a handler writes back: http.Error with a status code and an error
      text, or a JSON-encoded map[string]string with status 200. */
  datatype Reply = ErrorReply(code: int, error: string) | JsonReply(members: map<string, string>)
  {
    function Code(): int
    {
      if ErrorReply? then code else 200
    }
  }

  /** The error body written for a send failure, as the source builds it: the
      error text is pasted between quotes without escaping. */
  function SendErrorBodyAsWritten(text: string): (body: string)
    ensures JsonText.IsPlainText(text) ==> JsonText.ReadErrorBody(body) == Some(text)
  {
    var body := "{\"error\":\"" + text + "\"}";
    if JsonText.IsPlainText(text) then
      JsonText.EscapePlain(text);
      JsonText.ReadEscaped(text, "}");
      assert body == JsonText.ErrorPrefix + (JsonText.Escape(text) + ['"'] + "}");
      body
    else
      body
  }

  /** The error body of a reply: the text as a JSON string literal. */
  function ErrorBody(text: string): (body: string)
    ensures JsonText.ReadErrorBody(body) == Some(text)
  {
    JsonText.ReadEscaped(text, "}");
    assert "{\"error\":" + JsonText.Quote(text) + "}"
      == JsonText.ErrorPrefix + (JsonText.Escape(text) + ['"'] + "}");
    "{\"error\":" + JsonText.Quote(text) + "}"
  }

  /** An error text containing a quote ends the JSON string early, so the
      body written as-is no longer reads back as an error object. */
  lemma SendErrorBodyAsWrittenBreaks()
    ensures JsonText.ReadErrorBody(SendErrorBodyAsWritten("a\"b")) == None
  {
    var body := SendErrorBodyAsWritten("a\"b");
    assert body == JsonText.ErrorPrefix + "a\"b\"}";
    assert body[|JsonText.ErrorPrefix|..] == "a\"b\"}";
    assert "a\"b\"}"[1..] == "\"b\"}";
    assert "\"b\"}"[1..] == "b\"}";
  }

  /** For a text with nothing to escape, the escaped body is the one the
      source writes. */
  lemma ErrorBodyOfPlainText(text: string)
    requires JsonText.IsPlainText(text)
    ensures ErrorBody(text) == SendErrorBodyAsWritten(text)
  {
    JsonText.EscapePlain(text);
  }

  /** The three fixed error texts of the handlers need no escaping, so the
      escaped body of each is the literal the source writes. */
  lemma FixedErrorBody(text: string)
    requires text == "POST only" || text == "bad json" || text == "invalid JID"
    ensures ErrorBody(text) == SendErrorBodyAsWritten(text)
  {
    if text == "POST only" {
      assert JsonText.IsPlainText("POST only");
    } else if text == "bad json" {
      assert JsonText.IsPlainText("bad json");
    } else {
      assert JsonText.IsPlainText("invalid JID");
    }
    ErrorBodyOfPlainText(text);
  }

  // ------------------ send ------------------

  /** The decoded body of POST /send. */
  datatype SendPayload = SendPayload(to: string, message: string)

  /** One call of the library's SendMessage: recipient and conversation text. */
  datatype SendCall = SendCall(to: Jid, text: string)

  /** What one request to /send did: the reply, whether the body was read,
      and the SendMessage call made, if any. */
  datatype SendOutcome = SendOutcome(reply: Reply, bodyRead: bool, call: Option<SendCall>)

  /** The /send decision chain. decoded is the result of decoding the body
      (None when decoding fails), parseJID is types.ParseJID (None on error)
      and sendMessage gives the error text of a SendMessage call, or None
      when it succeeds. */
  function SendHandler(
    httpMethod: string,
    decoded: Option<SendPayload>,
    parseJID: string -> Option<Jid>,
    sendMessage: SendCall -> Option<string>): (r: SendOutcome)
    // the body is read exactly for a POST
    ensures r.bodyRead <==> httpMethod == "POST"
    ensures r.reply.Code() == 405 <==> httpMethod != "POST"
    ensures httpMethod != "POST" ==> r.reply == ErrorReply(405, "POST only")
    ensures httpMethod == "POST" && decoded.None? ==> r.reply == ErrorReply(400, "bad json")
    ensures httpMethod == "POST" && decoded.Some? && parseJID(decoded.value.to).None? ==>
      r.reply == ErrorReply(400, "invalid JID")
    // a send is attempted exactly when all three checks pass, and with the
    // parsed recipient and the requested text
    ensures r.call.Some? <==>
      httpMethod == "POST" && decoded.Some? && parseJID(decoded.value.to).Some?
    ensures r.call.Some? ==>
      r.call.value == SendCall(parseJID(decoded.value.to).value, decoded.value.message)
    ensures r.reply.Code() == 400 ==> r.call.None?
    // after the send: 500 with the library's error text, or "sent"
    ensures r.reply.Code() == 500 <==> r.call.Some? && sendMessage(r.call.value).Some?
    ensures r.reply.Code() == 500 ==> r.reply.error == sendMessage(r.call.value).value
    ensures r.reply.Code() == 200 <==> r.call.Some? && sendMessage(r.call.value).None?
    ensures r.reply.Code() == 200 ==> r.reply == JsonReply(map["status" := "sent"])
  {
    if httpMethod != "POST" then
      SendOutcome(ErrorReply(405, "POST only"), false, None)
    else if decoded.None? then
      SendOutcome(ErrorReply(400, "bad json"), true, None)
    else
      var p := decoded.value;
      match parseJID(p.to)
      case None => SendOutcome(ErrorReply(400, "invalid JID"), true, None)
      case Some(jid) =>
        var call := SendCall(jid, p.message);
        match sendMessage(call)
        case Some(err) => SendOutcome(ErrorReply(500, err), true, Some(call))
        case None => SendOutcome(JsonReply(map["status" := "sent"]), true, Some(call))
  }

  /** The bodies the source writes for /send errors. The 405 and 400 ones
      are, byte for byte, the escaped bodies of their texts. The 500 body
      reads back as its error text when that text needs no escaping; for
      other texts it breaks (SendErrorBodyAsWrittenBreaks). With escaping,
      every error reply reads back as its text. */
  lemma SendHandlerErrorBodies(
    httpMethod: string,
    decoded: Option<SendPayload>,
    parseJID: string -> Option<Jid>,
    sendMessage: SendCall -> Option<string>)
    ensures var r := SendHandler(httpMethod, decoded, parseJID, sendMessage);
      r.reply.ErrorReply? ==> JsonText.ReadErrorBody(ErrorBody(r.reply.error)) == Some(r.reply.error)
    ensures var r := SendHandler(httpMethod, decoded, parseJID, sendMessage);
      r.reply.Code() == 500 && JsonText.IsPlainText(r.reply.error) ==>
        JsonText.ReadErrorBody(SendErrorBodyAsWritten(r.reply.error)) == Some(r.reply.error)
    ensures var r := SendHandler(httpMethod, decoded, parseJID, sendMessage);
      r.reply.ErrorReply? && r.reply.code != 500 ==>
        ErrorBody(r.reply.error) == SendErrorBodyAsWritten(r.reply.error)
  {
    var r := SendHandler(httpMethod, decoded, parseJID, sendMessage);
    if r.reply.ErrorReply? && r.reply.code != 500 {
      FixedErrorBody(r.reply.error);
    }
  }
}
