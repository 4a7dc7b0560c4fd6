/**
 * Notifications received from the broker and the status messages the client
 * publishes back: the delivered/read/replied classification of the current
 * client and the reply default of the two older clients.
 */
module Messages {
  import opened Common

  /** A JSON object as published with `json.dumps`. */
  type Payload = map<string, Json>

  /** A decoded notification; each field is `message.get(...)`, so `null` when missing. */
  datatype Notification = Notification(id: Json, sender: Json, content: Json)

  datatype Status = Delivered | Read | Replied

  function StatusText(s: Status): string
  {
    match s
    case Delivered => "delivered"
    case Read => "read"
    case Replied => "replied"
  }

  lemma StatusTextInjective(a: Status, b: Status)
    ensures StatusText(a) == StatusText(b) <==> a == b
  {
    if a != b {
      assert StatusText(a)[0] != StatusText(b)[0] || StatusText(a)[2] != StatusText(b)[2];
    }
  }

  /** `send_status_update`: exactly `notification_id` and `status`. */
  function StatusUpdate(id: Json, status: Status): (p: Payload)
    ensures p.Keys == {"notification_id", "status"}
    ensures p["notification_id"] == id && p["status"] == JString(StatusText(status))
  {
    map["notification_id" := id, "status" := JString(StatusText(status))]
  }

  /** `send_response` of the current client: id, reply (possibly `null`) and status. */
  function Response(id: Json, userResponse: Option<string>, status: Status): (p: Payload)
    ensures p.Keys == {"notification_id", "user_response", "status"}
    ensures p["notification_id"] == id && p["status"] == JString(StatusText(status))
    ensures p["user_response"] == JNull <==> userResponse == None
    ensures userResponse.Some? ==> p["user_response"] == JString(userResponse.value)
  {
    map["notification_id" := id, "user_response" := OptionalStringJson(userResponse),
        "status" := JString(StatusText(status))]
  }

  /** `send_response` of the two older clients: two keys and no status field. */
  function LegacyResponse(id: Json, userResponse: string): (p: Payload)
    ensures p.Keys == {"notification_id", "user_response"}
    ensures "status" !in p
    ensures p["notification_id"] == id && p["user_response"] == JString(userResponse)
  {
    map["notification_id" := id, "user_response" := JString(userResponse)]
  }

  /** Python's `str.isspace` for one character (the characters `str.strip()` removes). */
  predicate IsSpace(c: char)
  {
    || ('\t' <= c <= '\r')
    || ('\U{1C}' <= c <= ' ')
    || c == '\U{85}' || c == '\U{A0}' || c == '\U{1680}'
    || ('\U{2000}' <= c <= '\U{200A}')
    || c == '\U{2028}' || c == '\U{2029}' || c == '\U{202F}' || c == '\U{205F}' || c == '\U{3000}'
  }

  predicate AllSpace(s: string)
  {
    forall i :: 0 <= i < |s| ==> IsSpace(s[i])
  }

  /** Drops leading whitespace: what is dropped is all whitespace, and what is kept starts with a non-space. */
  function TrimStart(s: string): (r: string)
    ensures |r| <= |s| && r == s[|s| - |r|..]
    ensures AllSpace(s[..|s| - |r|])
    ensures r != [] ==> !IsSpace(r[0])
  {
    if s != [] && IsSpace(s[0]) then
      var r := TrimStart(s[1..]);
      TrimStartStep(s, r);
      r
    else s
  }

  /** A suffix of `s[1..]` after a leading space is a suffix of `s`, with one more space dropped. */
  lemma TrimStartStep(s: string, r: string)
    requires s != [] && IsSpace(s[0])
    requires |r| <= |s| - 1 && r == s[1..][|s| - 1 - |r|..] && AllSpace(s[1..][..|s| - 1 - |r|])
    ensures r == s[|s| - |r|..] && AllSpace(s[..|s| - |r|])
  {
    assert s[..|s| - |r|] == [s[0]] + s[1..][..|s| - 1 - |r|];
  }

  /** Drops trailing whitespace: what is dropped is all whitespace, and what is kept ends with a non-space. */
  function TrimEnd(s: string): (r: string)
    ensures |r| <= |s| && r == s[..|r|]
    ensures AllSpace(s[|r|..])
    ensures r != [] ==> !IsSpace(r[|r| - 1])
  {
    if s != [] && IsSpace(s[|s| - 1]) then
      var r := TrimEnd(s[..|s| - 1]);
      TrimEndStep(s, r);
      r
    else s
  }

  /** A prefix of `s` without its trailing space is a prefix of `s`, with one more space dropped. */
  lemma TrimEndStep(s: string, r: string)
    requires s != [] && IsSpace(s[|s| - 1])
    requires |r| <= |s| - 1 && r == s[..|s| - 1][..|r|] && AllSpace(s[..|s| - 1][|r|..])
    ensures r == s[..|r|] && AllSpace(s[|r|..])
  {
    assert s[|r|..] == s[..|s| - 1][|r|..] + [s[|s| - 1]];
  }

  /**
   * `str.strip()`: the input with a whitespace-only prefix and suffix removed,
   * starting and ending with a non-space unless empty.
   */
  function Strip(s: string): (r: string)
    ensures OuterTrimOf(s, r)
    ensures r != [] ==> !IsSpace(r[0]) && !IsSpace(r[|r| - 1])
  {
    var t := TrimStart(s);
    StripIsOuterTrim(s, t, TrimEnd(t));
    TrimEnd(t)
  }

  /** `r` is `s` with a whitespace-only prefix and suffix removed. */
  ghost predicate OuterTrimOf(s: string, r: string)
  {
    exists i :: 0 <= i <= |s| - |r| && r == s[i..i + |r|] && AllSpace(s[..i]) && AllSpace(s[i + |r|..])
  }

  /** The slice `Strip` keeps, with the whitespace on either side of it. */
  lemma StripIsOuterTrim(s: string, t: string, r: string)
    requires |t| <= |s| && t == s[|s| - |t|..] && AllSpace(s[..|s| - |t|])
    requires |r| <= |t| && r == t[..|r|] && AllSpace(t[|r|..])
    ensures OuterTrimOf(s, r)
  {
    var i := |s| - |t|;
    assert r == s[i..i + |r|];
    assert s[i + |r|..] == t[|r|..];
  }

  /** `s.strip()` is empty exactly when every character of `s` is whitespace. */
  lemma StripEmptyIffAllSpace(s: string)
    ensures Strip(s) == [] <==> AllSpace(s)
  {
    var t := TrimStart(s);
    if Strip(s) == [] {
      assert AllSpace(t[0..]);
      assert t == [] && s[..|s|] == s;
    }
  }

  /** The acknowledgement the current client sends: a status and an optional reply. */
  datatype Ack = Ack(status: Status, userResponse: Option<string>)

  /**
   * `acknowledge_message` of the current client: a reply with a non-whitespace
   * character is `replied` and carried verbatim (unstripped); an empty or
   * whitespace-only reply is `read` with no reply text.
   */
  function Acknowledge(reply: string): (a: Ack)
    ensures a.status == Replied <==> !AllSpace(reply)
    ensures a.status == Replied ==> a.userResponse == Some(reply) && reply != []
    ensures a.status != Replied ==> a == Ack(Read, None)
  {
    StripEmptyIffAllSpace(reply);
    if Strip(reply) != [] then Ack(Replied, Some(reply)) else Ack(Read, None)
  }

  /** The message `acknowledge_message` publishes through `send_response`. */
  function AcknowledgePayload(id: Json, reply: string): (p: Payload)
    ensures p.Keys == {"notification_id", "user_response", "status"}
    ensures p["notification_id"] == id
    ensures p["status"] == JString("replied") <==> !AllSpace(reply)
    ensures p["status"] == JString("replied") ==> p["user_response"] == JString(reply)
    ensures p["status"] != JString("replied") ==>
              p["status"] == JString("read") && p["user_response"] == JNull
  {
    var a := Acknowledge(reply);
    StatusTextInjective(a.status, Replied);
    Response(id, a.userResponse, a.status)
  }

  /** The reply `reply_entry.get() or "Acknowledged"` of the two older clients. */
  function LegacyReply(entry: string): (r: string)
    ensures r != []
    ensures entry != [] ==> r == entry
    ensures entry == [] ==> r == "Acknowledged"
  {
    if entry == [] then "Acknowledged" else entry
  }

  /**
   * The two clients disagree on whitespace-only replies: the older ones send the
   * text verbatim, the current one reports `read` with no text.
   */
  lemma WhitespaceReplyDiffers(entry: string)
    requires entry != [] && AllSpace(entry)
    ensures LegacyReply(entry) == entry
    ensures Acknowledge(entry) == Ack(Read, None)
  {
  }
}
