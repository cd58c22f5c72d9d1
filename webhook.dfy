/**
 * The chat backend's request handlers: which Stream webhook events get an AI
 * reply and where it goes, the reply sent when the language model fails, the
 * user record sent with a Stream token, and the channel a chat clear targets.
 *
 * The signature check, the JSON decoder, the language model and the Stream
 * channel operations are parameters.
 */
module Webhook {
  import opened Wrappers
  import opened Text
  import opened Codecs
  import opened JsonData

  const BotUserId := "FinStackAI"

  /** What the webhook handler does with a request. */
  datatype WebhookOutcome =
    | Unauthorized                                                 // HTTP 401
    | Ignored                                                      // `{"received": True}`, nothing sent
    | Replied(channelType: string, channelId: string, text: string)  // message sent, then `{"received": True}`
    | Raised                                                       // the handler raised: HTTP 500

  /** `cid.split(":", 1)` unpacked into two names, None when `cid` has no colon. */
  function SplitCid(cid: string): (r: Option<(string, string)>)
    ensures r.None? <==> !Contains(cid, ':')
    ensures r.Some? ==> !Contains(r.value.0, ':') && r.value.0 + ":" + r.value.1 == cid
  {
    if |cid| == 0 then None
    else if cid[0] == ':' then Some(("", cid[1..]))
    else match SplitCid(cid[1..])
      case None => None
      case Some((kind, id)) => Some(([cid[0]] + kind, id))
  }

  /** Splitting undoes joining a colon-free channel type to a channel id. */
  lemma {:induction false} SplitCidJoined(kind: string, id: string)
    requires !Contains(kind, ':')
    ensures SplitCid(kind + ":" + id) == Some((kind, id))
  {
    var cid := kind + ":" + id;
    if |kind| > 0 {
      assert !Contains(kind[1..], ':');
      SplitCidJoined(kind[1..], id);
      assert cid[1..] == kind[1..] + ":" + id;
      assert cid[0] == kind[0] != ':';
      assert [kind[0]] + kind[1..] == kind;
    } else {
      assert cid[1..] == id;
    }
  }

  const FallbackPrefix := "I had trouble reaching the AI engine just now, but I did receive your message:\n\n"

  /** The reply when the language model call fails: the apology, then the user's text. */
  function FallbackReply(text: string): string {
    FallbackPrefix + text
  }

  /** The fallback carries the user's text unchanged after the fixed apology. */
  lemma FallbackEchoes(text: string)
    ensures StartsWith(FallbackReply(text), FallbackPrefix)
    ensures FallbackReply(text)[|FallbackPrefix|..] == text
  {
  }

  /** The reply text: the model's answer stripped, or the fallback when the call raises. */
  function ReplyText(text: string, complete: string -> Option<string>): string {
    match complete(text)
    case Some(answer) => Strip(answer)
    case None => FallbackReply(text)
  }

  /** `stream_webhook` */
  function HandleWebhook(body: seq<Byte>, signature: Option<string>, verify: (seq<Byte>, string) -> bool,
                         parse: seq<Byte> -> Option<Json>, complete: string -> Option<string>): WebhookOutcome
  {
    if signature.None? || signature.value == "" || !verify(body, signature.value) then Unauthorized
    else match parse(body)
      case None => Raised
      case Some(payload) =>
        if !payload.Obj? then Raised
        else
          var p := payload.members;
          if Get(p, "type", Null) != Str("message.new") then Ignored
          else
            var message := Or(Get(p, "message", Obj(map[])), Obj(map[]));
            if !message.Obj? then Raised
            else
              var m := message.members;
              var user := Or(Get(m, "user", Obj(map[])), Obj(map[]));
              if !user.Obj? then Raised
              else
                var userId := Get(user.members, "id", Null);
                var rawText := Or(Get(m, "text", Null), Str(""));
                if !rawText.Str? then Raised
                else
                  var text := Strip(rawText.s);
                  var cid := Get(p, "cid", Null);
                  if userId == Str(BotUserId) then Ignored
                  else if Get(m, "type", Null) != Str("regular") then Ignored
                  else if !(Truthy(cid) && text != "" && Truthy(userId)) then Ignored
                  else if !cid.Str? then Raised
                  else match SplitCid(cid.s)
                    case None => Raised
                    case Some((channelType, channelId)) =>
                      Replied(channelType, channelId, ReplyText(text, complete))
  }

  /** A request whose signature header is missing, empty or invalid is refused before
      its body is read. */
  lemma UnsignedRefused(body: seq<Byte>, signature: Option<string>, verify: (seq<Byte>, string) -> bool,
                        parse: seq<Byte> -> Option<Json>, complete: string -> Option<string>)
    ensures HandleWebhook(body, signature, verify, parse, complete) == Unauthorized
            <==> signature.None? || signature.value == "" || !verify(body, signature.value)
  {
  }

  /** The conditions under which a decoded event gets a reply, each as the handler reads
      it: a new, regular, non-empty message from a user other than the bot, in a
      channel named `type:id`. */
  predicate Answerable(p: map<string, Json>) {
    && Get(p, "type", Null) == Str("message.new")
    && "message" in p && p["message"].Obj? && var m := p["message"].members;
    && "user" in m && m["user"].Obj? && var userId := Get(m["user"].members, "id", Null);
    && "text" in m && m["text"].Str? && !IsBlank(m["text"].s)
    && Get(m, "type", Null) == Str("regular")
    && userId != Str(BotUserId) && Truthy(userId)
    && "cid" in p && p["cid"].Str? && Contains(p["cid"].s, ':')
  }

  /** An authorised event is answered exactly when it is answerable, and the answer goes
      to the channel its `cid` names; the bot's own messages are never answered. */
  lemma RepliesExactlyWhenAnswerable(body: seq<Byte>, signature: Option<string>,
                                     verify: (seq<Byte>, string) -> bool, payload: map<string, Json>,
                                     complete: string -> Option<string>)
    requires signature.Some? && signature.value != "" && verify(body, signature.value)
    ensures var r := HandleWebhook(body, signature, verify, _ => Some(Obj(payload)), complete);
            (r.Replied? <==> Answerable(payload))
            && (r.Replied? ==> r.channelType + ":" + r.channelId == payload["cid"].s
                               && !Contains(r.channelType, ':')
                               && r.text == ReplyText(Strip(payload["message"].members["text"].s), complete))
            && ("message" in payload && payload["message"].Obj? && "user" in payload["message"].members
                && payload["message"].members["user"].Obj?
                && Get(payload["message"].members["user"].members, "id", Null) == Str(BotUserId)
                ==> !r.Replied?)
  {
    var r := HandleWebhook(body, signature, verify, _ => Some(Obj(payload)), complete);
    if "message" in payload && payload["message"].Obj? {
      var m := payload["message"].members;
      if "text" in m && m["text"].Str? {
        StripEmpty(m["text"].s);
      }
    }
  }

  /** A failed model call still answers with the user's text. */
  lemma FailedModelStillAnswers(text: string, complete: string -> Option<string>)
    requires complete(text).None?
    ensures ReplyText(text, complete)[|FallbackPrefix|..] == text
  {
  }

  // ---------------------------------------------------------------------------
  // Stream token and chat clearing

  /** `get_stream_token`'s user record: the id, then the name and the image when given
      and non-empty. */
  method StreamUser(userId: string, name: Option<string>, image: Option<string>) returns (user: map<string, string>)
    ensures "id" in user && user["id"] == userId
    ensures "name" in user <==> name.Some? && name.value != ""
    ensures "name" in user ==> user["name"] == name.value
    ensures "image" in user <==> image.Some? && image.value != ""
    ensures "image" in user ==> user["image"] == image.value
    ensures forall key :: key in user ==> key == "id" || key == "name" || key == "image"
  {
    user := map["id" := userId];
    if name.Some? && name.value != "" {
      user := user["name" := name.value];
    }
    if image.Some? && image.value != "" {
      user := user["image" := image.value];
    }
  }

  /** The support channel of a user. */
  function SupportChannel(userId: string): string {
    "support-" + userId
  }

  /** Users have distinct support channels, and a webhook event from a user's support
      channel is answered in that channel. */
  lemma SupportChannels(u: string, v: string)
    ensures SupportChannel(u) == SupportChannel(v) ==> u == v
    ensures SplitCid("messaging:" + SupportChannel(u)) == Some(("messaging", SupportChannel(u)))
  {
    if SupportChannel(u) == SupportChannel(v) {
      assert u == SupportChannel(u)[8..] && v == SupportChannel(v)[8..];
    }
    assert !Contains("messaging", ':');
    SplitCidJoined("messaging", SupportChannel(u));
    assert "messaging:" + SupportChannel(u) == "messaging" + ":" + SupportChannel(u);
  }

  datatype ClearOutcome = Cleared | ClearFailed(error: string)

  /** `clear_chat`: truncates the user's support channel of type `messaging`;
      `truncate` answers None on success, else the text of the exception. */
  function ClearChat(userId: string, truncate: (string, string) -> Option<string>): ClearOutcome {
    match truncate("messaging", SupportChannel(userId))
    case None => Cleared
    case Some(error) => ClearFailed(error)
  }

  /** Clearing succeeds exactly when truncating the user's support channel does, and any
      failure is reported rather than raised. */
  lemma ClearChatTargetsSupportChannel(userId: string, truncate: (string, string) -> Option<string>)
    ensures ClearChat(userId, truncate) == Cleared <==> truncate("messaging", "support-" + userId).None?
    ensures ClearChat(userId, truncate).ClearFailed? ==>
              ClearChat(userId, truncate).error == truncate("messaging", "support-" + userId).value
  {
  }
}
