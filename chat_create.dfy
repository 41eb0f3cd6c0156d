/**
 * The in-memory chat route of src/app/api/chat/create/route.ts: `POST`
 * creates a chat from a JSON body, stores it in the shared `chats` map and
 * then "sends" invitations (the source only logs them; here they are
 * returned); `getChat` and `addMessageToChat` read and extend the same map.
 * Ids (`nanoid`), instants (`new Date()`) and the site-URL environment
 * variable are parameters.
 */
module ChatCreate {
  import opened Wrappers
  import opened Strings
  import opened Js

  type Timestamp = nat

  const TitleLength := 50
  const PreviewLength := 100
  const DefaultSiteUrl := "https://chatbudi.com"
  const CreatedMessage := "Chat created and invitations sent"
  const FailedMessage := "Failed to create chat"

  /** An entry of a stored chat's message list: the opening message `POST`
      builds, or whatever a caller later hands to `addMessageToChat`. */
  datatype Entry =
    | Opening(id: string, text: string, createdAt: Timestamp, sender: string,
              senderEmail: Value, senderName: Value)
    | Posted(payload: Value)

  /** The chat object `POST` stores. The fields taken from the body keep
      whatever JSON value the body carried. */
  datatype MemChat = MemChat(
    id: string,
    title: string,
    createdAt: Timestamp,
    emails: Value,
    includeGPT: Value,
    creatorEmail: Value,
    creatorName: Value,
    messages: seq<Entry>)

  /** The fields destructured from the request body. */
  datatype CreateFields = CreateFields(
    emails: Value, message: Value, includeGPT: Value, creatorEmail: Value, creatorName: Value)

  /** One logged invitation: recipient, inviter, message preview and link. */
  datatype Invitation = Invitation(
    to: Value, inviterName: Value, inviterEmail: Value, preview: string, chatUrl: string)

  /** `{chatId, success: true, message}` with status 200, or
      `{error}` with status 500. */
  datatype CreateResponse = Created(chatId: string) | Failed

  function Status(r: CreateResponse): nat {
    if r.Created? then 200 else 500
  }

  function ResponseBody(r: CreateResponse): Value {
    match r
    case Created(chatId) =>
      Object(map["chatId" := Str(chatId), "success" := Bool(true), "message" := Str(CreatedMessage)])
    case Failed => Object(map["error" := Str(FailedMessage)])
  }

  /** `s.substring(0, n) + (s.length > n ? '...' : '')`. */
  function Truncated(s: string, n: nat): (r: string)
    ensures |s| <= n ==> r == s
    ensures |s| > n ==> |r| == n + 3 && r[..n] == s[..n] && r[n..] == "..."
  {
    Take(s, n) + (if |s| > n then "..." else "")
  }

  /** The chat title: the first 50 characters of the opening message. */
  function Title(message: string): string {
    Truncated(message, TitleLength)
  }

  /** The invitation preview: the first 100 characters of the opening message. */
  function Preview(message: string): string {
    Truncated(message, PreviewLength)
  }

  /** A truncation never exceeds its bound by more than the ellipsis, begins
      with the text it truncates, and leaves the text as it is exactly when
      the text is short enough or already ends in an ellipsis right at the
      bound. */
  lemma TruncationBounds(s: string, n: nat)
    ensures |Truncated(s, n)| <= n + 3
    ensures Truncated(s, n)[..if |s| <= n then |s| else n] == s[..if |s| <= n then |s| else n]
    ensures Truncated(s, n) == s <==> |s| <= n || (|s| == n + 3 && s[n..] == "...")
  {
    var r := Truncated(s, n);
    if |s| > n && |s| == n + 3 && s[n..] == "..." {
      assert r == s[..n] + s[n..];
    }
  }

  lemma TitleAtMost53(message: string)
    ensures |Title(message)| <= 53
    ensures |message| <= 50 ==> Title(message) == message
  {
    TruncationBounds(message, TitleLength);
  }

  /** `const { emails, message, includeGPT, creatorEmail, creatorName } = body`
      after `await request.json()`: invalid JSON is a SyntaxError and a
      `null` body a TypeError. */
  function Destructure(body: Option<Value>): (r: Result<CreateFields, Error>)
    ensures r.Success? <==> body.Some? && !Nullish(body.value)
    ensures r.Success? ==>
      r.value.message == OptMember(body.value, "message") && r.value.emails == OptMember(body.value, "emails")
  {
    if body.None? then Failure(SyntaxError)
    else if Nullish(body.value) then Failure(TypeError)
    else Success(CreateFields(
      OptMember(body.value, "emails"), OptMember(body.value, "message"),
      OptMember(body.value, "includeGPT"), OptMember(body.value, "creatorEmail"),
      OptMember(body.value, "creatorName")))
  }

  /** The chat object of lines 14-32. `message.substring` is a TypeError
      unless `message` is a string; `emails || []` replaces a falsy list. */
  function NewChat(f: CreateFields, chatId: string, messageId: string,
                   createdAt: Timestamp, sentAt: Timestamp): (r: Result<MemChat, Error>)
    ensures r.Success? <==> f.message.Str?
    ensures r.Success? ==>
      && r.value.id == chatId
      && r.value.title == Title(f.message.s)
      && r.value.emails == Or(f.emails, Array([]))
      && r.value.includeGPT == f.includeGPT
      && r.value.creatorEmail == f.creatorEmail
      && r.value.creatorName == f.creatorName
      && r.value.messages
         == [Opening(messageId, f.message.s, sentAt, "user", f.creatorEmail, f.creatorName)]
  {
    if !f.message.Str? then Failure(TypeError)
    else
      var text := f.message.s;
      Success(MemChat(chatId, Title(text), createdAt, Or(f.emails, Array([])), f.includeGPT,
                      f.creatorEmail, f.creatorName,
                      [Opening(messageId, text, sentAt, "user", f.creatorEmail, f.creatorName)]))
  }

  /** `emails.length`: a TypeError on `null`/`undefined`. */
  function LengthOf(v: Value): (r: Result<Value, Error>)
    ensures r.Failure? <==> Nullish(v)
    ensures v.Array? ==> r == Success(Num(|v.items|))
  {
    match v
    case Array(items) => Success(Num(|items|))
    case Str(s) => Success(Num(|s|))
    case _ => Member(v, "length")
  }

  /** `n > 0` for a number, a boolean (true is 1) or a nullish value. */
  predicate Positive(v: Value) {
    match v
    case Num(n) => n > 0
    case Bool(b) => b
    case _ => false
  }

  /** Whether `emails.length > 0` holds, given that `emails` is not nullish. */
  predicate WillInvite(emails: Value)
    requires !Nullish(emails)
  {
    Positive(LengthOf(emails).value)
  }

  lemma InvitesExactlyNonEmptyLists(items: seq<Value>)
    ensures WillInvite(Array(items)) <==> items != []
  {
  }

  /** `${siteUrl}/chat/${chatId}` with `NEXT_PUBLIC_SITE_URL || 'https://chatbudi.com'`. */
  function ChatUrl(siteUrlEnv: Option<string>, chatId: string): (r: string)
    ensures Filled(siteUrlEnv) ==> r == siteUrlEnv.value + "/chat/" + chatId
    ensures !Filled(siteUrlEnv) ==> r == DefaultSiteUrl + "/chat/" + chatId
  {
    OrElse(siteUrlEnv, DefaultSiteUrl) + "/chat/" + chatId
  }

  /** The invitation `sendInvitations` logs for one recipient. */
  function InvitationTo(email: Value, chatId: string, firstMessage: string,
                        creatorName: Value, creatorEmail: Value, siteUrlEnv: Option<string>): Invitation {
    Invitation(email, creatorName, creatorEmail, Preview(firstMessage), ChatUrl(siteUrlEnv, chatId))
  }

  /** `sendInvitations`: one invitation per recipient, in list order. */
  method SendInvitations(chatId: string, emails: seq<Value>, firstMessage: string,
                         creatorName: Value, creatorEmail: Value, siteUrlEnv: Option<string>)
    returns (sent: seq<Invitation>)
    ensures |sent| == |emails|
    ensures forall i :: 0 <= i < |emails| ==>
      sent[i] == InvitationTo(emails[i], chatId, firstMessage, creatorName, creatorEmail, siteUrlEnv)
  {
    sent := [];
    for i := 0 to |emails|
      invariant |sent| == i
      invariant forall j :: 0 <= j < i ==>
        sent[j] == InvitationTo(emails[j], chatId, firstMessage, creatorName, creatorEmail, siteUrlEnv)
    {
      sent := sent + [InvitationTo(emails[i], chatId, firstMessage, creatorName, creatorEmail, siteUrlEnv)];
    }
  }

  /** `chat.messages.push(message)`. */
  function WithMessage(c: MemChat, message: Value): (r: MemChat)
    ensures r.messages == c.messages + [Posted(message)]
    ensures r.(messages := c.messages) == c
  {
    c.(messages := c.messages + [Posted(message)])
  }

  /** The shared `chats` map of `@/lib/chat-storage`. */
  class ChatStorage {
    var chats: map<string, MemChat>

    constructor ()
      ensures chats == map[]
    {
      chats := map[];
    }

    /** `POST`: store first, then invite. A failure before the store leaves
        the map as it was; a failure after it (an `emails` that is missing or
        cannot be iterated) still leaves the new chat stored. */
    method Post(body: Option<Value>, chatId: string, messageId: string,
                createdAt: Timestamp, sentAt: Timestamp, siteUrlEnv: Option<string>)
      returns (response: CreateResponse, invitations: seq<Invitation>)
      modifies this
      ensures Destructure(body).Failure? ==>
        response == Failed && invitations == [] && chats == old(chats)
      ensures Destructure(body).Success? ==>
        var f := Destructure(body).value;
        var made := NewChat(f, chatId, messageId, createdAt, sentAt);
        && (made.Failure? ==> response == Failed && invitations == [] && chats == old(chats))
        && (made.Success? ==> chats == old(chats)[chatId := made.value])
        && (made.Success? && Nullish(f.emails) ==> response == Failed && invitations == [])
        && (made.Success? && !Nullish(f.emails) && !WillInvite(f.emails) ==>
              response == Created(chatId) && invitations == [])
        && (made.Success? && !Nullish(f.emails) && WillInvite(f.emails) && !f.emails.Array? ==>
              response == Failed && invitations == [])
        && (made.Success? && f.emails.Array? && f.emails.items != [] ==>
              response == Created(chatId)
              && |invitations| == |f.emails.items|
              && forall i :: 0 <= i < |invitations| ==>
                   invitations[i] == InvitationTo(f.emails.items[i], chatId, f.message.s,
                                                  f.creatorName, f.creatorEmail, siteUrlEnv))
    {
      invitations := [];
      var fields := Destructure(body);
      if fields.Failure? {
        return Failed, [];
      }
      var f := fields.value;
      var made := NewChat(f, chatId, messageId, createdAt, sentAt);
      if made.Failure? {
        return Failed, [];
      }
      chats := chats[chatId := made.value];
      var length := LengthOf(f.emails);
      if length.Failure? {
        return Failed, [];
      }
      if Positive(length.value) {
        if !f.emails.Array? {
          // `forEach` is not a function on anything but an array.
          return Failed, [];
        }
        invitations := SendInvitations(chatId, f.emails.items, f.message.s,
                                       f.creatorName, f.creatorEmail, siteUrlEnv);
      }
      response := Created(chatId);
    }

    /** `getChat`: the stored chat, or `undefined`. */
    function GetChat(chatId: string): (r: Option<MemChat>)
      reads this
      ensures r.Some? <==> chatId in chats
      ensures r.Some? ==> r.value == chats[chatId]
    {
      if chatId in chats then Some(chats[chatId]) else None
    }

    /** `addMessageToChat`: append to a stored chat and report whether there
        was one. */
    method AddMessageToChat(chatId: string, message: Value) returns (added: bool)
      modifies this
      ensures added <==> chatId in old(chats)
      ensures added ==> chats == old(chats)[chatId := WithMessage(old(chats)[chatId], message)]
      ensures !added ==> chats == old(chats)
    {
      var chat := GetChat(chatId);
      if chat.Some? {
        chats := chats[chatId := WithMessage(chat.value, message)];
        return true;
      }
      return false;
    }
  }

  /** A chat `POST` stores opens with exactly one message, sent by the user
      as the creator, carrying the request's text. */
  lemma NewChatOpensWithCreatorMessage(f: CreateFields, chatId: string, messageId: string,
                                       createdAt: Timestamp, sentAt: Timestamp)
    requires f.message.Str?
    ensures var c := NewChat(f, chatId, messageId, createdAt, sentAt).value;
      && |c.messages| == 1
      && c.messages[0].Opening?
      && c.messages[0].sender == "user"
      && c.messages[0].text == f.message.s
      && c.messages[0].senderEmail == c.creatorEmail
      && c.messages[0].senderName == c.creatorName
      && |c.title| <= 53
  {
    TitleAtMost53(f.message.s);
  }

  /** Appending twice keeps both messages, in order, after the old ones. */
  lemma {:induction false} AppendsAccumulate(c: MemChat, m1: Value, m2: Value)
    ensures WithMessage(WithMessage(c, m1), m2).messages == c.messages + [Posted(m1), Posted(m2)]
    ensures WithMessage(WithMessage(c, m1), m2).title == c.title
  {
  }
}
