/**
 * The DynamoDB-backed chat store of src/lib/db.ts. The table is abstract
 * state: a map from chat id to the chat's metadata item. Ids (`nanoid`) and
 * instants (`new Date()`) are parameters.
 */
module ChatStore {
  import opened Wrappers
  import opened Strings

  /** An instant in milliseconds. The source stores ISO-8601 strings of one
      fixed format, which sort like the instants they denote. */
  type Timestamp = nat

  datatype Sender = FromUser | FromAi | FromEmail

  datatype Sentiment = Positive | Negative | Neutral

  datatype AiMetadata = AiMetadata(
    sentiment: Option<Sentiment>,
    actionItems: Option<seq<string>>,
    summary: Option<string>)

  /** A message as a caller hands it to `addMessage`: everything but the id. */
  datatype MessageDraft = MessageDraft(
    text: string,
    createdAt: Timestamp,
    sender: Sender,
    senderEmail: Option<string>,
    senderName: Option<string>,
    aiMetadata: Option<AiMetadata>)

  datatype Message = Message(
    id: string,
    text: string,
    createdAt: Timestamp,
    sender: Sender,
    senderEmail: Option<string>,
    senderName: Option<string>,
    aiMetadata: Option<AiMetadata>)

  datatype ActionItem = ActionItem(text: string, completed: bool, assignedTo: Option<string>)

  /** A chat as a caller hands it to `createChat`: everything but id and instants. */
  datatype ChatDraft = ChatDraft(
    title: string,
    invitedEmails: seq<string>,
    accessTokens: Option<map<string, string>>,
    includeGPT: bool,
    creatorEmail: string,
    creatorName: string,
    messages: seq<Message>,
    aiSummary: Option<string>,
    actionItems: Option<seq<ActionItem>>,
    tags: Option<seq<string>>,
    participantCount: Option<nat>)

  /** The chat metadata item. `accessTokens` is optional because `getChat`
      tests for its presence on what the table returns. */
  datatype Chat = Chat(
    id: string,
    title: string,
    createdAt: Timestamp,
    updatedAt: Timestamp,
    invitedEmails: seq<string>,
    accessTokens: Option<map<string, string>>,
    includeGPT: bool,
    creatorEmail: string,
    creatorName: string,
    messages: seq<Message>,
    aiSummary: Option<string>,
    actionItems: Option<seq<ActionItem>>,
    tags: Option<seq<string>>,
    participantCount: Option<nat>)

  /** `{...message, id}`. */
  function Stamp(d: MessageDraft, id: string): Message {
    Message(id, d.text, d.createdAt, d.sender, d.senderEmail, d.senderName, d.aiMetadata)
  }

  /** `{...chat, id, createdAt: now, updatedAt: now}`. */
  function NewChat(d: ChatDraft, id: string, now: Timestamp): Chat {
    Chat(id, d.title, now, now, d.invitedEmails, d.accessTokens, d.includeGPT,
         d.creatorEmail, d.creatorName, d.messages, d.aiSummary, d.actionItems,
         d.tags, d.participantCount)
  }

  /** The fields of a chat other than id, createdAt and updatedAt. */
  function Fields(c: Chat): ChatDraft {
    ChatDraft(c.title, c.invitedEmails, c.accessTokens, c.includeGPT, c.creatorEmail,
              c.creatorName, c.messages, c.aiSummary, c.actionItems, c.tags, c.participantCount)
  }

  /** `createChat` gives the new record the fresh id, one instant for both
      timestamps, and every other field exactly as supplied. */
  lemma NewChatKeepsFields(d: ChatDraft, id: string, now: Timestamp)
    ensures NewChat(d, id, now).id == id
    ensures NewChat(d, id, now).createdAt == NewChat(d, id, now).updatedAt == now
    ensures Fields(NewChat(d, id, now)) == d
  {
  }

  // ---------------------------------------------------------------------
  // getChat: the access check

  /** What `getChat` resolves to: `null`, a thrown 'Unauthorized', or the chat. */
  datatype Fetch = NotFound | Unauthorized | Found(chat: Chat)

  /** The access rule applied to a record that exists. `email` and `token`
      count as supplied only when present and non-empty. */
  function CheckAccess(chat: Chat, email: Option<string>, token: Option<string>): (r: Fetch)
    ensures r != NotFound
    ensures r.Found? ==> r.chat == chat
    ensures chat.accessTokens.None? ==> r.Found?
    ensures chat.accessTokens.Some? && !(Filled(email) && Filled(token)) ==> r == Unauthorized
    ensures chat.accessTokens.Some? && Filled(email) && Filled(token) ==>
              (r.Found? <==> email.value in chat.accessTokens.value
                             && chat.accessTokens.value[email.value] == token.value)
  {
    if chat.accessTokens.Some? && Filled(email) && Filled(token) then
      var tokens := chat.accessTokens.value;
      if email.value !in tokens || tokens[email.value] == "" || tokens[email.value] != token.value
      then Unauthorized
      else Found(chat)
    else if chat.accessTokens.Some? && (!Filled(email) || !Filled(token)) then
      Unauthorized
    else
      Found(chat)
  }

  /** A chat whose token map is present but empty admits no one. */
  lemma EmptyTokenMapAdmitsNoOne(chat: Chat, email: Option<string>, token: Option<string>)
    requires chat.accessTokens == Some(map[])
    ensures CheckAccess(chat, email, token) == Unauthorized
  {
  }

  // ---------------------------------------------------------------------
  // addMessage and updateChatAIInsights as pure updates of one record

  /** `SET messages = list_append(messages, [m]), updatedAt = now`. */
  function Appended(c: Chat, m: Message, now: Timestamp): (r: Chat)
    ensures |r.messages| == |c.messages| + 1
    ensures r.messages[..|c.messages|] == c.messages && r.messages[|c.messages|] == m
    ensures r.updatedAt == now
    ensures r.(messages := c.messages, updatedAt := c.updatedAt) == c
  {
    c.(messages := c.messages + [m], updatedAt := now)
  }

  /** The insights `updateChatAIInsights` receives. */
  datatype Insights = Insights(aiSummary: Option<string>, actionItems: Option<seq<ActionItem>>)

  /** One `name = :value` clause of the UpdateExpression. */
  datatype Assignment =
    | SetUpdatedAt(at: Timestamp)
    | SetAiSummary(summary: string)
    | SetActionItems(items: seq<ActionItem>)

  function Assign(c: Chat, a: Assignment): Chat {
    match a
    case SetUpdatedAt(t) => c.(updatedAt := t)
    case SetAiSummary(s) => c.(aiSummary := Some(s))
    case SetActionItems(items) => c.(actionItems := Some(items))
  }

  /** The effect of `SET a1, a2, ...` on one record: the clauses in order. */
  function AssignAll(c: Chat, updates: seq<Assignment>): Chat
    decreases |updates|
  {
    if updates == [] then c else Assign(AssignAll(c, updates[..|updates| - 1]), updates[|updates| - 1])
  }

  /** The intended effect of `updateChatAIInsights`: `updatedAt` always; the
      summary only when it is non-empty; the action items whenever they are
      given (an empty list included); nothing else. */
  function WithInsights(c: Chat, ins: Insights, now: Timestamp): (r: Chat)
    ensures r.updatedAt == now
    ensures r.aiSummary == if Filled(ins.aiSummary) then ins.aiSummary else c.aiSummary
    ensures r.actionItems == if ins.actionItems.Some? then ins.actionItems else c.actionItems
    ensures r.(updatedAt := c.updatedAt, aiSummary := c.aiSummary, actionItems := c.actionItems) == c
  {
    c.(updatedAt := now,
       aiSummary := if Filled(ins.aiSummary) then ins.aiSummary else c.aiSummary,
       actionItems := if ins.actionItems.Some? then ins.actionItems else c.actionItems)
  }

  /** Builds the clause list of `updateChatAIInsights` as the source does,
      starting from `updatedAt = :now` and pushing one clause per given field. */
  method UpdateExpression(ins: Insights, now: Timestamp) returns (updates: seq<Assignment>)
    ensures 1 <= |updates| <= 3 && updates[0] == SetUpdatedAt(now)
    ensures SetAiSummary(ins.aiSummary.GetOr("")) in updates <==> Filled(ins.aiSummary)
    ensures ins.actionItems.Some? <==> SetActionItems(ins.actionItems.GetOr([])) in updates
    ensures forall c: Chat :: AssignAll(c, updates) == WithInsights(c, ins, now)
  {
    updates := [SetUpdatedAt(now)];
    ghost var first := updates;
    if Filled(ins.aiSummary) {
      updates := updates + [SetAiSummary(ins.aiSummary.value)];
    }
    ghost var second := updates;
    if ins.actionItems.Some? {
      updates := updates + [SetActionItems(ins.actionItems.value)];
    }
    forall c: Chat ensures AssignAll(c, updates) == WithInsights(c, ins, now) {
      AssignAllPush(c, [], SetUpdatedAt(now));
      assert [] + [SetUpdatedAt(now)] == first;
      if Filled(ins.aiSummary) {
        AssignAllPush(c, first, SetAiSummary(ins.aiSummary.value));
      }
      if ins.actionItems.Some? {
        AssignAllPush(c, second, SetActionItems(ins.actionItems.value));
      }
    }
  }

  lemma AssignAllPush(c: Chat, updates: seq<Assignment>, a: Assignment)
    ensures AssignAll(c, updates + [a]) == Assign(AssignAll(c, updates), a)
  {
    assert (updates + [a])[..|updates|] == updates;
  }

  // ---------------------------------------------------------------------
  // getUserChats and searchChats

  /** Most recent first, by creation instant (the index's sort key). */
  ghost predicate NewestFirst(cs: seq<Chat>) {
    forall i, j :: 0 <= i < j < |cs| ==> cs[i].createdAt >= cs[j].createdAt
  }

  /** `cs` lists, newest first, every chat of `items` created by `email`, each once. */
  ghost predicate ListsUserChats(items: map<string, Chat>, email: string, cs: seq<Chat>) {
    && NewestFirst(cs)
    && forall c :: multiset(cs)[c] == if c in items.Values && c.creatorEmail == email then 1 else 0
  }

  /** Where `c` goes in a newest-first list: before the first chat that is not newer. */
  function InsertionPoint(c: Chat, cs: seq<Chat>): (k: nat)
    ensures k <= |cs|
    ensures forall i :: 0 <= i < k ==> cs[i].createdAt > c.createdAt
    ensures k < |cs| ==> cs[k].createdAt <= c.createdAt
  {
    if cs == [] || cs[0].createdAt <= c.createdAt then 0 else 1 + InsertionPoint(c, cs[1..])
  }

  /** Inserting into a newest-first list keeps it newest first and adds exactly `c`. */
  function InsertNewestFirst(c: Chat, cs: seq<Chat>): (r: seq<Chat>)
    ensures multiset(r) == multiset(cs) + multiset{c}
    ensures NewestFirst(cs) ==> NewestFirst(r)
  {
    var k := InsertionPoint(c, cs);
    assert cs == cs[..k] + cs[k..];
    var r := cs[..k] + [c] + cs[k..];
    assert NewestFirst(cs) ==> NewestFirst(r) by {
      if NewestFirst(cs) {
        InsertionKeepsOrder(c, cs, k, r);
      }
    }
    r
  }

  lemma InsertionKeepsOrder(c: Chat, cs: seq<Chat>, k: nat, r: seq<Chat>)
    requires NewestFirst(cs) && k <= |cs| && r == cs[..k] + [c] + cs[k..]
    requires forall i :: 0 <= i < k ==> cs[i].createdAt > c.createdAt
    requires k < |cs| ==> cs[k].createdAt <= c.createdAt
    ensures NewestFirst(r)
  {
    forall i, j | 0 <= i < j < |r| ensures r[i].createdAt >= r[j].createdAt {
      if j < k {
        assert r[i] == cs[i] && r[j] == cs[j];
      } else if j == k {
        assert r[i] == cs[i] && r[j] == c;
      } else if i < k {
        assert r[i] == cs[i] && r[j] == cs[j - 1];
      } else if i == k {
        assert r[i] == c && r[j] == cs[j - 1];
        assert cs[k].createdAt >= cs[j - 1].createdAt;
      } else {
        assert r[i] == cs[i - 1] && r[j] == cs[j - 1];
      }
    }
  }

  /** `chat.title` or some message text contains `keyword`, ignoring case. */
  predicate ChatMatches(keyword: string, c: Chat) {
    var k := Lower(keyword);
    Contains(Lower(c.title), k) || exists m :: m in c.messages && Contains(Lower(m.text), k)
  }

  /** Matching depends on the keyword only up to case. */
  lemma ChatMatchesIgnoresCase(keyword: string, c: Chat)
    ensures ChatMatches(Lower(keyword), c) == ChatMatches(keyword, c)
  {
    LowerIdempotent(keyword);
  }

  /** `r` is `s` with some elements left out, the rest in their order. */
  ghost predicate SubsequenceOf<T>(r: seq<T>, s: seq<T>)
    decreases |s|
  {
    if r == [] then true
    else if s == [] then false
    else if r[0] == s[0] then SubsequenceOf(r[1..], s[1..])
    else SubsequenceOf(r, s[1..])
  }

  lemma {:induction false} SubsequenceMembers<T>(r: seq<T>, s: seq<T>)
    requires SubsequenceOf(r, s)
    ensures forall x :: x in r ==> x in s
    decreases |s|
  {
    if r != [] {
      if r[0] == s[0] {
        SubsequenceMembers(r[1..], s[1..]);
        assert forall x :: x in r ==> x == r[0] || x in r[1..];
      } else {
        SubsequenceMembers(r, s[1..]);
      }
    }
  }

  /** Leaving chats out of a newest-first list keeps it newest first. */
  lemma {:induction false} SubsequenceKeepsOrder(r: seq<Chat>, s: seq<Chat>)
    requires SubsequenceOf(r, s) && NewestFirst(s)
    ensures NewestFirst(r)
    decreases |s|
  {
    if r != [] {
      assert NewestFirst(s[1..]);
      if r[0] == s[0] {
        SubsequenceKeepsOrder(r[1..], s[1..]);
        SubsequenceMembers(r[1..], s[1..]);
        forall j | 0 < j < |r| ensures r[0].createdAt >= r[j].createdAt {
          assert r[j] in r[1..];
          var m :| 0 <= m < |s[1..]| && s[1..][m] == r[j];
          assert s[m + 1] == r[j];
        }
      } else {
        SubsequenceKeepsOrder(r, s[1..]);
      }
    }
  }

  /** `userChats.filter(chat => ChatMatches(keyword, chat))`. */
  function MatchingChats(keyword: string, cs: seq<Chat>): (r: seq<Chat>)
    ensures forall c :: multiset(r)[c] == if ChatMatches(keyword, c) then multiset(cs)[c] else 0
    ensures SubsequenceOf(r, cs)
  {
    if cs == [] then []
    else
      var rest := MatchingChats(keyword, cs[1..]);
      assert cs == [cs[0]] + cs[1..];
      if ChatMatches(keyword, cs[0]) then [cs[0]] + rest else rest
  }

  // ---------------------------------------------------------------------
  // The table

  class ChatTable {
    /** The metadata items, keyed by chat id (the item's `pk` is `CHAT#<id>`). */
    var items: map<string, Chat>

    /** Every item is stored under its own id. */
    ghost predicate Valid()
      reads this
    {
      forall id :: id in items ==> items[id].id == id
    }

    constructor ()
      ensures Valid() && items == map[]
    {
      items := map[];
    }

    /** `createChat`: a Put of the new record under the given id. */
    method CreateChat(d: ChatDraft, chatId: string, now: Timestamp) returns (c: Chat)
      requires Valid()
      modifies this
      ensures Valid()
      ensures c == NewChat(d, chatId, now)
      ensures items == old(items)[chatId := c]
    {
      c := NewChat(d, chatId, now);
      items := items[chatId := c];
    }

    /** `getChat`: `null` when there is no record, otherwise the access rule. */
    function GetChat(chatId: string, email: Option<string>, token: Option<string>): (r: Fetch)
      reads this
      ensures r == NotFound <==> chatId !in items
      ensures r.Found? ==> r.chat == items[chatId]
      ensures chatId in items ==> r == CheckAccess(items[chatId], email, token)
    {
      if chatId !in items then NotFound else CheckAccess(items[chatId], email, token)
    }

    /** `addMessage` on an existing chat: appends exactly one message, the
        payload with the fresh id, and returns that message. */
    method AddMessage(chatId: string, d: MessageDraft, messageId: string, now: Timestamp)
      returns (m: Message)
      requires Valid() && chatId in items
      modifies this
      ensures Valid()
      ensures m == Stamp(d, messageId)
      ensures items == old(items)[chatId := Appended(old(items)[chatId], m, now)]
    {
      m := Stamp(d, messageId);
      items := items[chatId := Appended(items[chatId], m, now)];
    }

    /** `updateChatAIInsights` on an existing chat. */
    method UpdateChatAIInsights(chatId: string, ins: Insights, now: Timestamp)
      requires Valid() && chatId in items
      modifies this
      ensures Valid()
      ensures items == old(items)[chatId := WithInsights(old(items)[chatId], ins, now)]
    {
      var updates := UpdateExpression(ins, now);
      items := items[chatId := AssignAll(items[chatId], updates)];
    }

    /** `getUserChats`: the query on the creator index, newest first. */
    method GetUserChats(email: string) returns (cs: seq<Chat>)
      requires Valid()
      ensures ListsUserChats(items, email, cs)
    {
      var todo := items.Keys;
      cs := [];
      while todo != {}
        invariant todo <= items.Keys
        invariant NewestFirst(cs)
        invariant forall c :: multiset(cs)[c] ==
                                (if c.id in items && c.id !in todo && items[c.id] == c && c.creatorEmail == email then 1 else 0)
        decreases todo
      {
        var k :| k in todo;
        var x := items[k];
        todo := todo - {k};
        if x.creatorEmail == email {
          assert multiset(cs)[x] == 0;
          cs := InsertNewestFirst(x, cs);
        }
      }
      forall c ensures multiset(cs)[c] == if c in items.Values && c.creatorEmail == email then 1 else 0 {
        if c in items.Values {
          var k :| k in items && items[k] == c;
          assert c.id == k;
        }
      }
    }

    /** `searchChats`: the creator's chats, newest first, whose title or a
        message contains the keyword regardless of case. */
    method SearchChats(keyword: string, email: string) returns (r: seq<Chat>, ghost userChats: seq<Chat>)
      requires Valid()
      ensures ListsUserChats(items, email, userChats)
      ensures r == MatchingChats(keyword, userChats)
      ensures NewestFirst(r)
      ensures forall c :: multiset(r)[c] ==
                            (if c in items.Values && c.creatorEmail == email && ChatMatches(keyword, c) then 1 else 0)
    {
      var listing := GetUserChats(email);
      r := MatchingChats(keyword, listing);
      userChats := listing;
      SubsequenceKeepsOrder(r, listing);
    }
  }
}
