/**
 * The inbound-email bridge of infrastructure/lambda/email-receiver/index.ts.
 * For each received mail, the chat id is read from the first recipient
 * (`chat-<id>@…`), sender and text are extracted from the parsed mail, and
 * the message is POSTed to the chat's email endpoint. MIME parsing is an
 * oracle (`parse`), the POSTs are returned in order instead of performed,
 * and the two environment variables are parameters.
 */
module EmailReceiver {
  import opened Wrappers
  import opened Strings

  const RecipientPrefix := "chat-"
  const DefaultEndpoint := "https://chatbudi.com"
  const UnknownSender := "unknown@example.com"
  const StopRule := "STOP_RULE"

  /** One SES record: the raw mail and the receipt's recipient list. */
  datatype MailRecord = MailRecord(content: string, recipients: seq<string>)

  /** One entry of `parsed.from.value`. */
  datatype Address = Address(address: Option<string>, name: Option<string>)

  /** `parsed.html`: absent, `false` (the parser found no HTML part), or text. */
  datatype HtmlPart = NoHtmlField | HtmlFalse | Html(markup: string)

  /** The fields of the parser's result the handler reads. */
  datatype ParsedMail = ParsedMail(
    from: Option<seq<Address>>,
    text: Option<string>,
    html: HtmlPart,
    subject: Option<string>)

  datatype Env = Env(apiEndpoint: Option<string>, lambdaSecretKey: Option<string>)

  /** The POST of lines 49-60: its URL, its `X-Lambda-Key` header and its
      JSON body's three fields. */
  datatype PostRequest = PostRequest(
    url: string, lambdaKey: string, senderEmail: string, senderName: string, message: string)

  /** The characters of `[a-zA-Z0-9_-]`. */
  predicate IsIdChar(c: char) {
    ('a' <= c <= 'z') || ('A' <= c <= 'Z') || ('0' <= c <= '9') || c == '_' || c == '-'
  }

  predicate AllIdChars(s: string) {
    forall i :: 0 <= i < |s| ==> IsIdChar(s[i])
  }

  /** The longest prefix of `s` made of id characters (what the greedy `+` takes). */
  function IdRun(s: string): (r: string)
    ensures r <= s && AllIdChars(r)
    ensures r == s || !IsIdChar(s[|r|])
  {
    if s != [] && IsIdChar(s[0]) then [s[0]] + IdRun(s[1..]) else []
  }

  /** `recipient.match(/^chat-([a-zA-Z0-9_-]+)@/)?.[1]`. Since `@` is not an
      id character, the only way the pattern can match is with the longest
      run of id characters after the prefix, followed directly by `@`. */
  function ParseRecipient(recipient: string): (r: Option<string>)
    ensures r.Some? ==> |r.value| >= 1 && AllIdChars(r.value)
    ensures r.Some? ==> RecipientPrefix + r.value + "@" <= recipient
  {
    if !(RecipientPrefix <= recipient) then None
    else
      var rest := recipient[|RecipientPrefix|..];
      var id := IdRun(rest);
      if |id| >= 1 && |id| < |rest| && rest[|id|] == '@' then
        assert recipient[..|RecipientPrefix| + |id| + 1] == RecipientPrefix + id + "@";
        Some(id)
      else None
  }

  /** The id the handler extracts is exactly the one the address was built
      from, whatever the domain. */
  lemma RecipientRoundTrip(id: string, domain: string)
    requires |id| >= 1 && AllIdChars(id)
    ensures ParseRecipient(RecipientPrefix + id + "@" + domain) == Some(id)
  {
    var recipient := RecipientPrefix + id + "@" + domain;
    assert recipient[..|RecipientPrefix|] == RecipientPrefix;
    var rest := recipient[|RecipientPrefix|..];
    assert rest == id + ("@" + domain);
    IdRunOfIdPrefix(id, "@" + domain);
    assert rest[|id|] == '@';
  }

  lemma {:induction false} IdRunOfIdPrefix(id: string, tail: string)
    requires AllIdChars(id)
    requires tail == [] || !IsIdChar(tail[0])
    ensures IdRun(id + tail) == id
  {
    if id != [] {
      assert (id + tail)[1..] == id[1..] + tail;
      IdRunOfIdPrefix(id[1..], tail);
    }
  }

  /** An address that does not start with the literal, case-sensitive
      prefix never yields an id. */
  lemma OtherPrefixesRejected(recipient: string)
    requires !(RecipientPrefix <= recipient)
    ensures ParseRecipient(recipient) == None
  {
  }

  /** `parsed.from?.value[0]?.address || 'unknown@example.com'`. */
  function SenderEmail(p: ParsedMail): (r: string)
    ensures r != ""
  {
    var first := FirstAddress(p);
    if first.Some? && Filled(first.value.address) then first.value.address.value else UnknownSender
  }

  /** `parsed.from?.value[0]?.name || senderEmail.split('@')[0]`. */
  function SenderName(p: ParsedMail): (r: string)
  {
    var first := FirstAddress(p);
    if first.Some? && Filled(first.value.name) then first.value.name.value
    else BeforeFirst(SenderEmail(p), '@')
  }

  function FirstAddress(p: ParsedMail): Option<Address> {
    if p.from.Some? && p.from.value != [] then Some(p.from.value[0]) else None
  }

  /** Without a usable name, the sender is named after the local part of
      the address, and a mail without any sender is "unknown". */
  lemma SenderDefaults(p: ParsedMail)
    ensures FirstAddress(p).None? ==> SenderEmail(p) == UnknownSender && SenderName(p) == "unknown"
    ensures (FirstAddress(p).None? || !Filled(FirstAddress(p).value.name)) ==>
      SenderName(p) == BeforeFirst(SenderEmail(p), '@')
    ensures (FirstAddress(p).None? || !Filled(FirstAddress(p).value.name)) ==>
      SenderName(p) <= SenderEmail(p) && '@' !in SenderName(p)
    ensures FirstAddress(p).Some? && Filled(FirstAddress(p).value.name) ==>
      SenderName(p) == FirstAddress(p).value.name.value
  {
    if FirstAddress(p).None? {
      var u := UnknownSender;
      assert u[..7] == "unknown" && u[7] == '@';
      UnknownLocalPart();
    }
  }

  lemma UnknownLocalPart()
    ensures BeforeFirst(UnknownSender, '@') == "unknown"
  {
    var u := UnknownSender;
    assert u == "unknown" + "@example.com";
    BeforeFirstOfPrefix("unknown", "@example.com", '@');
  }

  /** Position of the first `>` in `s`. */
  function FirstClose(s: string): (k: nat)
    requires '>' in s
    ensures k < |s| && s[k] == '>' && '>' !in s[..k]
  {
    if s[0] == '>' then 0 else 1 + FirstClose(s[1..])
  }

  /** `html.replace(/<[^>]*>/g, '')`: scanning left to right, every `<` that
      has a `>` somewhere after it is removed together with everything up to
      and including the first such `>`. */
  function StripTags(s: string): (r: string)
    ensures multiset(r) <= multiset(s)
  {
    if s == [] then []
    else if s[0] == '<' && '>' in s[1..] then
      var k := FirstClose(s);
      assert s == s[..k + 1] + s[k + 1..];
      StripTags(s[k + 1..])
    else
      assert s == [s[0]] + s[1..];
      [s[0]] + StripTags(s[1..])
  }

  /** No `<` is followed, anywhere later, by a `>`: there is no tag left. */
  predicate TagFree(s: string) {
    forall i, j :: 0 <= i < j < |s| && s[i] == '<' ==> s[j] != '>'
  }

  lemma {:induction false} StripTagsRemovesEveryTag(s: string)
    ensures TagFree(StripTags(s))
    decreases |s|
  {
    if s == [] {
    } else if s[0] == '<' && '>' in s[1..] {
      var k := FirstClose(s);
      StripTagsRemovesEveryTag(s[k + 1..]);
    } else {
      var rest := StripTags(s[1..]);
      StripTagsRemovesEveryTag(s[1..]);
      if s[0] == '<' {
        assert '>' !in multiset(s[1..]);
        assert '>' !in multiset(rest);
        assert '>' !in rest;
      }
      var r := [s[0]] + rest;
      forall i, j | 0 <= i < j < |r| && r[i] == '<'
        ensures r[j] != '>'
      {
        if i == 0 {
          assert r[j] == rest[j - 1];
        } else {
          assert r[i] == rest[i - 1] && r[j] == rest[j - 1];
        }
      }
    }
  }

  /** Text before the first `<` is kept as it is. */
  lemma {:induction false} StripTagsKeepsPlainPrefix(a: string, b: string)
    requires '<' !in a
    ensures StripTags(a + b) == a + StripTags(b)
  {
    if a != [] {
      var c, rest := a[0], a[1..];
      assert a == [c] + rest;
      assert c != '<' && '<' !in rest;
      assert a + b == [c] + (rest + b);
      StripTagsCons(c, rest + b);
      StripTagsKeepsPlainPrefix(rest, b);
      assert [c] + (rest + StripTags(b)) == a + StripTags(b);
    } else {
      assert a + b == b && a + StripTags(b) == StripTags(b);
    }
  }

  lemma StripTagsCons(c: char, s: string)
    requires c != '<'
    ensures StripTags([c] + s) == [c] + StripTags(s)
  {
    assert ([c] + s)[1..] == s;
  }

  /** A complete tag is removed, and the scan goes on after its `>`. */
  lemma StripTagsDropsTag(t: string, b: string)
    requires '>' !in t
    ensures StripTags("<" + t + ">" + b) == StripTags(b)
  {
    var s := "<" + t + ">" + b;
    assert s[1..] == t + ">" + b;
    assert s[1..][|t|] == '>';
    assert s[..|t| + 1] == "<" + t;
    assert s[|t| + 1] == '>';
    assert s[|t| + 2..] == b;
  }

  /** So text outside tags survives: `a<t>b` strips to `a` followed by the
      stripped `b`. */
  lemma StripTagsDecompose(a: string, t: string, b: string)
    requires '<' !in a && '>' !in t
    ensures StripTags(a + "<" + t + ">" + b) == a + StripTags(b)
  {
    assert a + "<" + t + ">" + b == a + ("<" + t + ">" + b);
    StripTagsKeepsPlainPrefix(a, "<" + t + ">" + b);
    StripTagsDropsTag(t, b);
  }

  /** Text without tags passes through unchanged, so stripping is idempotent. */
  lemma {:induction false} StripTagsKeepsTagFree(s: string)
    requires TagFree(s)
    ensures StripTags(s) == s
  {
    if s != [] {
      if s[0] == '<' {
        forall j | 0 <= j < |s[1..]|
          ensures s[1..][j] != '>'
        {
          assert s[1..][j] == s[j + 1];
        }
      }
      assert TagFree(s[1..]) by {
        forall i, j | 0 <= i < j < |s[1..]| && s[1..][i] == '<'
          ensures s[1..][j] != '>'
        {
          assert s[i + 1] == '<';
        }
      }
      StripTagsKeepsTagFree(s[1..]);
    }
  }

  lemma StripTagsIdempotent(s: string)
    ensures StripTags(StripTags(s)) == StripTags(s)
  {
    StripTagsRemovesEveryTag(s);
    StripTagsKeepsTagFree(StripTags(s));
  }

  /** `parsed.text || parsed.html?.replace(...) || ''`. With `html === false`
      the optional call finds no `replace` method and throws a TypeError. */
  function MessageText(p: ParsedMail): (r: Option<string>)
    ensures Filled(p.text) ==> r == Some(p.text.value)
    ensures !Filled(p.text) && p.html.HtmlFalse? ==> r == None
    ensures !Filled(p.text) && p.html.NoHtmlField? ==> r == Some("")
    ensures !Filled(p.text) && p.html.Html? ==> r == Some(StripTags(p.html.markup))
  {
    if Filled(p.text) then Some(p.text.value)
    else match p.html
      case NoHtmlField => Some("")
      case HtmlFalse => None
      case Html(markup) => Some(StripTags(markup))
  }

  /** `subject ? `Subject: ${subject}\n\n${messageText}` : messageText`. */
  function MessageBody(subject: Option<string>, text: string): (r: string)
    ensures Filled(subject) ==> r == "Subject: " + subject.value + "\n\n" + text
    ensures !Filled(subject) ==> r == text
  {
    if Filled(subject) then "Subject: " + subject.value + "\n\n" + text else text
  }

  /** The email endpoint of a chat. */
  function EndpointUrl(env: Env, chatId: string): (r: string)
    ensures Filled(env.apiEndpoint) ==> r == env.apiEndpoint.value + "/api/chat/" + chatId + "/email"
    ensures !Filled(env.apiEndpoint) ==> r == DefaultEndpoint + "/api/chat/" + chatId + "/email"
  {
    OrElse(env.apiEndpoint, DefaultEndpoint) + "/api/chat/" + chatId + "/email"
  }

  /** The body of one loop iteration: the POST it makes, or `None` when it
      skips (`continue`) or throws before the call (all caught alike). */
  function RequestFor(r: MailRecord, parse: string -> Option<ParsedMail>, env: Env): Option<PostRequest> {
    var parsed := parse(r.content);
    if parsed.None? || r.recipients == [] then None
    else
      var chatId := ParseRecipient(r.recipients[0]);
      var text := MessageText(parsed.value);
      if chatId.None? || text.None? then None
      else
        var p := parsed.value;
        Some(PostRequest(
          EndpointUrl(env, chatId.value), OrElse(env.lambdaSecretKey, ""),
          SenderEmail(p), SenderName(p), Trim(MessageBody(p.subject, text.value))))
  }

  /** A POST is made exactly for a mail that parses, whose first recipient
      names a chat, and whose text can be read; it goes to that chat. */
  lemma RequestForCharacterized(r: MailRecord, parse: string -> Option<ParsedMail>, env: Env)
    ensures RequestFor(r, parse, env).Some? <==>
      && parse(r.content).Some?
      && r.recipients != []
      && ParseRecipient(r.recipients[0]).Some?
      && MessageText(parse(r.content).value).Some?
    ensures RequestFor(r, parse, env).Some? ==>
      && RequestFor(r, parse, env).value.url == EndpointUrl(env, ParseRecipient(r.recipients[0]).value)
      && IsTrimmed(RequestFor(r, parse, env).value.message)
      && RequestFor(r, parse, env).value.senderEmail != ""
    ensures RequestFor(r, parse, env).Some? ==>
      var p := parse(r.content).value;
      var q := RequestFor(r, parse, env).value;
      && q.message == Trim(MessageBody(p.subject, MessageText(p).value))
      && q.lambdaKey == OrElse(env.lambdaSecretKey, "")
      && q.senderEmail == SenderEmail(p)
      && q.senderName == SenderName(p)
  {
  }

  /** The POSTs made for a list of records, in order. */
  function RequestsFor(rs: seq<MailRecord>, parse: string -> Option<ParsedMail>, env: Env): seq<PostRequest> {
    if rs == [] then []
    else
      var last := RequestFor(rs[|rs| - 1], parse, env);
      RequestsFor(rs[..|rs| - 1], parse, env) + (if last.Some? then [last.value] else [])
  }

  /** Records are handled independently: the POSTs for a concatenation are
      those of each part, so a record that is skipped or throws does not
      affect the records after it. */
  lemma {:induction false} RequestsForAppend(a: seq<MailRecord>, b: seq<MailRecord>,
                                             parse: string -> Option<ParsedMail>, env: Env)
    ensures RequestsFor(a + b, parse, env) == RequestsFor(a, parse, env) + RequestsFor(b, parse, env)
    decreases |b|
  {
    if b == [] {
      assert a + b == a;
    } else {
      assert (a + b)[..|a + b| - 1] == a + b[..|b| - 1];
      RequestsForAppend(a, b[..|b| - 1], parse, env);
    }
  }

  lemma RequestsForSkipped(r: MailRecord, parse: string -> Option<ParsedMail>, env: Env)
    requires RequestFor(r, parse, env).None?
    ensures RequestsFor([r], parse, env) == []
  {
    assert [r][..0] == [];
  }

  lemma SkippedRecordIsInvisible(a: seq<MailRecord>, r: MailRecord, b: seq<MailRecord>,
                                 parse: string -> Option<ParsedMail>, env: Env)
    requires RequestFor(r, parse, env).None?
    ensures RequestsFor(a + [r] + b, parse, env) == RequestsFor(a, parse, env) + RequestsFor(b, parse, env)
  {
    var ar := a + [r];
    RequestsForAppend(ar, b, parse, env);
    RequestsForAppend(a, [r], parse, env);
    RequestsForSkipped(r, parse, env);
  }

  /** `handler`: every record in turn, then `{ disposition: 'STOP_RULE' }`. */
  method Handler(records: seq<MailRecord>, parse: string -> Option<ParsedMail>, env: Env)
    returns (posts: seq<PostRequest>, disposition: string)
    ensures posts == RequestsFor(records, parse, env)
    ensures disposition == StopRule
  {
    posts := [];
    for i := 0 to |records|
      invariant posts == RequestsFor(records[..i], parse, env)
    {
      assert records[..i + 1][..i] == records[..i];
      var record := records[i];
      var parsed := parse(record.content);
      if parsed.None? || record.recipients == [] {
        // simpleParser rejected, or `recipients[0].match` on undefined threw.
        continue;
      }
      var chatId := ParseRecipient(record.recipients[0]);
      if chatId.None? {
        continue;
      }
      var text := MessageText(parsed.value);
      if text.None? {
        continue;
      }
      var p := parsed.value;
      var body := MessageBody(p.subject, text.value);
      posts := posts + [PostRequest(EndpointUrl(env, chatId.value), OrElse(env.lambdaSecretKey, ""),
                                    SenderEmail(p), SenderName(p), Trim(body))];
    }
    assert records[..|records|] == records;
    disposition := StopRule;
  }
}
