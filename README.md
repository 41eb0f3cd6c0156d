# BlendChat core, modelled in Dafny

BlendChat is a group chat where people and an AI assistant share a conversation. Invitations go out by email, and mail replies flow back into the chat. This project models the rules at its core and proves properties about them:

- **Chat store** (`src/lib/db.ts`). The DynamoDB table is a class holding a map from chat id to chat. The model covers:
  - creating a chat;
  - the three-way `getChat` access check (not found, unauthorized, found);
  - appending a message;
  - the insight update, built clause by clause as the source builds its UpdateExpression;
  - the creator's chats, newest first;
  - the case-insensitive, order-preserving keyword search.
- **In-memory chat route** (`src/app/api/chat/create/route.ts`). The shared `chats` map is a class field.
  - `POST` parses and destructures the body, builds the title and the opening message, stores the chat, and only then "sends" invitations. The invitations are returned rather than logged.
  - `addMessageToChat` appends to an existing chat.
- **AI helpers** (`src/lib/ai-enhanced.ts`):
  - keyword sentiment;
  - action-item extraction over an abstract list of regex captures;
  - the last-ten-messages context of the smart reply;
  - the defaults and fallback of the conversation analysis.
- **Inbound email** (`infrastructure/lambda/email-receiver/index.ts`). The model covers:
  - the per-record loop;
  - the `chat-<id>@` recipient rule;
  - sender defaults;
  - HTML tag stripping;
  - the `Subject:` body;
  - the POST each record produces.
- **Completion proxies** (`infrastructure/lambda/chat/index.ts`, `index.js` and `src/app/api/chat/route.ts`). The model covers:
  - the method check;
  - input defaults;
  - the `[system, ...history, user]` message list;
  - how each service outcome maps to a 405, 200 or 500 response.
- **Demo authentication** (`src/lib/data.ts`, `src/lib/auth.ts`, `src/app/auth/actions.ts`). The model covers:
  - the fixtures;
  - the session cookie jar and its round trip;
  - the login, signup and logout decisions.

Ids (`nanoid`), instants (`new Date()`) and environment variables are parameters. The completion service, `JSON.parse`, the MIME parser, the regex matcher and zod's email check are oracles: function-typed parameters. JavaScript values read from JSON are the `Js.Value` datatype. Its truthiness, `?.`, `??`, `||` and the TypeError of reading a member of `null` or `undefined` are spelled out in full.

A few behaviours of the source are worth stating:

- **Email receiver: empty text plus `html === false` drops the record.** The parser reports a missing HTML part as `false`. So for a mail whose plain text is empty, `parsed.html?.replace(...)` throws, and the record is skipped (`EmailReceiver.MessageText`).
- **The two Lambdas read the reply differently.** The TypeScript Lambda passes any non-nullish content through (`?? ''`). The JavaScript Lambda replaces every falsy content by `''` (`ChatLambdaJs.ContentDiffersOnZero`).
- **The request context.** The TypeScript Lambda fails with 500 on an event without an HTTP request context. The JavaScript Lambda treats such an event as a POST (`ChatLambdaJs.MissingContextProceeds`).
- **The streaming route takes defaults only for absent fields.** An explicit `null` or `''` is sent upstream as given (`ChatRoute.EmptyFieldsAreKept`).
- **The route checks the API key before it spreads the history.** So a missing key is reported even when the history could not be spread (`ChatRoute.KeyCheckPrecedesSpread`).

## Model

| member | source | states |
|---|---|---|
| ChatStore.NewChatKeepsFields | src/lib/db.ts:44-53 | a new chat has the given id, `createdAt == updatedAt == now`, and every other field exactly as supplied |
| ChatStore.ChatTable.CreateChat | src/lib/db.ts:44-67 | the table afterwards is the old table plus the new record under its id, and the returned chat is that record |
| ChatStore.CheckAccess | src/lib/db.ts:86-98 | for an existing record: no token map admits anyone. A token map with email or token missing or empty is Unauthorized. With both supplied, access holds iff the map has the email and its token equals the given one |
| ChatStore.EmptyTokenMapAdmitsNoOne | src/lib/db.ts:89-96 | a chat whose token map is present but empty is Unauthorized for every email and token |
| ChatStore.ChatTable.GetChat | src/lib/db.ts:73-99 | NotFound exactly when no record exists; otherwise the access check on that record, and a found chat is the stored one |
| ChatStore.Appended | src/lib/db.ts:112-124 | the message list grows by exactly one message at the end, the old messages are kept as a prefix, `updatedAt` is now, and nothing else changes |
| ChatStore.ChatTable.AddMessage | src/lib/db.ts:104-127 | returns the payload with the fresh id and replaces only that chat by its appended version |
| ChatStore.WithInsights | src/lib/db.ts:136-149 | `updatedAt` is always set; the summary changes iff a non-empty one is given; the action items change iff given; nothing else changes |
| ChatStore.UpdateExpression | src/lib/db.ts:136-149 | the pushed clause list starts with `updatedAt = :now`, holds the summary clause iff the summary is truthy and the items clause iff items are given, and applying it to any chat gives `WithInsights` |
| ChatStore.ChatTable.UpdateChatAIInsights | src/lib/db.ts:132-160 | only the named chat changes, and it becomes `WithInsights` of its old value |
| ChatStore.InsertNewestFirst | src/lib/db.ts:173 | inserting into a newest-first list adds exactly that chat and keeps the list newest first |
| ChatStore.ChatTable.GetUserChats | src/lib/db.ts:165-177 | for a single unpaginated, consistent read of the index: the result lists every chat created by that email exactly once, nothing else, newest first |
| ChatStore.MatchingChats | src/lib/db.ts:187-190 | the filter keeps exactly the matching chats with their multiplicities, as a subsequence of its input |
| ChatStore.SubsequenceKeepsOrder | src/lib/db.ts:187-190 | filtering a newest-first list leaves it newest first |
| ChatStore.ChatMatchesIgnoresCase | src/lib/db.ts:188-189 | whether a chat matches does not depend on the keyword's letter case |
| ChatStore.ChatTable.SearchChats | src/lib/db.ts:182-191 | the result is the filter of the creator's listing, newest first, holding each of the creator's chats whose title or some message contains the keyword, case-insensitively, once |
| AiEnhanced.Occurring | src/lib/ai-enhanced.ts:175-176 | the filtered keywords are exactly the listed ones contained in the text, with no duplicates when the list has none |
| AiEnhanced.AnalyzeSentiment | src/lib/ai-enhanced.ts:166-181 | positive iff more positive than negative keywords occur, negative iff more negative, neutral iff the counts are equal |
| AiEnhanced.SentimentCountsDistinctKeywords | src/lib/ai-enhanced.ts:170-176 | each count is the number of distinct keywords present, at most 9, however often each one repeats |
| AiEnhanced.NeutralWithoutKeywords | src/lib/ai-enhanced.ts:173-180 | a text that contains none of the eighteen keywords is neutral |
| AiEnhanced.EmptyTextIsNeutral | src/lib/ai-enhanced.ts:173-180 | the empty text is neutral |
| AiEnhanced.SentimentIgnoresCase | src/lib/ai-enhanced.ts:173 | lower-casing the text first does not change the verdict |
| AiEnhanced.KeptItems | src/lib/ai-enhanced.ts:198-202 | one item per non-empty capture, every item trimmed, and items from captures without `.`, `!` or `?` contain none either |
| AiEnhanced.CollectCaptures | src/lib/ai-enhanced.ts:198-202 | the inner loop appends the trimmed non-empty captures, in order, to the items so far |
| AiEnhanced.ExtractActionItems | src/lib/ai-enhanced.ts:186-206 | the result is the kept captures of the commitment pattern, then of the action-item pattern, then of the todo pattern |
| AiEnhanced.GroupedByPattern | src/lib/ai-enhanced.ts:188-192 | the grouping over the three patterns is the three groups concatenated in source order |
| AiEnhanced.ActionItemsClean | src/lib/ai-enhanced.ts:189-200 | when every capture is a non-empty match of `[^.!?]+`, every capture yields one trimmed item with no sentence terminator |
| AiEnhanced.Lines | src/lib/ai-enhanced.ts:103-106 | one `name: text` line per message, in order, with 'User' for a missing name |
| AiEnhanced.RecentWindow | src/lib/ai-enhanced.ts:103-104 | the window is the last `min(10, n)` messages |
| AiEnhanced.ContextIsTranscriptTail | src/lib/ai-enhanced.ts:103-106 | up to ten messages give the whole transcript; beyond that, the transcript of the last ten |
| AiEnhanced.ReplyContent | src/lib/ai-enhanced.ts:148-153 | a network failure is a TypeError, a non-ok status raises 'OpenAI API error: ' + statusText, otherwise the `choices[0].message.content` chain |
| AiEnhanced.GenerateSmartReply | src/lib/ai-enhanced.ts:99-161 | without a key, the apology and no call; otherwise the content of the answer, or the apology on any failure |
| AiEnhanced.SmartReplyWithoutKeyIgnoresService | src/lib/ai-enhanced.ts:109-113 | without a key the reply is the same whatever the service would answer |
| AiEnhanced.WithDefaults | src/lib/ai-enhanced.ts:74-81 | a nullish parse result throws. Otherwise each of summary, actionItems, sentiment, keyTopics and suggestedReplies is kept when truthy and becomes its default otherwise: 'No summary available', [], 'neutral', [] and []. `detectedMeetings` is passed through |
| AiEnhanced.AnalyzeConversation | src/lib/ai-enhanced.ts:26-94 | every field but `detectedMeetings` is truthy. A network or status failure gives the fallback. A successful analysis is returned as it is, and any failure of the try block gives the fallback |
| AiEnhanced.FallbackShape | src/lib/ai-enhanced.ts:86-92 | the fallback's summary, neutral sentiment, empty items and topics, and three replies |
| OpenAi.Conversation | infrastructure/lambda/chat/index.ts:39-43 | `[system] ++ history ++ [user prompt]`: length plus two, system first, user last, the history in between |
| ChatCreate.Truncated | src/app/api/chat/create/route.ts:16 | the text itself when it fits; otherwise the first n characters and '...' |
| ChatCreate.TruncationBounds | src/app/api/chat/create/route.ts:16 | at most n+3 characters; starts with the text's first n; equals the text iff it fits or already ends in '...' exactly at the bound |
| ChatCreate.TitleAtMost53 | src/app/api/chat/create/route.ts:16 | the title has at most 53 characters and is the message itself when the message has at most 50 |
| ChatCreate.Destructure | src/app/api/chat/create/route.ts:7-8 | invalid JSON and a `null` body throw; otherwise the five fields are the body's members |
| ChatCreate.NewChat | src/app/api/chat/create/route.ts:14-32 | succeeds iff the message is a string; then the id, title, `emails \|\| []`, the creator fields and a single opening message are as given |
| ChatCreate.NewChatOpensWithCreatorMessage | src/app/api/chat/create/route.ts:22-31 | the new chat has exactly one message, sent by 'user', carrying the text and the creator's email and name |
| ChatCreate.LengthOf | src/app/api/chat/create/route.ts:38 | `emails.length` throws exactly on a missing `emails` and is the element count of an array |
| ChatCreate.InvitesExactlyNonEmptyLists | src/app/api/chat/create/route.ts:38-40 | an array of recipients triggers invitations iff it is non-empty |
| ChatCreate.ChatUrl | src/app/api/chat/create/route.ts:64-65 | `<site>/chat/<id>`, with 'https://chatbudi.com' when the site URL is unset or empty |
| ChatCreate.SendInvitations | src/app/api/chat/create/route.ts:56-78 | one invitation per recipient, in order, each with the 100-character preview and the chat link |
| ChatCreate.WithMessage | src/app/api/chat/create/route.ts:115 | the message list grows by the one message at the end and nothing else changes |
| ChatCreate.ChatStorage.Post | src/app/api/chat/create/route.ts:5-54 | failures before the store leave the map unchanged and answer 500. Otherwise the chat is stored under its id, even when a later `emails.length` or `forEach` throws and the answer is 500. Invitations are sent only for a non-empty array, and success answers with the chat id |
| ChatCreate.ChatStorage.GetChat | src/app/api/chat/create/route.ts:107-109 | the stored chat, or nothing when the id is unknown |
| ChatCreate.ChatStorage.AddMessageToChat | src/app/api/chat/create/route.ts:112-120 | true iff the chat exists; then only that chat gains the message at the end; otherwise the map is unchanged |
| ChatCreate.AppendsAccumulate | src/app/api/chat/create/route.ts:115-116 | two appends keep both messages, in order, after the old ones |
| EmailReceiver.IdRun | infrastructure/lambda/email-receiver/index.ts:24 | the greedy run of `[a-zA-Z0-9_-]` characters at the start of the text |
| EmailReceiver.ParseRecipient | infrastructure/lambda/email-receiver/index.ts:23-31 | an id is returned only if the recipient starts with 'chat-' + id + '@', with a non-empty id of id characters |
| EmailReceiver.RecipientRoundTrip | infrastructure/lambda/email-receiver/index.ts:24-31 | the id parsed from `chat-<id>@<domain>` is `<id>`, for every valid id and any domain |
| EmailReceiver.OtherPrefixesRejected | infrastructure/lambda/email-receiver/index.ts:24-29 | a recipient not starting with the case-sensitive 'chat-' yields no id |
| EmailReceiver.SenderEmail | infrastructure/lambda/email-receiver/index.ts:32 | never empty: the first sender's address, or 'unknown@example.com' |
| EmailReceiver.SenderDefaults | infrastructure/lambda/email-receiver/index.ts:32-33 | without a sender the email is 'unknown@example.com' and the name 'unknown'. Without a name, the name is exactly the part of the email before its first '@', so a prefix of it with no '@'. A non-empty name is used as given |
| EmailReceiver.StripTags | infrastructure/lambda/email-receiver/index.ts:34 | removing tags only removes characters |
| EmailReceiver.StripTagsKeepsPlainPrefix | infrastructure/lambda/email-receiver/index.ts:34 | text before the first '<' is kept unchanged |
| EmailReceiver.StripTagsDropsTag | infrastructure/lambda/email-receiver/index.ts:34 | a leading complete tag `<t>` is removed and nothing else is |
| EmailReceiver.StripTagsDecompose | infrastructure/lambda/email-receiver/index.ts:34 | `a<t>b`, with no '<' in `a` and no '>' in `t`, strips to `a` followed by the stripped `b` |
| EmailReceiver.StripTagsRemovesEveryTag | infrastructure/lambda/email-receiver/index.ts:34 | no '<' in the result is followed by a '>' |
| EmailReceiver.StripTagsIdempotent | infrastructure/lambda/email-receiver/index.ts:34 | stripping twice is stripping once |
| EmailReceiver.MessageText | infrastructure/lambda/email-receiver/index.ts:34 | the plain text if non-empty; else the stripped HTML, '' when there is no HTML field, and a throw when it is `false` |
| EmailReceiver.MessageBody | infrastructure/lambda/email-receiver/index.ts:38 | 'Subject: ' + subject + blank line + text when the subject is non-empty, else the text |
| EmailReceiver.EndpointUrl | infrastructure/lambda/email-receiver/index.ts:49 | `<API_ENDPOINT>/api/chat/<id>/email`, with 'https://chatbudi.com' by default |
| EmailReceiver.RequestForCharacterized | infrastructure/lambda/email-receiver/index.ts:19-60 | a record is POSTed iff it parses, has a first recipient naming a chat, and has readable text. The POST goes to that chat's endpoint. It carries the lambda key or '', the sender's email and name, and the trimmed subject-and-text body |
| EmailReceiver.RequestsForAppend | infrastructure/lambda/email-receiver/index.ts:10-70 | the POSTs for two batches of records are those of each batch, in order |
| EmailReceiver.SkippedRecordIsInvisible | infrastructure/lambda/email-receiver/index.ts:26-29 | a skipped or failing record changes nothing for the records around it |
| EmailReceiver.Handler | infrastructure/lambda/email-receiver/index.ts:7-73 | the POSTs made are exactly those of the records in order, and the disposition is 'STOP_RULE' |
| ChatProxy.LambdaHeaders | infrastructure/lambda/chat/index.ts:47-60 | the 200 and 500 carry JSON content type and `Access-Control-Allow-Origin: *`; the 405 carries no headers |
| ChatProxy.LambdaBody | infrastructure/lambda/chat/index.ts:31-59 | 'Method Not Allowed', `{reply}`, or `{error: message}` for an error the code raised |
| ChatProxy.ModelName | infrastructure/lambda/chat/index.ts:7 | OPENAI_MODEL when set and non-empty, else 'gpt-4o-mini' |
| ChatProxy.CompletionRequest | infrastructure/lambda/chat/index.ts:10-17 | Bearer key, model, temperature 0.6, and messages `[system] ++ history ++ [user prompt]`, system first and user last |
| ChatProxy.UpstreamError | infrastructure/lambda/chat/index.ts:20 | the message is 'OpenAI error ', then decimal digits that read back as the status, then ': ' and the upstream text |
| Strings.NatToStringRoundTrip | infrastructure/lambda/chat/index.ts:20 | the decimal rendering of a number reads back as that number |
| ChatProxy.LambdaInputs | infrastructure/lambda/chat/index.ts:34-37 | no body gives the defaults. Invalid JSON and `null` throw. A non-array history becomes []. A truthy system or prompt is kept; a falsy system becomes 'You are a helpful assistant for a group chat.' and a falsy prompt '' |
| ChatProxy.CallOpenAi | infrastructure/lambda/chat/index.ts:5-24 | a missing key raises 'OPENAI_API_KEY not set'; a network failure, a non-ok status and unreadable JSON each throw; otherwise the content as extracted |
| ChatProxy.LambdaAnswer | infrastructure/lambda/chat/index.ts:34-61 | a Reply with the answer on success, a 500 with what was thrown otherwise |
| ChatProxy.MissingKeySendsNothing | infrastructure/lambda/chat/index.ts:8 | without a key the answer is the key error whatever the service would say |
| ChatLambdaTs.Content | infrastructure/lambda/chat/index.ts:23 | throws only on a nullish body; otherwise never nullish (`?? ''`) |
| ChatLambdaTs.Handler | infrastructure/lambda/chat/index.ts:26-62 | no HTTP context is a 500, a non-POST method is a 405, and a POST goes through the shared answer; a reply is never nullish |
| ChatLambdaTs.NonPostIsRefusedAlone | infrastructure/lambda/chat/index.ts:30-32 | a non-POST request is refused whatever the body, environment or service |
| ChatLambdaTs.ContentPassesThrough | infrastructure/lambda/chat/index.ts:23 | any non-nullish content in the expected shape is the reply as it is |
| ChatLambdaJs.Content | infrastructure/lambda/chat/index.js:26 | throws only on a nullish body; otherwise a truthy content or '' |
| ChatLambdaJs.Handler | infrastructure/lambda/chat/index.js:29-66 | a 405 only for an HTTP context with another method; everything else goes through the shared answer |
| ChatLambdaJs.ContentAgreesWhenTruthy | infrastructure/lambda/chat/index.js:26 | for a truthy content both Lambdas read the same reply |
| ChatLambdaJs.ContentDiffersOnZero | infrastructure/lambda/chat/index.js:26 | for content `0` the TypeScript Lambda replies 0 and the JavaScript one '' |
| ChatLambdaJs.LambdasAgree | infrastructure/lambda/chat/index.js:29-66 | with an HTTP context, and a service whose every parsed answer has truthy content, both Lambdas answer every request alike |
| ChatLambdaJs.MissingContextProceeds | infrastructure/lambda/chat/index.js:31-33 | without a request context the JavaScript Lambda answers as for a POST, while the TypeScript one fails with 500 |
| ChatRoute.RouteFields | src/app/api/chat/route.ts:7 | invalid JSON and a `null` body throw; a default replaces a field only when it is `undefined` |
| ChatRoute.Spread | src/app/api/chat/route.ts:16 | an array spreads its elements, a string one element per character, anything else throws |
| ChatRoute.Post | src/app/api/chat/route.ts:5-47 | body errors, then the key check, then spread errors, then network failure give 500. Not ok or no body gives 500 with 'OpenAI error <status>: <text>'. Otherwise the upstream stream passes through |
| ChatRoute.EmptyFieldsAreKept | src/app/api/chat/route.ts:7 | `prompt: ''` and `system: null` reach the service as given, where the Lambdas substitute their defaults |
| ChatRoute.KeyCheckPrecedesSpread | src/app/api/chat/route.ts:8-16 | with no key, even an unspreadable history yields the key error |
| ChatRoute.StreamOnlyFromOkBody | src/app/api/chat/route.ts:29-43 | a 200 stream comes only from an ok upstream answer with a body, and carries that body |
| Fixtures.Find | src/lib/data.ts:83 | the first element satisfying the predicate, or nothing iff none does |
| Fixtures.UsersAreDistinct | src/lib/data.ts:3-22 | three users with pairwise distinct ids and pairwise distinct emails |
| Fixtures.ChatIdsAreDistinct | src/lib/data.ts:24-80 | the fixture chat ids are pairwise distinct |
| Fixtures.GetChat | src/lib/data.ts:82-84 | a fixture chat with that id, or nothing iff none has it |
| Fixtures.GetChatFindsEachFixture | src/lib/data.ts:82-84 | every fixture chat is found by its own id |
| Fixtures.GetChats | src/lib/data.ts:86-88 | the fixture list, unchanged and in order |
| Fixtures.UserById | src/lib/auth.ts:25 | a listed user with that id, or nothing iff none has it |
| Fixtures.UserByEmail | src/app/auth/actions.ts:21 | a listed user with that email, or nothing iff none has it |
| Fixtures.UserByIdOfListed | src/lib/auth.ts:25 | a listed user is the one its own id finds |
| Session.SessionCookie | src/lib/auth.ts:8-15 | value is the user id; httpOnly; path '/'; maxAge 604800; secure iff NODE_ENV is 'production' |
| Session.SessionUser | src/lib/auth.ts:17-27 | no user without a non-empty session cookie; otherwise the listed user with that id, or nothing if none |
| Session.CookieJar.SetAuthCookie | src/lib/auth.ts:8-15 | only the session cookie changes, to the cookie for that id |
| Session.CookieJar.GetAuthUser | src/lib/auth.ts:17-27 | the session user of the current jar |
| Session.CookieJar.ClearAuthCookie | src/lib/auth.ts:29-31 | only the session cookie is removed, and afterwards nobody is signed in |
| Session.SetThenGet | src/lib/auth.ts:8-27 | after setting the cookie to a listed user's id, that user is signed in |
| Session.ClearThenGet | src/lib/auth.ts:29-31 | after clearing, nobody is signed in |
| Session.OtherCookiesIrrelevant | src/lib/auth.ts:19 | cookies other than the session cookie do not affect who is signed in |
| AuthActions.ParseCredentials | src/app/auth/actions.ts:8-18 | accepted iff the email passes the format check and the password is present and non-empty |
| AuthActions.Login | src/app/auth/actions.ts:13-32 | 'Invalid input.' for bad input, 'User not found. Try signing up.' for an unknown email, otherwise that user's id set and a redirect to /chat |
| AuthActions.Signup | src/app/auth/actions.ts:34-54 | 'Invalid input.' for bad input, 'User already exists. Try logging in.' for a known email, otherwise the first user's id and a redirect to /chat |
| AuthActions.Logout | src/app/auth/actions.ts:57-60 | clears the session and redirects to /login |
| AuthActions.LoginSignsInThatUser | src/app/auth/actions.ts:21-31 | after a successful login the signed-in user has the entered email; a rejection leaves the cookies unchanged |
| AuthActions.LoginIgnoresPassword | src/app/auth/actions.ts:27-31 | changing a non-empty password to another non-empty one does not change the login outcome |
| AuthActions.SignupSignsInFirstUser | src/app/auth/actions.ts:50-53 | a successful signup signs in Alex, whatever email was entered |
| AuthActions.LoginOrSignup | src/app/auth/actions.ts:21-46 | for valid input, login succeeds iff signup is rejected |
| AuthActions.LogoutSignsOut | src/app/auth/actions.ts:57-60 | after logout nobody is signed in |

## Left out

- DynamoDB, `fetch`, SSE streaming, `mailparser`, cookies and redirects are external I/O. They appear only as abstract state, oracles or returned outcomes. `console` logging is not modelled; the invitations that `sendInvitations` logs are returned instead.
- The item attributes `pk`, `sk`, `type`, `gsi1pk` and `gsi1sk` are not modelled. The creator index is modelled by its effect: the chats of one creator, newest first. The order among chats created at the same instant is left open.
- ChatStore.ChatTable.GetUserChats: models the unpaginated, fully consistent case. The source sends a single query on the `gsi1` index and does not follow `LastEvaluatedKey`, so it returns at most one 1 MB page. The index is eventually consistent, so a chat written just before may be missing. The model promises every chat of the creator and does not capture either limit. ChatStore.ChatTable.SearchChats inherits both limits.
- ChatStore.ChatTable.AddMessage: requires the chat to exist. The DynamoDB update without a condition expression would create a new item for an unknown id, and that upsert is not modelled. `if_not_exists(messages, [])` is covered because the model's messages are always present.
- ChatStore.ChatTable.UpdateChatAIInsights: requires the chat to exist, for the same reason.
- Timestamps are natural numbers standing for the fixed-format ISO strings, which sort like the instants they denote. String rendering of instants is not modelled.
- `toLowerCase` is modelled for ASCII letters only. String lengths and indices count characters rather than UTF-16 code units.
- Regular expressions are not executed:
  - `extractActionItems` takes the list of captures each pattern yields as an oracle.
  - the recipient pattern `^chat-([a-zA-Z0-9_-]+)@` and the tag pattern `<[^>]*>` are written out as functions.
- JSON numbers are integers. `length > 0` on an `emails` value that is an object with a string, array or object `length` is taken as false; JavaScript would first convert it to a number.
- ChatCreate.ChatStorage.AddMessageToChat: `chat.messages.push` mutates an object that earlier `getChat` callers may still hold. The model updates the map by value, so that aliasing is not captured.
- The messages of engine errors (TypeError, SyntaxError) are not modelled. Responses carrying them are identified only by the error kind: ChatProxy.LambdaBody gives no body for them, and none for the stream.
- The text of the logged invitation email (subject and body lines) is not modelled. The invitation keeps the recipient, the inviter's name and email, the preview and the link.
- The streamed upstream body is modelled as the whole upstream text rather than as a stream of events.
- zod's email-format check is an oracle. FormData entries that are files rather than strings are not modelled.
- UI components, pricing, infrastructure stacks, the Genkit flows and `src/app/chat/actions.ts` are not part of this model.
