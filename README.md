# Multi-session messaging API: a Dafny model of its own logic

The server is an HTTP facade over an external messaging-client library. It keeps
a process-wide registry of sessions (session id to client handle), starts and
stops sessions, and normalises the contact and chat records the library returns:
it finds a phone number through several identifier shapes, tags each identifier
as a linked identifier (`lid`) or a numeric contact (`c.us`), and counts the
results. Everything the library does (pairing, transport, contact retrieval) is
outside this model; the outcomes of calls into it are parameters.

Modules, leaf first:

- `Wrappers`: `Option` (a value that may be `undefined`/`null`) and `Outcome`
  (an expression that returns or throws).
- `Sequences`: the subsequence order ("obtained by deleting elements"), used
  for both string cleaning and list filtering.
- `JsString`: JavaScript truthiness of optional strings, `includes`, and
  `replace` with a string pattern, which replaces only the first occurrence.
- `Identifiers`: the `@c.us` and `@lid` markers, the `lid`/`c.us` tag, the
  send route's chat-id rule and the verify route's digit cleaning.
- `Contacts`: contact records, `getPhoneNumber` and `formatContactInfo`.
- `Listing`: the filter/format/count pipelines of the contacts and chats routes.
- `Sessions`: the `clients` registry as a class (`SessionRegistry`) whose
  methods are the route handlers and return the HTTP status code.

Modelling choices:

- A field that JavaScript tests for truthiness is an `Option<string>`. It is
  truthy when it is present and non-empty.
- A JavaScript `Map` is a `map` plus a `seq` of its keys in insertion order.
  The order is what `Array.from(clients.keys())` returns.
- A client handle is an object of class `Client` that remembers the id it was
  created for. Its `disconnected` handler deletes that id.
- `formatContactInfo` reads `contact.id._serialized` without a guard. Its
  `TypeError` on a missing id is modelled as `Threw`, and the routes turn it into 500.
- The server's behaviour on missing or failing external calls comes in as
  parameters: `createOk` (whether constructing the client throws), `initializeOk`, `destroyOk`, `sendOk`, an `Outcome` for fetched
  records, and a function for the number lookup.

Behaviour of the code that the model keeps exactly as written:

- The code does not test for a `@c.us` suffix. It tests whether `@c.us`
  occurs anywhere and removes the first occurrence.
- `getPhoneNumber` and `formatContactInfo` try the strategies in different
  orders. `PhoneOrdersAgreeIff` states exactly when the two disagree.
- `getPhoneNumber` is not called by any route.
- A session whose `initialize` fails stays registered.
- The listing's `withPhone` counts truthy phones. A contact with no truthy
  number, no truthy user part and the serialized id exactly `@c.us` gets the
  phone `""`. It has no note and is counted among `withoutPhone`
  (`EmptyPhoneOnlyForBareMarker`).

## Model

| member | source | states |
|---|---|---|
| `JsString.Includes` | index.js:25 | `s.includes(pat)` holds exactly when `pat` occurs in `s` at some index |
| `JsString.ReplaceFirst` | index.js:26 | `replace` with a string pattern rewrites only the leftmost occurrence; without an occurrence the string is unchanged |
| `Identifiers.KindOf` | index.js:54 | the tag is `lid` exactly when the serialized id contains `@lid`, `c.us` otherwise |
| `Identifiers.RemoveContactMarker` | index.js:62-63 | the first `@c.us`, wherever it stands, is cut out; an id without one is returned unchanged |
| `Identifiers.ChatIdFor` | index.js:208 | the chat id always contains `@c.us`; it is the phone itself when the phone contains `@c.us`, else the phone followed by `@c.us` |
| `Identifiers.ChatIdIdempotent` | index.js:208 | applying the chat-id rule twice gives the result of applying it once |
| `Identifiers.ChatIdExamples` | index.js:208 | `15551234567` is sent to `15551234567@c.us`; `15551234567@c.us` is sent unchanged |
| `Identifiers.CleanPhone` | index.js:359 | the cleaned phone consists of ASCII digits only and is no longer than the input |
| `Identifiers.CleanPhoneAppend` | index.js:359 | cleaning a concatenation is concatenating the cleaned parts |
| `Identifiers.CleanPhoneKeepsDigitStrings` | index.js:359 | a phone of digits only is left unchanged |
| `Identifiers.CleanPhoneIdempotent` | index.js:359 | cleaning twice equals cleaning once |
| `Identifiers.CleanPhoneIsSubsequence` | index.js:359 | the cleaned phone is obtained from the input by deleting characters, so the digits keep their order |
| `Identifiers.CleanPhoneKeepsEveryDigit` | index.js:359 | every digit occurs in the cleaned phone as often as in the input (nothing but non-digits is dropped) |
| `Identifiers.CleanPhoneExample` | index.js:358-359 | `+1 (555) 123-4567` becomes `15551234567` |
| `Contacts.GetPhoneNumber` | index.js:15-43 | the direct number when truthy; else the serialized id minus its first `@c.us` when it contains one; else the truthy user part; `null` exactly when none of the three applies |
| `Contacts.DisplayName` | index.js:49 | `name`, else `pushname`, else `Unknown`; the result is never empty |
| `Contacts.FormattedPhone` | index.js:58-67 | the order of `formatContactInfo`: number, then user part, then the stripped serialized id; `null` exactly when none applies |
| `Contacts.FormatContactInfo` | index.js:46-70 | throws exactly when the id or its serialized form is missing; otherwise the tag depends on the serialized id alone, the phone follows `FormattedPhone`, the note is set (to the fixed text) exactly when the phone is `null`, and the flags are copied |
| `Contacts.PhoneOrdersAgreeIff` | index.js:15-70 | the two functions give the same phone unless there is no number, the serialized id contains `@c.us`, and a truthy user part differs from the stripped id |
| `Contacts.PhoneOrdersDiffer` | index.js:15-70 | for number absent, id `111@c.us` and user `222`, `getPhoneNumber` gives `111` and `formatContactInfo` gives `222` |
| `Contacts.EmptyPhoneOnlyForBareMarker` | index.js:58-67 | the phone is the falsy `""` exactly when number and user are falsy and the serialized id is `@c.us` itself |
| `Contacts.FormatNumericContactExample` | index.js:46-70 | a record with number `15551234567` and id `15551234567@c.us` gets that phone, tag `c.us` and no note |
| `Contacts.FormatLinkedContactExample` | index.js:46-70 | the record with only id `987654321@lid` gets phone `null`, tag `lid`, the note and the name `Unknown` |
| `Contacts.KindIndependentOfPhone` | index.js:54-67 | a contact can be tagged `c.us` and still have phone `null` |
| `Listing.Filter` | index.js:238 | `filter` keeps exactly the elements that pass, each as often as in the input, in their original order (a subsequence), and never lengthens the list |
| `Listing.Reject` | index.js:244 | filtering by a negated test keeps exactly the elements that fail, each as often as in the input, in their original order |
| `Listing.FilterRejectPartition` | index.js:243-244 | the counts of passing and failing elements add up to the length of the list |
| `Listing.FilterComplement` | index.js:245-246 | filtering by a test that is the negation of another equals rejecting by that other one |
| `Listing.TraverseAll` | index.js:310-326 | mapping a throwing function over a list succeeds exactly when every element succeeds (stated by index and by membership), and then yields the per-element results in order |
| `Listing.ContactStatsOf` | index.js:241-247 | `total` is the number of formatted contacts, `withPhone + withoutPhone == total`, `lidContacts + cusContacts == total` |
| `Listing.ListContacts` | index.js:236-247 | succeeds exactly when every non-group contact can be formatted; then entry `i` is the formatting of the `i`-th non-group contact, `total` is the number of non-group inputs, no group remains, the statistics are `ContactStatsOf` of the entries, and both partitions hold |
| `Listing.SummarizeChat` | index.js:313-325 | a chat entry exists exactly when its contact lookup and the contact's formatting succeed; it carries the chat's id, name, unread count, last message and formatted contact |
| `Listing.ChatStatsOf` | index.js:328-332 | `total` is the number of chat entries and `withPhone + withoutPhone == total` |
| `Listing.ListChats` | index.js:309-332 | succeeds exactly when every non-group chat can be summarised; then `total` is the number of non-group chats, entry `i` summarises the `i`-th of them, the statistics are `ChatStatsOf` of the entries, and the phone partition holds |
| `Sessions.Without` | index.js:169 | deleting a key leaves exactly the other keys |
| `Sessions.WithoutDistinct` | index.js:169 | deleting a key keeps the key list free of duplicates |
| `Sessions.WithoutAt` | index.js:169 | when the key occurs once, deleting it removes just that position and keeps the order of the rest |
| `Sessions.Client.constructor` | index.js:73-76 | a new handle is bound to the session id it is created for |
| `Sessions.SessionRegistry.constructor` | index.js:9 | the registry starts empty |
| `Sessions.SessionRegistry.Start` | index.js:128-152 | a falsy id gives 400 and no change; a present id gives 400 and its entry is untouched; when constructing the client throws, 500 and no change; otherwise a fresh handle is inserted (appended to the key order) and stays whether `initialize` succeeds (200) or fails (500) |
| `Sessions.SessionRegistry.Stop` | index.js:155-174 | 400 for a falsy id; 404 and no change for an absent id; 500 and no change when `destroy` fails; on 200, exactly that key is removed and the others keep their entries and order |
| `Sessions.SessionRegistry.Disconnect` | index.js:110-113 | the `disconnected` event removes exactly the key the client was created for; nothing else changes |
| `Sessions.SessionRegistry.ActiveSessions` | index.js:119-125 | the listed ids are the registered ids, each once, in insertion order |
| `Sessions.SessionRegistry.ListSessions` | index.js:217-224 | one `active` entry per registered session, in insertion order |
| `Sessions.SessionRegistry.SessionStatus` | index.js:177-190 | 200 exactly for a registered id, 404 otherwise |
| `Sessions.SessionRegistry.SendMessage` | index.js:193-214 | 400 exactly when a field is falsy; 404 exactly for an unknown session; otherwise the message goes to `ChatIdFor(phone)`, which contains `@c.us`, with 200 or 500 by the send's outcome |
| `Sessions.SessionRegistry.GetContacts` | index.js:227-257 | 404 for an unknown session; 200 with the `ListContacts` page exactly when fetching and formatting succeed, 500 otherwise |
| `Sessions.SessionRegistry.GetChats` | index.js:300-342 | 404 for an unknown session; 200 with the `ListChats` page exactly when fetching and summarising succeed, 500 otherwise |
| `Sessions.SessionRegistry.GetContactInfo` | index.js:260-297 | 400 / 404 as for the other routes; for a registered session the answer is 200 or 500, and 200 exactly when the contact is fetched and formatted; the number found through the chat replaces the phone (with its note) only when the formatted phone is falsy |
| `Sessions.SessionRegistry.VerifyPhone` | index.js:345-382 | 400 / 404 as for the other routes; the lookup runs on the digits-only phone; 500 exactly when it fails, 200 whenever it does not; a registered number is reported with its id and the tag `lid` exactly when that id contains `@lid` |
| `Sessions.LifecycleScenario` | index.js:128-174 | start, duplicate start, stop, stop again answer 200, 400, 200, 404, and the duplicate start leaves the first handle in place |
| `Sessions.StaleDisconnectScenario` | index.js:110-113 | after stop and a new start under the same id, the first client's `disconnected` event removes the new session |

## Left out

- HTTP plumbing: Express setup, JSON bodies, `app.listen` and the port (index.js:5-12, 385-398). Response bodies are modelled only in the fields the routes compute (status, statistics, formatted records, chat id, cleaned phone).
- The error message that 500 responses pass through from the caught error: the model records only that the call failed.
- Client construction: the `LocalAuth` and puppeteer options and the handlers for `qr`, `ready`, `authenticated` and `auth_failure` (index.js:74-108), which only log or render a QR code. Only the `disconnected` handler is modelled.
- The external calls `initialize`, `destroy`, `sendMessage`, `getContacts`, `getChats`, `chat.getContact`, `getContactById`, `getNumberId` and `client.info`. Their outcomes are parameters, and `client.info` is not modelled at all.
- The chat search in `/contact/info` (index.js:278-290). It calls the library and swallows its own errors, so the model takes its result (`chatNumber`) as an input.
- Concurrency. Each handler is modelled as one atomic step, so interleavings of requests around an `await` are not captured. For example, two concurrent stops of one id can both pass the lookup at index.js:162-163 while `destroy` is pending, and both answer 200; in the model the second stop answers 404. Likewise a request can observe a session that `/session/start` has inserted but whose `initialize` (index.js:142) has not finished. `Promise.all` runs the per-chat lookups concurrently, but it lists the results in input order whatever the completion order, as the model does.
- The SIGINT shutdown loop (index.js:401-408). It is process lifecycle and I/O.
- All console logging.
- Non-string JSON values in request fields, and `Map` keys that are not strings. A numeric `phone` would throw on `.includes` and give 500. This is not modelled.
- `Contacts.FormatContactInfo`: the boolean flags are copied as booleans. When one is missing, JavaScript copies `undefined`, which the model reads as `false`.
- `Listing.SummarizeChat`: the chat's own `id._serialized` is taken to be present.
- `Sessions.SessionRegistry.VerifyPhone`: a truthy `numberId` is taken to carry a `_serialized` string (`NumberLookup.Registered`). Without one, `numberId._serialized.includes` (index.js:370) throws and the route answers 500; the model has no such case.
