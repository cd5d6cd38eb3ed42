/** The process-wide session registry (`clients`, a JavaScript `Map` from
    session id to client handle) and the route handlers that consult it. Each
    handler returns the HTTP status it answers with; the outcome of every call
    into the external messaging client is a parameter. */
module Sessions {
  import opened Wrappers
  import opened JsString
  import opened Identifiers
  import opened Contacts
  import opened Listing

  const Ok: nat := 200
  const BadRequest: nat := 400
  const NotFound: nat := 404
  const ServerError: nat := 500

  /** An opaque handle to one external client instance, created for one session id
      (`createClient(sessionId)`; its `disconnected` handler captures that id). */
  class Client {
    const sessionId: string

    constructor (sessionId: string)
      ensures this.sessionId == sessionId
    {
      this.sessionId := sessionId;
    }
  }

  /** No element occurs twice. */
  predicate Distinct(s: seq<string>) {
    forall i, j :: 0 <= i < j < |s| ==> s[i] != s[j]
  }

  /** `s` with every occurrence of `k` removed, the rest in order. */
  function Without(s: seq<string>, k: string): (r: seq<string>)
    ensures forall x :: x in r <==> x in s && x != k
    ensures k !in s ==> r == s
  {
    if s == [] then []
    else (if s[0] == k then [] else [s[0]]) + Without(s[1..], k)
  }

  /** Removing a key keeps the ids distinct ... */
  lemma {:induction false} WithoutDistinct(s: seq<string>, k: string)
    requires Distinct(s)
    ensures Distinct(Without(s, k))
  {
    if s != [] {
      assert s[0] !in s[1..] by {
        forall j | 0 <= j < |s[1..]| ensures s[1..][j] != s[0] {
          assert s[1..][j] == s[j + 1];
        }
      }
      assert Distinct(s[1..]) by {
        forall i, j | 0 <= i < j < |s[1..]| ensures s[1..][i] != s[1..][j] {
          assert s[1..][i] == s[i + 1] && s[1..][j] == s[j + 1];
        }
      }
      WithoutDistinct(s[1..], k);
    }
  }

  /** ... and, when the key occurs once at `i`, it is exactly the list without position `i`. */
  lemma {:induction false} WithoutAt(s: seq<string>, k: string, i: nat)
    requires Distinct(s) && i < |s| && s[i] == k
    ensures Without(s, k) == s[..i] + s[i + 1..]
  {
    if i == 0 {
      assert k !in s[1..] by {
        forall j | 0 <= j < |s[1..]| ensures s[1..][j] != k {
          assert s[1..][j] == s[j + 1];
        }
      }
    } else {
      assert Distinct(s[1..]) by {
        forall a, b | 0 <= a < b < |s[1..]| ensures s[1..][a] != s[1..][b] {
          assert s[1..][a] == s[a + 1] && s[1..][b] == s[b + 1];
        }
      }
      WithoutAt(s[1..], k, i - 1);
      assert s[0] != k;
      assert s[..i] == [s[0]] + s[1..][..i - 1];
      assert s[i + 1..] == s[1..][i..];
    }
  }

  /** One entry of the `/sessions` listing. */
  datatype SessionEntry = SessionEntry(sessionId: string, status: string)

  /** The outcome of the external `getNumberId(phone)` lookup. */
  datatype NumberLookup = Registered(serialized: string) | NotRegistered | LookupFailed

  /** The body of a successful `/phone/verify` response. */
  datatype VerifyReply = VerifyReply(numberExists: bool, numberId: Option<string>, phone: string, kind: Option<Kind>)

  const ChatNote: string := "Retrieved from chat"

  class SessionRegistry {
    /** The registered sessions, by id. */
    var clients: map<string, Client>
    /** The ids in the order they were inserted: the iteration order of the JavaScript `Map`. */
    var order: seq<string>

    ghost predicate Valid()
      reads this
    {
      && Distinct(order)
      && (forall k :: k in clients <==> k in order)
      && (forall k :: k in clients ==> clients[k].sessionId == k)
    }

    /** The module starts with an empty `Map`. */
    constructor ()
      ensures Valid() && clients == map[] && order == []
    {
      clients := map[];
      order := [];
    }

    /** `POST /session/start`. A falsy id and an id already present are both refused
        with 400 and change nothing. When constructing the client throws, the answer
        is 500 and nothing is stored. Otherwise the fresh client is stored before
        `initialize` runs, and it stays stored when `initialize` fails (500). */
    method Start(sessionId: Option<string>, createOk: bool, initializeOk: bool) returns (status: nat)
      requires Valid()
      modifies this
      ensures Valid()
      ensures !Truthy(sessionId) ==> status == BadRequest && clients == old(clients) && order == old(order)
      ensures Truthy(sessionId) && sessionId.value in old(clients) ==>
        status == BadRequest && clients == old(clients) && order == old(order)
      ensures Truthy(sessionId) && sessionId.value !in old(clients) && !createOk ==>
        status == ServerError && clients == old(clients) && order == old(order)
      ensures Truthy(sessionId) && sessionId.value !in old(clients) && createOk ==>
        var id := sessionId.value;
        && id in clients && fresh(clients[id]) && clients[id].sessionId == id
        && clients == old(clients)[id := clients[id]]
        && order == old(order) + [id]
        && status == (if initializeOk then Ok else ServerError)
    {
      if !Truthy(sessionId) {
        return BadRequest;
      }
      var id := sessionId.value;
      if id in clients {
        return BadRequest;
      }
      if !createOk {
        return ServerError;
      }
      var client := new Client(id);
      clients := clients[id := client];
      order := order + [id];
      status := if initializeOk then Ok else ServerError;
    }

    /** `POST /session/stop`. 400 for a falsy id, 404 for an unknown one, 500 when
        `destroy` fails (the entry stays); on success exactly that id is removed. */
    method Stop(sessionId: Option<string>, destroyOk: bool) returns (status: nat)
      requires Valid()
      modifies this
      ensures Valid()
      ensures !Truthy(sessionId) ==> status == BadRequest
      ensures Truthy(sessionId) && sessionId.value !in old(clients) ==> status == NotFound
      ensures Truthy(sessionId) && sessionId.value in old(clients) ==>
        status == (if destroyOk then Ok else ServerError)
      ensures status == Ok ==>
        clients == old(clients) - {sessionId.value} && order == Without(old(order), sessionId.value)
      ensures status == Ok ==>
        exists i :: 0 <= i < |old(order)| && old(order)[i] == sessionId.value &&
          order == old(order)[..i] + old(order)[i + 1..]
      ensures status != Ok ==> clients == old(clients) && order == old(order)
    {
      if !Truthy(sessionId) {
        return BadRequest;
      }
      var id := sessionId.value;
      if id !in clients {
        return NotFound;
      }
      if !destroyOk {
        return ServerError;
      }
      WithoutDistinct(order, id);
      var i :| 0 <= i < |order| && order[i] == id;
      WithoutAt(order, id, i);
      clients := clients - {id};
      order := Without(order, id);
      status := Ok;
    }

    /** The `disconnected` event of `client`: deletes the key the client was
        created for, whatever entry that key holds now. */
    method Disconnect(client: Client)
      requires Valid()
      modifies this
      ensures Valid()
      ensures clients == old(clients) - {client.sessionId}
      ensures order == Without(old(order), client.sessionId)
      ensures client.sessionId in old(clients) ==>
        exists i :: 0 <= i < |old(order)| && old(order)[i] == client.sessionId &&
          order == old(order)[..i] + old(order)[i + 1..]
      ensures client.sessionId !in old(clients) ==> order == old(order)
    {
      WithoutDistinct(order, client.sessionId);
      if client.sessionId in clients {
        var i :| 0 <= i < |order| && order[i] == client.sessionId;
        WithoutAt(order, client.sessionId, i);
      }
      clients := clients - {client.sessionId};
      order := Without(order, client.sessionId);
    }

    /** `GET /`: the active session ids, each once, in insertion order. */
    method ActiveSessions() returns (ids: seq<string>)
      requires Valid()
      ensures forall k :: k in ids <==> k in clients
      ensures Distinct(ids)
      ensures ids == order
    {
      ids := order;
    }

    /** `GET /sessions`: one `active` entry per session, in insertion order. */
    method ListSessions() returns (entries: seq<SessionEntry>)
      requires Valid()
      ensures |entries| == |order| == |clients|
      ensures forall i :: 0 <= i < |entries| ==> entries[i] == SessionEntry(order[i], "active")
    {
      var ids := order;
      entries := seq(|ids|, i requires 0 <= i < |ids| => SessionEntry(ids[i], "active"));
      KeysCount();
    }

    /** The number of keys equals the number of listed ids. */
    lemma KeysCount()
      requires Valid()
      ensures |clients| == |order|
    {
      var ks := set i | 0 <= i < |order| :: order[i];
      assert clients.Keys == ks;
      DistinctCard(order);
    }

    static lemma {:induction false} DistinctCard(s: seq<string>)
      requires Distinct(s)
      ensures |set i | 0 <= i < |s| :: s[i]| == |s|
    {
      if s != [] {
        DistinctCard(s[1..]);
        var tail := set i | 0 <= i < |s| - 1 :: s[1..][i];
        var all := set i | 0 <= i < |s| :: s[i];
        assert all == {s[0]} + tail;
        assert s[0] !in tail;
      }
    }

    /** `GET /session/status/:sessionId`: 200 for a registered id, else 404. */
    method SessionStatus(sessionId: string) returns (status: nat)
      ensures status == Ok <==> sessionId in clients
      ensures status == NotFound <==> sessionId !in clients
    {
      status := if sessionId in clients then Ok else NotFound;
    }

    /** `POST /message/send`. Returns the status and the chat id handed to
        `sendMessage`, if the route got that far. */
    method SendMessage(sessionId: Option<string>, phone: Option<string>, message: Option<string>, sendOk: bool)
      returns (status: nat, chatId: Option<string>)
      ensures status == BadRequest <==> !(Truthy(sessionId) && Truthy(phone) && Truthy(message))
      ensures status == NotFound <==>
        Truthy(sessionId) && Truthy(phone) && Truthy(message) && sessionId.value !in clients
      ensures chatId.Some? <==>
        Truthy(sessionId) && Truthy(phone) && Truthy(message) && sessionId.value in clients
      ensures chatId.Some? ==>
        && chatId.value == ChatIdFor(phone.value)
        && Contains(chatId.value, ContactMarker)
        && status == (if sendOk then Ok else ServerError)
    {
      if !(Truthy(sessionId) && Truthy(phone) && Truthy(message)) {
        return BadRequest, None;
      }
      if sessionId.value !in clients {
        return NotFound, None;
      }
      chatId := Some(ChatIdFor(phone.value));
      status := if sendOk then Ok else ServerError;
    }

    /** `GET /contacts/:sessionId`, given the outcome of `getContacts`. */
    method GetContacts(sessionId: string, fetched: Outcome<seq<Contact>>)
      returns (status: nat, page: Option<ContactsPage>)
      ensures sessionId !in clients ==> status == NotFound && page.None?
      ensures sessionId in clients ==> (status == Ok <==> page.Some?) && (status == Ok || status == ServerError)
      ensures sessionId in clients ==>
        (status == Ok <==> fetched.Returned? && ListContacts(fetched.value).Returned?)
      ensures page.Some? ==> fetched.Returned? && ListContacts(fetched.value) == Returned(page.value)
    {
      if sessionId !in clients {
        return NotFound, None;
      }
      if fetched.Threw? {
        return ServerError, None;
      }
      match ListContacts(fetched.value)
      case Threw =>
        status, page := ServerError, None;
      case Returned(p) =>
        status, page := Ok, Some(p);
    }

    /** `GET /chats/:sessionId`, given the outcome of `getChats`. */
    method GetChats(sessionId: string, fetched: Outcome<seq<Chat>>)
      returns (status: nat, page: Option<ChatsPage>)
      ensures sessionId !in clients ==> status == NotFound && page.None?
      ensures sessionId in clients ==> (status == Ok <==> page.Some?) && (status == Ok || status == ServerError)
      ensures sessionId in clients ==>
        (status == Ok <==> fetched.Returned? && ListChats(fetched.value).Returned?)
      ensures page.Some? ==> fetched.Returned? && ListChats(fetched.value) == Returned(page.value)
    {
      if sessionId !in clients {
        return NotFound, None;
      }
      if fetched.Threw? {
        return ServerError, None;
      }
      match ListChats(fetched.value)
      case Threw =>
        status, page := ServerError, None;
      case Returned(p) =>
        status, page := Ok, Some(p);
    }

    /** `POST /contact/info`, given the outcome of `getContactById` and the number
        found through the matching chat (`None` when there is no such chat, it has
        no number, or that lookup failed: failures there are swallowed). That number
        is used only when the formatted phone is falsy. */
    method GetContactInfo(sessionId: Option<string>, contactId: Option<string>,
                          fetched: Outcome<Contact>, chatNumber: Option<string>)
      returns (status: nat, info: Option<ContactInfo>)
      ensures status == BadRequest <==> !(Truthy(sessionId) && Truthy(contactId))
      ensures status == NotFound <==> Truthy(sessionId) && Truthy(contactId) && sessionId.value !in clients
      ensures info.Some? <==> status == Ok
      ensures status == Ok <==>
        Truthy(sessionId) && Truthy(contactId) && sessionId.value in clients
        && fetched.Returned? && FormatContactInfo(fetched.value).Returned?
      ensures Truthy(sessionId) && Truthy(contactId) && sessionId.value in clients ==>
        status == Ok || status == ServerError
      ensures info.Some? ==>
        var base := FormatContactInfo(fetched.value).value;
        if !Truthy(base.phone) && Truthy(chatNumber)
        then info.value == base.(phone := chatNumber, note := Some(ChatNote))
        else info.value == base
      ensures info.Some? ==> Truthy(info.value.phone) || !Truthy(chatNumber)
    {
      if !(Truthy(sessionId) && Truthy(contactId)) {
        return BadRequest, None;
      }
      if sessionId.value !in clients {
        return NotFound, None;
      }
      if fetched.Threw? {
        return ServerError, None;
      }
      match FormatContactInfo(fetched.value)
      case Threw =>
        status, info := ServerError, None;
      case Returned(base) =>
        var result := base;
        if !Truthy(base.phone) && Truthy(chatNumber) {
          result := base.(phone := chatNumber, note := Some(ChatNote));
        }
        status, info := Ok, Some(result);
    }

    /** `POST /phone/verify`. The phone is reduced to its ASCII digits before the
        external lookup; a registered number is tagged by its serialized id. */
    method VerifyPhone(sessionId: Option<string>, phone: Option<string>, lookup: string -> NumberLookup)
      returns (status: nat, reply: Option<VerifyReply>)
      ensures status == BadRequest <==> !(Truthy(sessionId) && Truthy(phone))
      ensures status == NotFound <==> Truthy(sessionId) && Truthy(phone) && sessionId.value !in clients
      ensures reply.Some? <==> status == Ok
      ensures status == ServerError <==>
        Truthy(sessionId) && Truthy(phone) && sessionId.value in clients
        && lookup(CleanPhone(phone.value)).LookupFailed?
      ensures (Truthy(sessionId) && Truthy(phone) && sessionId.value in clients
               && !lookup(CleanPhone(phone.value)).LookupFailed?) ==> status == Ok
      ensures reply.Some? ==> reply.value.phone == CleanPhone(phone.value) && AllDigits(reply.value.phone)
      ensures reply.Some? ==> (reply.value.numberExists <==> lookup(reply.value.phone).Registered?)
      ensures reply.Some? && reply.value.numberExists ==>
        var id := lookup(reply.value.phone).serialized;
        reply.value.numberId == Some(id) && reply.value.kind.Some?
        && (reply.value.kind.value == Lid <==> Contains(id, LidMarker))
      ensures reply.Some? && !reply.value.numberExists ==> reply.value.numberId.None? && reply.value.kind.None?
    {
      if !(Truthy(sessionId) && Truthy(phone)) {
        return BadRequest, None;
      }
      if sessionId.value !in clients {
        return NotFound, None;
      }
      var cleanPhone := CleanPhone(phone.value);
      match lookup(cleanPhone)
      case LookupFailed =>
        status, reply := ServerError, None;
      case NotRegistered =>
        status, reply := Ok, Some(VerifyReply(false, None, cleanPhone, None));
      case Registered(id) =>
        status, reply := Ok, Some(VerifyReply(true, Some(id), cleanPhone, Some(KindOf(id))));
    }
  }

  /** Start, a duplicate start, stop and a second stop of one id: 200, 400
      (the first client stays registered), 200, 404. */
  method LifecycleScenario() returns (statuses: seq<nat>)
    ensures statuses == [Ok, BadRequest, Ok, NotFound]
  {
    var registry := new SessionRegistry();
    var first := registry.Start(Some("alice"), true, true);
    var handle := registry.clients["alice"];
    var second := registry.Start(Some("alice"), true, true);
    assert registry.clients["alice"] == handle;
    var third := registry.Stop(Some("alice"), true);
    assert "alice" !in registry.clients;
    var fourth := registry.Stop(Some("alice"), true);
    statuses := [first, second, third, fourth];
  }

  /** When a session is stopped and started again under the same id, a late
      `disconnected` event from the first client removes the second one: the
      handler deletes by id, not by handle. */
  method StaleDisconnectScenario() returns (stillRegistered: bool)
    ensures !stillRegistered
  {
    var registry := new SessionRegistry();
    var _ := registry.Start(Some("alice"), true, true);
    var first := registry.clients["alice"];
    var _ := registry.Stop(Some("alice"), true);
    var _ := registry.Start(Some("alice"), true, true);
    assert registry.clients["alice"] != first;
    registry.Disconnect(first);
    stillRegistered := "alice" in registry.clients;
  }
}
