/** The two list routes: contacts and chats, each filtered to individual
    records, normalised one by one and summarised by counts. */
module Listing {
  import opened Wrappers
  import opened JsString
  import opened Sequences
  import opened Identifiers
  import opened Contacts

  /** `s.filter(p)`: the elements satisfying `p`, each as often as in `s`, in order. */
  function Filter<T(!new)>(s: seq<T>, p: T -> bool): (r: seq<T>)
    ensures |r| <= |s|
    ensures forall x :: x in r ==> x in s && p(x)
    ensures forall x :: x in s && p(x) ==> x in r
    ensures forall x :: multiset(r)[x] == if p(x) then multiset(s)[x] else 0
    ensures IsSubsequence(r, s)
  {
    if s == [] then []
    else
      var rest := Filter(s[1..], p);
      assert s == [s[0]] + s[1..];
      if p(s[0]) then
        assert ([s[0]] + rest)[1..] == rest;
        [s[0]] + rest
      else rest
  }

  /** `s.filter(x => !p(x))`: the elements failing `p`, each as often as in `s`, in order. */
  function Reject<T(!new)>(s: seq<T>, p: T -> bool): (r: seq<T>)
    ensures |r| <= |s|
    ensures forall x :: x in r ==> x in s && !p(x)
    ensures forall x :: x in s && !p(x) ==> x in r
    ensures forall x :: multiset(r)[x] == if p(x) then 0 else multiset(s)[x]
    ensures IsSubsequence(r, s)
  {
    if s == [] then []
    else
      var rest := Reject(s[1..], p);
      assert s == [s[0]] + s[1..];
      if p(s[0]) then rest
      else
        assert ([s[0]] + rest)[1..] == rest;
        [s[0]] + rest
  }

  /** Every element passes exactly one of the two filters. */
  lemma {:induction false} FilterRejectPartition<T(!new)>(s: seq<T>, p: T -> bool)
    ensures |Filter(s, p)| + |Reject(s, p)| == |s|
  {
    if s != [] {
      FilterRejectPartition(s[1..], p);
    }
  }

  /** Filtering by the negation of `p` is rejecting by `p`. */
  lemma {:induction false} FilterComplement<T(!new)>(s: seq<T>, p: T -> bool, q: T -> bool)
    requires forall x :: q(x) == !p(x)
    ensures Filter(s, q) == Reject(s, p)
  {
    if s != [] {
      FilterComplement(s[1..], p, q);
    }
  }

  /** Map `f` over `s`, failing as a whole if any element fails: a synchronous
      `map` that may throw, or `Promise.all` over promises that may reject. */
  function TraverseAll<A, B>(s: seq<A>, f: A -> Outcome<B>): (r: Outcome<seq<B>>)
    ensures r.Returned? <==> forall i :: 0 <= i < |s| ==> f(s[i]).Returned?
    ensures r.Returned? <==> forall x :: x in s ==> f(x).Returned?
    ensures r.Returned? ==> |r.value| == |s|
    ensures r.Returned? ==> forall i :: 0 <= i < |s| ==> f(s[i]) == Returned(r.value[i])
  {
    if s == [] then Returned([])
    else
      match f(s[0])
      case Threw => Threw
      case Returned(b) =>
        match TraverseAll(s[1..], f)
        case Threw => Threw
        case Returned(bs) => Returned([b] + bs)
  }

  predicate IsIndividualContact(c: Contact) { !c.isGroup }

  /** A formatted contact "has a phone" when its phone is truthy (`c.phone`). */
  predicate HasPhone(info: ContactInfo) { Truthy(info.phone) }
  predicate IsLid(info: ContactInfo) { info.kind == Lid }
  predicate IsCUs(info: ContactInfo) { info.kind == CUs }

  datatype ContactStats = ContactStats(total: nat, withPhone: nat, withoutPhone: nat, lidContacts: nat, cusContacts: nat)

  /** The `stats` object of the contacts route. */
  function ContactStatsOf(infos: seq<ContactInfo>): (st: ContactStats)
    ensures st.total == |infos|
    ensures st.withPhone + st.withoutPhone == st.total
    ensures st.lidContacts + st.cusContacts == st.total
    ensures st.withPhone == |Filter(infos, HasPhone)| && st.lidContacts == |Filter(infos, IsLid)|
  {
    FilterRejectPartition(infos, HasPhone);
    FilterRejectPartition(infos, IsLid);
    FilterComplement(infos, IsLid, IsCUs);
    ContactStats(|infos|, |Filter(infos, HasPhone)|, |Reject(infos, HasPhone)|,
                 |Filter(infos, IsLid)|, |Filter(infos, IsCUs)|)
  }

  datatype ContactsPage = ContactsPage(stats: ContactStats, contacts: seq<ContactInfo>)

  /** The body of a successful contacts response, built from what `getContacts`
      returned: group records are dropped, the rest formatted, and the whole
      route fails (500) when formatting any of them throws. */
  function ListContacts(contacts: seq<Contact>): (r: Outcome<ContactsPage>)
    ensures r.Returned? <==>
      forall c :: c in contacts && IsIndividualContact(c) ==> FormatContactInfo(c).Returned?
    ensures r.Returned? ==> r.value.stats.total == |r.value.contacts| == |Filter(contacts, IsIndividualContact)|
    ensures r.Returned? ==> r.value.stats.total + |Reject(contacts, IsIndividualContact)| == |contacts|
    ensures r.Returned? ==> forall i :: 0 <= i < |r.value.contacts| ==> !r.value.contacts[i].isGroup
    ensures r.Returned? ==> r.value.stats.withPhone + r.value.stats.withoutPhone == r.value.stats.total
    ensures r.Returned? ==> r.value.stats.lidContacts + r.value.stats.cusContacts == r.value.stats.total
    ensures r.Returned? ==> r.value.stats == ContactStatsOf(r.value.contacts)
    ensures r.Returned? ==> forall i :: 0 <= i < |r.value.contacts| ==>
      FormatContactInfo(Filter(contacts, IsIndividualContact)[i]) == Returned(r.value.contacts[i])
  {
    var individuals := Filter(contacts, IsIndividualContact);
    FilterRejectPartition(contacts, IsIndividualContact);
    match TraverseAll(individuals, FormatContactInfo)
    case Threw => Threw
    case Returned(infos) =>
      assert forall i :: 0 <= i < |infos| ==> !infos[i].isGroup by {
        forall i | 0 <= i < |infos| ensures !infos[i].isGroup {
          assert individuals[i] in individuals;
          assert FormatContactInfo(individuals[i]) == Returned(infos[i]);
        }
      }
      Returned(ContactsPage(ContactStatsOf(infos), infos))
  }

  /** The last message of a chat, of which the route keeps body and timestamp. */
  datatype Message = Message(body: string, timestamp: int)

  /** A chat record; `contact` is the outcome of the external `chat.getContact()`. */
  datatype Chat = Chat(
    id: string,
    name: Option<string>,
    isGroup: bool,
    unreadCount: int,
    lastMessage: Option<Message>,
    contact: Outcome<Contact>)

  datatype ChatSummary = ChatSummary(
    chatId: string,
    name: Option<string>,
    contact: ContactInfo,
    unreadCount: int,
    lastMessage: Option<Message>)

  predicate IsIndividualChat(chat: Chat) { !chat.isGroup }

  /** One entry of the chats route: fails if the contact lookup rejects or its
      record cannot be formatted. */
  function SummarizeChat(chat: Chat): (r: Outcome<ChatSummary>)
    ensures r.Returned? <==> chat.contact.Returned? && FormatContactInfo(chat.contact.value).Returned?
    ensures r.Returned? ==> r.value.contact == FormatContactInfo(chat.contact.value).value
    ensures r.Returned? ==>
      (r.value.chatId == chat.id && r.value.unreadCount == chat.unreadCount &&
       r.value.lastMessage == chat.lastMessage && r.value.name == chat.name)
  {
    match chat.contact
    case Threw => Threw
    case Returned(c) =>
      match FormatContactInfo(c)
      case Threw => Threw
      case Returned(info) => Returned(ChatSummary(chat.id, chat.name, info, chat.unreadCount, chat.lastMessage))
  }

  predicate ChatHasPhone(s: ChatSummary) { Truthy(s.contact.phone) }

  datatype ChatStats = ChatStats(total: nat, withPhone: nat, withoutPhone: nat)

  /** The `stats` object of the chats route. */
  function ChatStatsOf(summaries: seq<ChatSummary>): (st: ChatStats)
    ensures st.total == |summaries|
    ensures st.withPhone + st.withoutPhone == st.total
    ensures st.withPhone == |Filter(summaries, ChatHasPhone)|
  {
    FilterRejectPartition(summaries, ChatHasPhone);
    ChatStats(|summaries|, |Filter(summaries, ChatHasPhone)|, |Reject(summaries, ChatHasPhone)|)
  }

  datatype ChatsPage = ChatsPage(stats: ChatStats, chats: seq<ChatSummary>)

  /** The body of a successful chats response, built from what `getChats` returned. */
  function ListChats(chats: seq<Chat>): (r: Outcome<ChatsPage>)
    ensures r.Returned? <==> forall chat :: chat in chats && IsIndividualChat(chat) ==> SummarizeChat(chat).Returned?
    ensures r.Returned? ==> r.value.stats.total == |r.value.chats| == |Filter(chats, IsIndividualChat)|
    ensures r.Returned? ==> r.value.stats.withPhone + r.value.stats.withoutPhone == r.value.stats.total
    ensures r.Returned? ==> r.value.stats == ChatStatsOf(r.value.chats)
    ensures r.Returned? ==> forall i :: 0 <= i < |r.value.chats| ==>
      SummarizeChat(Filter(chats, IsIndividualChat)[i]) == Returned(r.value.chats[i])
  {
    var individuals := Filter(chats, IsIndividualChat);
    match TraverseAll(individuals, SummarizeChat)
    case Threw =>
      var i :| 0 <= i < |individuals| && SummarizeChat(individuals[i]).Threw?;
      assert individuals[i] in individuals;
      Threw
    case Returned(summaries) => Returned(ChatsPage(ChatStatsOf(summaries), summaries))
  }
}
