/** Normalisation of contact records into phone numbers and `ContactInfo`
    records (`getPhoneNumber` and `formatContactInfo`). */
module Contacts {
  import opened Wrappers
  import opened JsString
  import opened Identifiers

  /** The `id` object of a contact: `_serialized` and `user`, each possibly absent. */
  datatype ContactId = ContactId(serialized: Option<string>, user: Option<string>)

  /** A contact record as the messaging client delivers it. Fields that may be
      missing are optional; the flags are read as booleans, absence as `false`. */
  datatype Contact = Contact(
    id: Option<ContactId>,
    number: Option<string>,
    name: Option<string>,
    pushname: Option<string>,
    isMyContact: bool,
    isGroup: bool,
    isUser: bool,
    isBusiness: bool)

  /** The record `formatContactInfo` builds; `phone == None` stands for `null`
      and `note == None` for a note that was never set. */
  datatype ContactInfo = ContactInfo(
    id: string,
    name: string,
    isMyContact: bool,
    isGroup: bool,
    isUser: bool,
    isBusiness: bool,
    kind: Kind,
    phone: Option<string>,
    note: Option<string>)

  const UnknownName: string := "Unknown"
  const NoPhoneNote: string := "Phone number not available (using @lid)"

  /** `contact.id && contact.id._serialized`, as an optional string. */
  function SerializedOf(c: Contact): Option<string> {
    if c.id.Some? then c.id.value.serialized else None
  }

  /** `contact.id && contact.id.user`, as an optional string. */
  function UserOf(c: Contact): Option<string> {
    if c.id.Some? then c.id.value.user else None
  }

  /** The serialized id is present and contains `@c.us` somewhere. */
  ghost predicate HasContactMarker(c: Contact) {
    Truthy(SerializedOf(c)) && Contains(SerializedOf(c).value, ContactMarker)
  }

  /** `getPhoneNumber`: the direct number, else the serialized id with its first
      `@c.us` removed, else the bare user part, else `null`. The function never
      throws on these records, so its `catch` branch is not reachable here. */
  function GetPhoneNumber(c: Contact): (r: Option<string>)
    ensures Truthy(c.number) ==> r == c.number
    ensures !Truthy(c.number) && HasContactMarker(c) ==>
      r == Some(RemoveContactMarker(SerializedOf(c).value))
    ensures !Truthy(c.number) && !HasContactMarker(c) && Truthy(UserOf(c)) ==> r == UserOf(c)
    ensures r.None? <==> !Truthy(c.number) && !HasContactMarker(c) && !Truthy(UserOf(c))
  {
    if Truthy(c.number) then c.number
    else if Truthy(SerializedOf(c)) && Includes(SerializedOf(c).value, ContactMarker) then
      Some(RemoveContactMarker(SerializedOf(c).value))
    else if Truthy(UserOf(c)) then UserOf(c)
    else None
  }

  /** `contact.name || contact.pushname || 'Unknown'`: never empty, and the
      literal `Unknown` only stands in when both names are falsy. */
  function DisplayName(name: Option<string>, pushname: Option<string>): (r: string)
    ensures r != ""
    ensures Truthy(name) ==> r == name.value
    ensures !Truthy(name) && Truthy(pushname) ==> r == pushname.value
    ensures !Truthy(name) && !Truthy(pushname) ==> r == UnknownName
  {
    if Truthy(name) then name.value
    else if Truthy(pushname) then pushname.value
    else UnknownName
  }

  /** The phone of `formatContactInfo`, in its own order: the direct number, else
      the user part, else the serialized id with its first `@c.us` removed, else `null`. */
  function FormattedPhone(number: Option<string>, user: Option<string>, serialized: string): (phone: Option<string>)
    ensures Truthy(number) ==> phone == number
    ensures !Truthy(number) && Truthy(user) ==> phone == user
    ensures !Truthy(number) && !Truthy(user) && Contains(serialized, ContactMarker) ==>
      phone == Some(RemoveContactMarker(serialized))
    ensures phone.None? <==> !Truthy(number) && !Truthy(user) && !Contains(serialized, ContactMarker)
  {
    if Truthy(number) then number
    else if Truthy(user) then user
    else if Includes(serialized, ContactMarker) then Some(RemoveContactMarker(serialized))
    else None
  }

  /** `formatContactInfo`. It reads `contact.id._serialized` unguarded, so it throws
      when the id or its serialized form is missing. Otherwise the tag depends only
      on the serialized id, the phone follows `FormattedPhone`, and the note is set
      exactly when no phone was found. */
  function FormatContactInfo(c: Contact): (r: Outcome<ContactInfo>)
    ensures r.Threw? <==> SerializedOf(c).None?
    ensures r.Returned? ==> r.value.id == SerializedOf(c).value
    ensures r.Returned? ==> (r.value.kind == Lid <==> Contains(SerializedOf(c).value, LidMarker))
    ensures r.Returned? ==> r.value.name == DisplayName(c.name, c.pushname)
    ensures r.Returned? ==> r.value.phone == FormattedPhone(c.number, UserOf(c), SerializedOf(c).value)
    ensures r.Returned? ==> (r.value.note.Some? <==> r.value.phone.None?)
    ensures r.Returned? && r.value.note.Some? ==> r.value.note.value == NoPhoneNote
    ensures r.Returned? ==>
      (r.value.isMyContact == c.isMyContact && r.value.isGroup == c.isGroup &&
       r.value.isUser == c.isUser && r.value.isBusiness == c.isBusiness)
  {
    match c.id
    case None => Threw
    case Some(id) =>
      match id.serialized
      case None => Threw
      case Some(s) =>
        var phone := FormattedPhone(c.number, id.user, s);
        Returned(ContactInfo(
          s, DisplayName(c.name, c.pushname),
          c.isMyContact, c.isGroup, c.isUser, c.isBusiness,
          KindOf(s),
          phone,
          if phone.None? then Some(NoPhoneNote) else None))
  }

  /** The two extraction orders agree on every contact except one shape: no
      direct number, a serialized id containing `@c.us`, and a user part that
      differs from the stripped serialized id. */
  lemma PhoneOrdersAgreeIff(c: Contact)
    requires FormatContactInfo(c).Returned?
    ensures GetPhoneNumber(c) == FormatContactInfo(c).value.phone <==>
      !( !Truthy(c.number) && Contains(SerializedOf(c).value, ContactMarker) && Truthy(UserOf(c))
         && UserOf(c).value != RemoveContactMarker(SerializedOf(c).value))
  {
  }

  /** A contact on which the two orders disagree: `getPhoneNumber` takes the
      serialized id, `formatContactInfo` the user part. */
  lemma PhoneOrdersDiffer()
    ensures var c := Contact(Some(ContactId(Some("111@c.us"), Some("222"))), None, None, None, false, false, true, false);
      GetPhoneNumber(c) == Some("111") && FormatContactInfo(c).value.phone == Some("222")
  {
    var s := "111@c.us";
    assert s[3..8] == ContactMarker;
    assert OccursAt(s, ContactMarker, 3);
    forall j | 0 <= j < 3
      ensures !OccursAt(s, ContactMarker, j)
    {
      assert s[j] != '@';
      assert s[j..j + 5][0] == s[j];
    }
    assert IsFirstOccurrence(s, ContactMarker, 3);
    assert s[..3] + "" + s[8..] == "111";
  }

  /** The phone is the empty string (present, yet falsy) exactly for a contact with no
      number, no user part and the serialized id `@c.us` itself; that contact
      gets no note. */
  lemma EmptyPhoneOnlyForBareMarker(c: Contact)
    requires FormatContactInfo(c).Returned?
    ensures FormatContactInfo(c).value.phone == Some("") <==>
      !Truthy(c.number) && !Truthy(UserOf(c)) && SerializedOf(c).value == ContactMarker
  {
  }

  /** A number-shaped contact: the direct number wins and the tag is `c.us`. */
  lemma FormatNumericContactExample()
    ensures var c := Contact(Some(ContactId(Some("15551234567@c.us"), Some("15551234567"))),
                             Some("15551234567"), None, None, true, false, true, false);
      var info := FormatContactInfo(c).value;
      info.phone == Some("15551234567") && info.kind == CUs && info.note == None
  {
    MissingCharNotContained("15551234567@c.us", LidMarker, 'l');
  }

  /** A linked-identifier-only contact: no phone, tag `lid`, and the note. */
  lemma FormatLinkedContactExample()
    ensures var c := Contact(Some(ContactId(Some("987654321@lid"), None)), None, None, None, false, false, true, false);
      var info := FormatContactInfo(c).value;
      info.phone == None && info.kind == Lid && info.note == Some(NoPhoneNote) && info.name == UnknownName
  {
    var s := "987654321@lid";
    assert s[9..13] == LidMarker;
    assert OccursAt(s, LidMarker, 9);
    MissingCharNotContained(s, ContactMarker, '.');
  }

  /** The tag does not follow the phone: a contact tagged `c.us` can still have no phone. */
  lemma KindIndependentOfPhone()
    ensures var c := Contact(Some(ContactId(Some("status@broadcast"), None)), None, None, None, false, false, false, false);
      var info := FormatContactInfo(c).value;
      info.kind == CUs && info.phone == None
  {
    MissingCharNotContained("status@broadcast", LidMarker, 'l');
    MissingCharNotContained("status@broadcast", ContactMarker, '.');
  }
}
