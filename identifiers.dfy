/** The identifier conventions of the messaging network as the server uses them:
    numeric-contact ids carry the marker `@c.us` (by convention at the end, but
    the server only tests that it occurs), linked ids contain `@lid`. */
module Identifiers {
  import opened JsString
  import opened Sequences

  /** The marker of a numeric-contact chat id. */
  const ContactMarker: string := "@c.us"

  /** The marker of a linked identifier, which carries no phone number. */
  const LidMarker: string := "@lid"

  /** The `type` tag the server reports for an identifier. */
  datatype Kind = Lid | CUs

  /** `serialized.includes('@lid') ? 'lid' : 'c.us'`: a purely syntactic test. */
  function KindOf(serialized: string): (k: Kind)
    ensures k == Lid <==> Contains(serialized, LidMarker)
    ensures k == CUs <==> !Contains(serialized, LidMarker)
  {
    if Includes(serialized, LidMarker) then Lid else CUs
  }

  /** `serialized.replace('@c.us', '')`: drops the first `@c.us`, wherever it stands. */
  function RemoveContactMarker(serialized: string): (r: string)
    ensures !Contains(serialized, ContactMarker) ==> r == serialized
    ensures forall i :: IsFirstOccurrence(serialized, ContactMarker, i) ==>
      r == serialized[..i] + serialized[i + |ContactMarker|..]
  {
    ReplaceFirst(serialized, ContactMarker, "")
  }

  /** The chat id the send route addresses: the phone as given when it already
      contains `@c.us`, otherwise the phone with `@c.us` appended. */
  function ChatIdFor(phone: string): (chatId: string)
    ensures Contains(chatId, ContactMarker)
    ensures Contains(phone, ContactMarker) ==> chatId == phone
    ensures !Contains(phone, ContactMarker) ==> chatId == phone + ContactMarker
  {
    if Includes(phone, ContactMarker) then phone
    else
      ContainsAppended(phone, ContactMarker);
      phone + ContactMarker
  }

  /** Applying the chat-id rule a second time changes nothing. */
  lemma ChatIdIdempotent(phone: string)
    ensures ChatIdFor(ChatIdFor(phone)) == ChatIdFor(phone)
  {
  }

  /** The characters the verify route keeps: `0` to `9`. */
  predicate IsAsciiDigit(c: char) {
    '0' <= c <= '9'
  }

  /** Every character of `s` is an ASCII digit. */
  ghost predicate AllDigits(s: string) {
    forall i :: 0 <= i < |s| ==> IsAsciiDigit(s[i])
  }

  /** `phone.replace(/[^0-9]/g, '')`: every character other than an ASCII digit is dropped. */
  function CleanPhone(s: string): (r: string)
    ensures |r| <= |s|
    ensures AllDigits(r)
  {
    if s == [] then []
    else (if IsAsciiDigit(s[0]) then [s[0]] else []) + CleanPhone(s[1..])
  }

  /** Cleaning distributes over concatenation. */
  lemma {:induction false} CleanPhoneAppend(a: string, b: string)
    ensures CleanPhone(a + b) == CleanPhone(a) + CleanPhone(b)
  {
    if a == [] {
      assert a + b == b;
    } else {
      var head := if IsAsciiDigit(a[0]) then [a[0]] else [];
      assert (a + b)[0] == a[0];
      assert (a + b)[1..] == a[1..] + b;
      CleanPhoneAppend(a[1..], b);
      assert CleanPhone(a + b) == head + (CleanPhone(a[1..]) + CleanPhone(b));
      assert CleanPhone(a) == head + CleanPhone(a[1..]);
    }
  }

  /** A string of digits only is left as it is. */
  lemma {:induction false} CleanPhoneKeepsDigitStrings(s: string)
    requires AllDigits(s)
    ensures CleanPhone(s) == s
  {
    if s != [] {
      CleanPhoneKeepsDigitStrings(s[1..]);
    }
  }

  /** Cleaning is idempotent. */
  lemma {:induction false} CleanPhoneIdempotent(s: string)
    ensures CleanPhone(CleanPhone(s)) == CleanPhone(s)
  {
    CleanPhoneKeepsDigitStrings(CleanPhone(s));
  }

  /** The cleaned phone keeps its digits in their original order ... */
  lemma {:induction false} CleanPhoneIsSubsequence(s: string)
    ensures IsSubsequence(CleanPhone(s), s)
  {
    if s != [] {
      CleanPhoneIsSubsequence(s[1..]);
      if IsAsciiDigit(s[0]) {
        assert CleanPhone(s)[1..] == CleanPhone(s[1..]);
      } else {
        assert CleanPhone(s) == CleanPhone(s[1..]);
      }
    }
  }

  /** ... and drops none of them: every digit occurs as often as in the input. */
  lemma {:induction false} CleanPhoneKeepsEveryDigit(s: string, c: char)
    requires IsAsciiDigit(c)
    ensures multiset(CleanPhone(s))[c] == multiset(s)[c]
  {
    if s != [] {
      assert s == [s[0]] + s[1..];
      CleanPhoneKeepsEveryDigit(s[1..], c);
    }
  }

  /** The input `+1 (555) 123-4567` (written in four pieces): punctuation,
      spaces and the plus sign go, the digits stay. */
  lemma CleanPhoneExample()
    ensures CleanPhone("+1 (" + "555) " + "123-" + "4567") == "15551234567"
  {
    assert CleanPhone("+1 (") == "1";
    assert CleanPhone("555) ") == "555";
    assert CleanPhone("123-") == "123";
    assert CleanPhone("4567") == "4567";
    CleanPhoneAppend("+1 (", "555) ");
    CleanPhoneAppend("+1 (" + "555) ", "123-");
    CleanPhoneAppend("+1 (" + "555) " + "123-", "4567");
  }

  /** A bare number gets `@c.us` appended; a number that already contains it is kept. */
  lemma ChatIdExamples()
    ensures ChatIdFor("15551234567") == "15551234567@c.us"
    ensures ChatIdFor("15551234567@c.us") == "15551234567@c.us"
  {
    MissingCharNotContained("15551234567", ContactMarker, '@');
    ContainsAppended("15551234567", ContactMarker);
  }
}
