/** The request guards of the enqueue and finish handlers. A request field is
    `None` when the form did not carry it. */
module Validation {
  import opened External

  /** The longest message the enqueue handler accepts, in JavaScript string length. */
  const MaximumMessageLength := 32

  /** Why a request is answered 400: the two response texts of the handlers. */
  datatype Reason = InvalidParameters | InvalidMessageLength

  /** A field is truthy in JavaScript: present and not the empty string. */
  predicate Present(field: Option<string>)
  {
    field.Some? && field.value != ""
  }

  /** `!field` in JavaScript: an absent field and the empty string are
      falsy; every other string is truthy, including "0" and "false". */
  lemma TruthyStrings()
    ensures !Present(None) && !Present(Some(""))
    ensures Present(Some("0")) && Present(Some("false")) && Present(Some(" "))
  {
  }

  /** JavaScript's `length` of a string: the number of UTF-16 code units, so a
      character outside the Basic Multilingual Plane counts twice. */
  function Utf16Length(s: string): (n: nat)
    ensures |s| <= n <= 2 * |s|
    ensures (forall i :: 0 <= i < |s| ==> s[i] as int < 0x1_0000) ==> n == |s|
    ensures (forall i :: 0 <= i < |s| ==> s[i] as int >= 0x1_0000) ==> n == 2 * |s|
  {
    if s == [] then 0
    else (if s[0] as int < 0x1_0000 then 1 else 2) + Utf16Length(s[1..])
  }

  /** The enqueue guards, in the handler's order: a missing or empty message,
      then one longer than the maximum. Both look at the raw message, before
      it is escaped. */
  function CheckMessage(message: Option<string>): (r: Option<Reason>)
    ensures r == None <==> Present(message) && Utf16Length(message.value) <= MaximumMessageLength
    ensures r == Some(InvalidParameters) <==> !Present(message)
    ensures r != Some(InvalidParameters) ==> r == None || r == Some(InvalidMessageLength)
  {
    if !Present(message) then Some(InvalidParameters)
    else if Utf16Length(message.value) > MaximumMessageLength then Some(InvalidMessageLength)
    else None
  }

  /** The finish guards: both the id and the message must be present. */
  function CheckCompletion(id: Option<string>, message: Option<string>): (r: Option<Reason>)
    ensures r == None <==> Present(id) && Present(message)
    ensures r != None ==> r == Some(InvalidParameters)
  {
    if !Present(id) || !Present(message) then Some(InvalidParameters) else None
  }

  /** The length bound counts UTF-16 code units, not characters: seventeen
      emoji are seventeen characters but thirty-four code units, and are refused. */
  lemma AstralCharactersCountTwice()
    ensures CheckMessage(Some(seq(17, _ => '\U{1F600}'))) == Some(InvalidMessageLength)
    ensures CheckMessage(Some(seq(32, _ => 'a'))) == None
    ensures CheckMessage(Some(seq(33, _ => 'a'))) == Some(InvalidMessageLength)
  {
  }
}
