/** Values exchanged between the address autocomplete and its caller. */
module AddressTypes {

  /** A value that may be absent (`undefined` / `null` in the component). */
  datatype Option<+T> = None | Some(value: T)

  /** One candidate from the suggestion service: its display text and its place id. */
  datatype Suggestion = Suggestion(description: string, placeId: string)

  /** The structured address handed to `onAddressSelect`. */
  datatype AddressDetails = AddressDetails(
    fullAddress: string,
    street: string,
    city: string,
    state: string,
    postalCode: string,
    country: string)

  /** One invocation of `onAddressSelect(address, placeId)`. */
  datatype Emission = Emission(address: AddressDetails, placeId: Option<string>)

  /** The record emitted when no structured data is available:
      only the text the user chose, every other field empty. */
  function Unresolved(fullAddress: string): (a: AddressDetails)
    ensures a.fullAddress == fullAddress
    ensures a.street == a.city == a.state == a.postalCode == a.country == ""
  {
    AddressDetails(fullAddress, "", "", "", "", "")
  }

  /** `response.ok`: the HTTP status is in the 2xx range. */
  predicate IsOkStatus(code: int)
  {
    200 <= code <= 299
  }

  /** Number of UTF-16 code units JavaScript uses for the character:
      two (a surrogate pair) above the Basic Multilingual Plane, one otherwise. */
  function CodeUnits(c: char): (n: nat)
    ensures n == 1 || n == 2
  {
    if c as int >= 0x1_0000 then 2 else 1
  }

  /** JavaScript's `string.length`: the number of UTF-16 code units. */
  function Utf16Length(s: string): (n: nat)
    ensures |s| <= n <= 2 * |s|
  {
    if s == [] then 0 else Utf16Length(s[..|s| - 1]) + CodeUnits(s[|s| - 1])
  }

  /** For text within the Basic Multilingual Plane, `length` counts characters. */
  lemma {:induction false} Utf16LengthOfBmpText(s: string)
    requires forall i :: 0 <= i < |s| ==> s[i] as int < 0x1_0000
    ensures Utf16Length(s) == |s|
  {
    if s != [] {
      Utf16LengthOfBmpText(s[..|s| - 1]);
    }
  }

  /** Two emoji are four code units long, although they are two characters. */
  lemma TwoEmojiLength()
    ensures |"\U{1F600}\U{1F600}"| == 2 && Utf16Length("\U{1F600}\U{1F600}") == 4
  {
  }

  /** JavaScript truthiness of an optional string (`if (placeId)`, `data.status &&`):
      the only falsy ones are `undefined` and "". */
  function Truthy(s: Option<string>): (b: bool)
    ensures b <==> s !in {None, Some("")}
  {
    s.Some? && s.value != ""
  }
}
