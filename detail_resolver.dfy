/** The detail stage of a selection: the place-details response and the
    mapping of its `address_components` onto an `AddressDetails` record. */
module DetailResolver {
  import opened AddressTypes

  /** One entry of `result.address_components`. */
  datatype Component = Component(longName: string, types: seq<string>)

  /** What the detail request produced. `DetailReply(code, None)` is a reply whose
      body is not JSON or lacks `result.address_components`: reading it throws. */
  datatype DetailResponse =
    | DetailReply(code: nat, components: Option<seq<Component>>)
    | DetailThrew

  /** The response carries a component list the mapping can read. */
  predicate DetailSucceeded(resp: DetailResponse)
  {
    resp.DetailReply? && IsOkStatus(resp.code) && resp.components.Some?
  }

  const StreetNumberTag := "street_number"
  const RouteTag := "route"
  const LocalityTag := "locality"
  const StateTag := "administrative_area_level_1"
  const PostalCodeTag := "postal_code"
  const CountryTag := "country"

  /** `components.find(c => c.types.includes(tag))`, as an index. */
  function FindFirst(cs: seq<Component>, tag: string): (r: Option<nat>)
    ensures r.Some? ==> r.value < |cs| && tag in cs[r.value].types
    ensures r.Some? ==> forall j :: 0 <= j < r.value ==> tag !in cs[j].types
    ensures r.None? <==> forall j :: 0 <= j < |cs| ==> tag !in cs[j].types
  {
    if cs == [] then None
    else if tag in cs[0].types then Some(0)
    else match FindFirst(cs[1..], tag)
      case None => None
      case Some(i) => Some(i + 1)
  }

  /** `find(...)?.long_name || ""`. */
  function LongNameFor(cs: seq<Component>, tag: string): (name: string)
    ensures !HasTag(cs, tag) ==> name == ""
  {
    match FindFirst(cs, tag)
    case None => ""
    case Some(i) => cs[i].longName
  }

  /** The record built on a successful detail response. */
  function MapComponents(fullAddress: string, cs: seq<Component>): (a: AddressDetails)
    ensures a.fullAddress == fullAddress
  {
    AddressDetails(
      fullAddress,
      LongNameFor(cs, StreetNumberTag) + " " + LongNameFor(cs, RouteTag),
      LongNameFor(cs, LocalityTag),
      LongNameFor(cs, StateTag),
      LongNameFor(cs, PostalCodeTag),
      LongNameFor(cs, CountryTag))
  }

  /** The record `handleSelect` hands to `onAddressSelect`, on every path. */
  function SelectionRecord(selectedAddress: string, placeId: Option<string>, resp: DetailResponse): (a: AddressDetails)
    ensures a.fullAddress == selectedAddress
  {
    if !Truthy(placeId) then Unresolved(selectedAddress)
    else if DetailSucceeded(resp) then MapComponents(selectedAddress, resp.components.value)
    else Unresolved(selectedAddress)
  }

  // ---------------------------------------------------------------------------
  // An independent description of the lookup: the long names of all components
  // that carry the tag, in order; the lookup takes the first of them.

  function Matching(cs: seq<Component>, tag: string): (names: seq<string>)
  {
    if cs == [] then []
    else (if tag in cs[0].types then [cs[0].longName] else []) + Matching(cs[1..], tag)
  }

  /** A field is the long name of the first component carrying its tag, or "" when none does. */
  lemma {:induction false} LongNameForIsFirstMatch(cs: seq<Component>, tag: string)
    ensures LongNameFor(cs, tag) == if Matching(cs, tag) == [] then "" else Matching(cs, tag)[0]
  {
    if cs != [] && tag !in cs[0].types {
      LongNameForIsFirstMatch(cs[1..], tag);
      assert Matching(cs, tag) == Matching(cs[1..], tag);
      match FindFirst(cs[1..], tag)
      case None =>
      case Some(i) => assert cs[1..][i] == cs[i + 1];
    }
  }

  /** `find` looks no further than the first match: later components never change a field. */
  lemma {:induction false} LongNameForFirstMatchWins(cs: seq<Component>, more: seq<Component>, tag: string)
    requires HasTag(cs, tag)
    ensures LongNameFor(cs + more, tag) == LongNameFor(cs, tag)
  {
    if tag !in cs[0].types {
      assert (cs + more)[1..] == cs[1..] + more;
      var j :| 0 <= j < |cs| && tag in cs[j].types;
      assert tag in cs[1..][j - 1].types;
      LongNameForFirstMatchWins(cs[1..], more, tag);
      match FindFirst(cs[1..], tag)
      case None =>
      case Some(i) => assert cs[1..][i] == cs[i + 1];
    }
  }

  /** The component carries the tag somewhere in `cs`. */
  predicate HasTag(cs: seq<Component>, tag: string)
  {
    exists j :: 0 <= j < |cs| && tag in cs[j].types
  }

  /** Every tag the mapping looks for occurs in `cs`. */
  predicate HasAllTags(cs: seq<Component>)
  {
    && HasTag(cs, StreetNumberTag) && HasTag(cs, RouteTag) && HasTag(cs, LocalityTag)
    && HasTag(cs, StateTag) && HasTag(cs, PostalCodeTag) && HasTag(cs, CountryTag)
  }

  /** A component that carries none of the six tags the mapping looks for. */
  predicate Irrelevant(c: Component)
  {
    && StreetNumberTag !in c.types && RouteTag !in c.types && LocalityTag !in c.types
    && StateTag !in c.types && PostalCodeTag !in c.types && CountryTag !in c.types
  }

  /** A leading component without the tag is skipped by the lookup. */
  lemma LongNameForSkips(c: Component, cs: seq<Component>, tag: string)
    requires tag !in c.types
    ensures LongNameFor([c] + cs, tag) == LongNameFor(cs, tag)
  {
  }

  /** Components carrying no looked-for tag do not affect the record. */
  lemma IrrelevantComponentIgnored(fullAddress: string, c: Component, cs: seq<Component>)
    requires Irrelevant(c)
    ensures MapComponents(fullAddress, [c] + cs) == MapComponents(fullAddress, cs)
  {
    LongNameForSkips(c, cs, StreetNumberTag);
    LongNameForSkips(c, cs, RouteTag);
    LongNameForSkips(c, cs, LocalityTag);
    LongNameForSkips(c, cs, StateTag);
    LongNameForSkips(c, cs, PostalCodeTag);
    LongNameForSkips(c, cs, CountryTag);
  }

  /** Once every looked-for tag has appeared, further components do not change the record. */
  lemma MapComponentsStableUnderAppend(fullAddress: string, cs: seq<Component>, more: seq<Component>)
    requires HasAllTags(cs)
    ensures MapComponents(fullAddress, cs + more) == MapComponents(fullAddress, cs)
  {
    LongNameForFirstMatchWins(cs, more, StreetNumberTag);
    LongNameForFirstMatchWins(cs, more, RouteTag);
    LongNameForFirstMatchWins(cs, more, LocalityTag);
    LongNameForFirstMatchWins(cs, more, StateTag);
    LongNameForFirstMatchWins(cs, more, PostalCodeTag);
    LongNameForFirstMatchWins(cs, more, CountryTag);
  }

  /** Without a street number and a route the street is a single space, never "". */
  lemma StreetWithoutNumberOrRoute(fullAddress: string, cs: seq<Component>)
    requires forall j :: 0 <= j < |cs| ==> StreetNumberTag !in cs[j].types && RouteTag !in cs[j].types
    ensures MapComponents(fullAddress, cs).street == " "
  {
  }

  /** A successful detail lookup never yields the all-empty record, even with no components:
      its street always holds the separating space. */
  lemma MappedDiffersFromUnresolved(fullAddress: string, cs: seq<Component>)
    ensures MapComponents(fullAddress, cs) != Unresolved(fullAddress)
  {
  }

  /** The caller receives the all-empty record exactly when there is no place id or the
      detail request failed (non-2xx status, unreadable body, or an exception). */
  lemma SelectionUnresolvedIff(selectedAddress: string, placeId: Option<string>, resp: DetailResponse)
    ensures SelectionRecord(selectedAddress, placeId, resp) == Unresolved(selectedAddress)
        <==> !(Truthy(placeId) && DetailSucceeded(resp))
  {
  }

  /** With a place id and a readable reply, each field is the first component carrying its tag. */
  lemma SelectionRecordOnSuccess(selectedAddress: string, placeId: Option<string>, resp: DetailResponse)
    requires Truthy(placeId) && DetailSucceeded(resp)
    ensures var a := SelectionRecord(selectedAddress, placeId, resp);
            var cs := resp.components.value;
            && a.city == (if Matching(cs, LocalityTag) == [] then "" else Matching(cs, LocalityTag)[0])
            && a.state == (if Matching(cs, StateTag) == [] then "" else Matching(cs, StateTag)[0])
            && a.postalCode == (if Matching(cs, PostalCodeTag) == [] then "" else Matching(cs, PostalCodeTag)[0])
            && a.country == (if Matching(cs, CountryTag) == [] then "" else Matching(cs, CountryTag)[0])
            && a.street == (if Matching(cs, StreetNumberTag) == [] then "" else Matching(cs, StreetNumberTag)[0])
                           + " " + (if Matching(cs, RouteTag) == [] then "" else Matching(cs, RouteTag)[0])
  {
    var cs := resp.components.value;
    LongNameForIsFirstMatch(cs, StreetNumberTag);
    LongNameForIsFirstMatch(cs, RouteTag);
    LongNameForIsFirstMatch(cs, LocalityTag);
    LongNameForIsFirstMatch(cs, StateTag);
    LongNameForIsFirstMatch(cs, PostalCodeTag);
    LongNameForIsFirstMatch(cs, CountryTag);
  }

  /** A street number, a route and a locality fill street and city; the rest stay empty. */
  lemma SpringfieldExample()
    ensures MapComponents("10 Main St, Springfield",
              [Component("10", ["street_number"]), Component("Main St", ["route"]), Component("Springfield", ["locality"])])
            == AddressDetails("10 Main St, Springfield", "10 Main St", "Springfield", "", "", "")
  {
    var cs := [Component("10", ["street_number"]), Component("Main St", ["route"]), Component("Springfield", ["locality"])];
    assert cs[1..][1..] == [Component("Springfield", ["locality"])];
    assert "10" + " " + "Main St" == "10 Main St";
  }
}
