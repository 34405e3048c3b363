/** The `AddressAutocomplete` component's state and event handlers. Network replies
    and timer firings are inputs: each `await` is a separate step whose result is
    passed in, so other events may run between a request and its reply. */
module Autocomplete {
  import opened AddressTypes
  import opened SuggestionFetch
  import opened DetailResolver

  class AddressAutocomplete {
    // React state of the component.
    var open: bool
    var value: string
    var suggestions: seq<Suggestion>
    var loading: bool
    var inputValue: string
    var apiError: Option<string>
    /** `debounceTimerRef.current`, as the query its scheduled callback will search;
        None when no timer is pending. */
    var pending: Option<string>
    var mounted: bool

    // What the component has done to the outside world.
    /** Queries sent to the suggestion service, oldest first. */
    var requests: seq<string>
    /** Place ids sent to the detail service, oldest first. */
    var lookups: seq<string>
    /** The calls of `onAddressSelect`, oldest first. */
    var emitted: seq<Emission>
    /** Searches sent whose replies have not arrived. */
    ghost var searchesInFlight: nat

    /** A pending timer always carries the text last typed, and none survives unmounting.
        Between events, `loading` is on only while a search waits for its reply: `handleSelect`
        also sets it during its detail request, but `Select` is one atomic step here. */
    ghost predicate Valid()
      reads this
    {
      && (pending.Some? ==> pending.value == inputValue)
      && (!mounted ==> pending.None?)
      && (loading ==> searchesInFlight > 0)
    }

    /** Mounting with `defaultValue`. */
    constructor (defaultValue: string)
      ensures Valid() && mounted
      ensures value == defaultValue && !open && suggestions == [] && !loading
      ensures inputValue == "" && apiError == None && pending == None
      ensures requests == [] && lookups == [] && emitted == [] && searchesInFlight == 0
    {
      open, value, suggestions, loading := false, defaultValue, [], false;
      inputValue, apiError, pending, mounted := "", None, None, true;
      requests, lookups, emitted := [], [], [];
      searchesInFlight := 0;
    }

    /** `handleInputChange`: record the text, cancel the pending timer, schedule one for `query`. */
    method InputChange(query: string)
      requires Valid() && mounted
      modifies this
      ensures Valid()
      ensures inputValue == query && pending == Some(query)
      ensures open == old(open) && value == old(value) && suggestions == old(suggestions)
      ensures loading == old(loading) && apiError == old(apiError) && mounted == old(mounted)
      ensures requests == old(requests) && lookups == old(lookups) && emitted == old(emitted)
      ensures searchesInFlight == old(searchesInFlight)
    {
      inputValue := query;
      pending := Some(query);
    }

    /** The debounce timer fires: its callback runs `fetchSuggestions` on the query it captured. */
    method FireTimer() returns (sent: bool)
      requires Valid() && pending.Some?
      modifies this
      ensures Valid() && pending == None
      ensures sent == (Utf16Length(old(pending).value) >= MinQueryLength)
      ensures requests == old(requests) + (if sent then [old(pending).value] else [])
      ensures sent ==> loading && apiError == None && suggestions == old(suggestions)
      ensures !sent ==> suggestions == [] && loading == old(loading) && apiError == old(apiError)
      ensures searchesInFlight == old(searchesInFlight) + (if sent then 1 else 0)
      ensures open == old(open) && value == old(value) && inputValue == old(inputValue)
      ensures mounted == old(mounted) && lookups == old(lookups) && emitted == old(emitted)
    {
      var query := pending.value;
      pending := None;
      sent := StartSearch(query);
    }

    /** `fetchSuggestions` up to its `await`: a query shorter than three UTF-16 code units
        empties the list and sends nothing; otherwise the spinner is shown, the error
        cleared and the request sent. */
    method StartSearch(query: string) returns (sent: bool)
      requires Valid()
      modifies this
      ensures Valid()
      ensures sent == (Utf16Length(query) >= MinQueryLength)
      ensures requests == old(requests) + (if sent then [query] else [])
      ensures sent ==> loading && apiError == None && suggestions == old(suggestions)
      ensures !sent ==> suggestions == [] && loading == old(loading) && apiError == old(apiError)
      ensures searchesInFlight == old(searchesInFlight) + (if sent then 1 else 0)
      ensures open == old(open) && value == old(value) && inputValue == old(inputValue)
      ensures pending == old(pending) && mounted == old(mounted)
      ensures lookups == old(lookups) && emitted == old(emitted)
    {
      if Utf16Length(query) < MinQueryLength {
        suggestions := [];
        sent := false;
        return;
      }
      loading := true;
      apiError := None;
      requests := requests + [query];
      searchesInFlight := searchesInFlight + 1;
      sent := true;
    }

    /** `fetchSuggestions` after its `await`: whichever search reply arrives is written,
        with no check that it belongs to the latest query. A successful reply sets only the
        list, so an error set meanwhile stays; `finally` clears `loading`. */
    method FinishSearch(resp: SearchResponse)
      requires Valid() && searchesInFlight > 0
      modifies this
      ensures Valid()
      ensures suggestions == SearchResult(resp).suggestions
      ensures apiError == (if SearchSucceeded(resp) then old(apiError) else SearchResult(resp).apiError)
      ensures !loading && searchesInFlight == old(searchesInFlight) - 1
      ensures open == old(open) && value == old(value) && inputValue == old(inputValue)
      ensures pending == old(pending) && mounted == old(mounted)
      ensures requests == old(requests) && lookups == old(lookups) && emitted == old(emitted)
    {
      var outcome := SearchResult(resp);
      if !SearchSucceeded(resp) {
        apiError := outcome.apiError;
      }
      suggestions := outcome.suggestions;
      loading := false;
      searchesInFlight := searchesInFlight - 1;
    }

    /** `handleSelect(selectedAddress, placeId)`, with `resp` the reply of the detail request
        (consulted only when a place id is given). Every path shows the choice, closes the
        list and calls `onAddressSelect` once with the original `placeId`. */
    method Select(selectedAddress: string, placeId: Option<string>, resp: DetailResponse)
      requires Valid()
      modifies this
      ensures Valid()
      ensures value == selectedAddress && !open
      ensures emitted == old(emitted) + [Emission(SelectionRecord(selectedAddress, placeId, resp), placeId)]
      ensures lookups == old(lookups) + (if Truthy(placeId) then [placeId.value] else [])
      ensures loading == (if Truthy(placeId) then false else old(loading))
      ensures suggestions == old(suggestions) && apiError == old(apiError) && inputValue == old(inputValue)
      ensures pending == old(pending) && mounted == old(mounted) && requests == old(requests)
      ensures searchesInFlight == old(searchesInFlight)
    {
      if !Truthy(placeId) {
        value := selectedAddress;
        open := false;
        emitted := emitted + [Emission(Unresolved(selectedAddress), placeId)];
        return;
      }
      loading := true;
      lookups := lookups + [placeId.value];
      var address;
      if DetailSucceeded(resp) {
        address := MapComponents(selectedAddress, resp.components.value);
      } else {
        // non-2xx reply, unreadable body or exception: keep the chosen text only
        address := Unresolved(selectedAddress);
      }
      value := selectedAddress;
      open := false;
      emitted := emitted + [Emission(address, placeId)];
      loading := false;
    }

    /** `handleManualEntry`: with typed text, accept it as the address; otherwise do nothing. */
    method ManualEntry()
      requires Valid()
      modifies this
      ensures Valid()
      ensures old(inputValue) == "" ==> value == old(value) && open == old(open) && emitted == old(emitted)
      ensures old(inputValue) != "" ==>
                value == old(inputValue) && !open && emitted == old(emitted) + [Emission(Unresolved(old(inputValue)), None)]
      ensures suggestions == old(suggestions) && loading == old(loading) && apiError == old(apiError)
      ensures inputValue == old(inputValue) && pending == old(pending) && mounted == old(mounted)
      ensures requests == old(requests) && lookups == old(lookups) && searchesInFlight == old(searchesInFlight)
    {
      if inputValue != "" {
        value := inputValue;
        open := false;
        emitted := emitted + [Emission(Unresolved(inputValue), None)];
      }
    }

    /** The popover's `onOpenChange={setOpen}`. */
    method OpenChange(isOpen: bool)
      requires Valid()
      modifies this`open
      ensures Valid() && open == isOpen
    {
      open := isOpen;
    }

    /** The effect cleanup on unmount: clear the pending timer so that it never fires. */
    method Unmount()
      requires Valid()
      modifies this
      ensures Valid() && pending == None && !mounted
      ensures open == old(open) && value == old(value) && suggestions == old(suggestions)
      ensures loading == old(loading) && inputValue == old(inputValue) && apiError == old(apiError)
      ensures requests == old(requests) && lookups == old(lookups) && emitted == old(emitted)
      ensures searchesInFlight == old(searchesInFlight)
    {
      pending := None;
      mounted := false;
    }
  }
}
