/** Sequences of events driven against the component, and what they are proved to lead to.
    Each method plays the part of the user and of the network. */
module Scenarios {
  import opened AddressTypes
  import opened SuggestionFetch
  import opened DetailResolver
  import opened Autocomplete

  /** Debounce: typing `queries` in quick succession and then letting the timer fire
      sends at most one search, for the last text typed. */
  method KeystrokeBurst(ac: AddressAutocomplete, queries: seq<string>) returns (sent: bool)
    requires ac.Valid() && ac.mounted && |queries| > 0
    modifies ac
    ensures ac.Valid() && ac.pending == None && ac.inputValue == queries[|queries| - 1]
    ensures sent == (Utf16Length(queries[|queries| - 1]) >= MinQueryLength)
    ensures ac.requests == old(ac.requests) + (if sent then [queries[|queries| - 1]] else [])
  {
    var i := 0;
    while i < |queries|
      invariant 0 <= i <= |queries|
      invariant ac.Valid() && ac.mounted
      invariant ac.requests == old(ac.requests)
      invariant i > 0 ==> ac.pending == Some(queries[i - 1])
    {
      ac.InputChange(queries[i]);
      i := i + 1;
    }
    sent := ac.FireTimer();
  }

  /** Two searches overlap: "Main" is sent, then "Main St"; the newer reply arrives first.
      The first reply to arrive clears `loading` although "Main" is still outstanding, and
      the late reply for "Main" then replaces the list of "Main St"; if it fails it also
      replaces the error, and if it succeeds the error of "Main St" stays. */
  method OverlappingSearches(older: SearchResponse, newer: SearchResponse)
    returns (loadingWhileOlderOutstanding: bool, typed: string, shown: seq<Suggestion>, error: Option<string>)
    ensures !loadingWhileOlderOutstanding
    ensures typed == "Main St"
    ensures shown == SearchResult(older).suggestions
    ensures error == (if SearchSucceeded(older) then SearchResult(newer).apiError else SearchResult(older).apiError)
  {
    var ac := new AddressAutocomplete("");
    ac.InputChange("Main");
    var sentOlder := ac.FireTimer();
    ac.InputChange("Main St");
    var sentNewer := ac.FireTimer();
    assert ac.requests == ["Main", "Main St"];
    ac.FinishSearch(newer);
    assert ac.searchesInFlight == 1;
    loadingWhileOlderOutstanding := ac.loading;
    ac.FinishSearch(older);
    typed, shown, error := ac.inputValue, ac.suggestions, ac.apiError;
  }

  /** A lone successful search leaves no error: the error is cleared when the request is
      sent and the reply sets only the list. */
  method SingleSearchSucceeds(query: string, success: SearchResponse)
    returns (error: Option<string>, shown: seq<Suggestion>, loading: bool)
    requires Utf16Length(query) >= MinQueryLength && SearchSucceeded(success)
    ensures error == None && shown == SearchResult(success).suggestions && !loading
  {
    var ac := new AddressAutocomplete("");
    ac.InputChange(query);
    var _ := ac.FireTimer();
    ac.FinishSearch(success);
    error, shown, loading := ac.apiError, ac.suggestions, ac.loading;
  }

  /** A query shorter than three characters empties the list but sends nothing and
      leaves an earlier error message in place. */
  method ShortQueryKeepsError(failure: SearchResponse)
    returns (error: Option<string>, shown: seq<Suggestion>, sent: seq<string>)
    requires !SearchSucceeded(failure)
    ensures error == SearchResult(failure).apiError && error.Some?
    ensures shown == [] && sent == ["Main"]
  {
    var ac := new AddressAutocomplete("");
    ac.InputChange("Main");
    var _ := ac.FireTimer();
    ac.FinishSearch(failure);
    ac.InputChange("Ma");
    Utf16LengthOfBmpText("Ma");
    var _ := ac.FireTimer();
    error, shown, sent := ac.apiError, ac.suggestions, ac.requests;
  }

  /** After a failed search the typed text can be accepted as the address:
      one emission, the text as `fullAddress`, every other field empty, no place id. */
  method ManualEntryAfterFailure(failure: SearchResponse) returns (emitted: seq<Emission>, value: string)
    requires !SearchSucceeded(failure)
    ensures emitted == [Emission(AddressDetails("123 Fake St", "", "", "", "", ""), None)]
    ensures value == "123 Fake St"
  {
    var ac := new AddressAutocomplete("");
    ac.InputChange("123 Fake St");
    var _ := ac.FireTimer();
    ac.FinishSearch(failure);
    ac.ManualEntry();
    emitted, value := ac.emitted, ac.value;
  }

  /** Manual entry with nothing typed does nothing. */
  method ManualEntryWithoutText(defaultValue: string) returns (emitted: seq<Emission>, value: string)
    ensures emitted == [] && value == defaultValue
  {
    var ac := new AddressAutocomplete(defaultValue);
    ac.ManualEntry();
    emitted, value := ac.emitted, ac.value;
  }

  /** A failed detail lookup still completes the selection: the callback is called once,
      with the chosen text and empty fields, and the spinner is off. */
  method DetailFailureStillCompletes(placeId: string, failure: DetailResponse)
    returns (emitted: seq<Emission>, loading: bool, open: bool)
    requires placeId != "" && !DetailSucceeded(failure)
    ensures emitted == [Emission(AddressDetails("221B Baker Street", "", "", "", "", ""), Some(placeId))]
    ensures !loading && !open
  {
    var ac := new AddressAutocomplete("");
    ac.OpenChange(true);
    ac.Select("221B Baker Street", Some(placeId), failure);
    emitted, loading, open := ac.emitted, ac.loading, ac.open;
  }

  /** A successful detail lookup emits the mapped record with the place id. */
  method DetailSuccessEmitsMapping(placeId: string)
    returns (emitted: seq<Emission>, lookups: seq<string>)
    requires placeId != ""
    ensures emitted == [Emission(AddressDetails("10 Main St, Springfield", "10 Main St", "Springfield", "", "", ""), Some(placeId))]
    ensures lookups == [placeId]
  {
    var cs := [Component("10", ["street_number"]), Component("Main St", ["route"]), Component("Springfield", ["locality"])];
    var ac := new AddressAutocomplete("");
    ac.Select("10 Main St, Springfield", Some(placeId), DetailReply(200, Some(cs)));
    SpringfieldExample();
    emitted, lookups := ac.emitted, ac.lookups;
  }

  /** A suggestion without a place id is emitted directly: no detail request, `loading` untouched. */
  method SelectWithoutPlaceId(placeId: Option<string>, resp: DetailResponse)
    returns (emitted: seq<Emission>, lookups: seq<string>, loadingBefore: bool, loadingAfter: bool)
    requires !Truthy(placeId)
    ensures emitted == [Emission(AddressDetails("Main St", "", "", "", "", ""), placeId)]
    ensures lookups == [] && loadingAfter == loadingBefore && loadingAfter
  {
    var ac := new AddressAutocomplete("");
    ac.InputChange("Main");
    var _ := ac.FireTimer();
    loadingBefore := ac.loading;
    ac.Select("Main St", placeId, resp);
    emitted, lookups, loadingAfter := ac.emitted, ac.lookups, ac.loading;
  }

  /** Unmounting with a timer pending cancels it: nothing is left to fire and no search is sent. */
  method UnmountCancelsTimer(query: string) returns (pending: Option<string>, sent: seq<string>)
    ensures pending == None && sent == []
  {
    var ac := new AddressAutocomplete("");
    ac.InputChange(query);
    ac.Unmount();
    pending, sent := ac.pending, ac.requests;
  }

  /** Length is JavaScript's: two emoji are four code units, so they are searched for. */
  method TwoEmojiQuerySent() returns (sent: bool, requests: seq<string>)
    ensures sent && requests == ["\U{1F600}\U{1F600}"]
  {
    var ac := new AddressAutocomplete("");
    ac.InputChange("\U{1F600}\U{1F600}");
    TwoEmojiLength();
    sent := ac.FireTimer();
    requests := ac.requests;
  }
}
