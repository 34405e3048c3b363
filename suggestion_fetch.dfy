/** The search stage: how one reply of the suggestion service becomes the
    suggestion list and the error message the component shows. */
module SuggestionFetch {
  import opened AddressTypes
  import Decimal

  /** Searches are only sent for queries of at least this many UTF-16 code units. */
  const MinQueryLength := 3

  /** The JSON body of a 2xx search reply: `status` and `predictions`, either may be missing. */
  datatype SearchPayload = SearchPayload(status: Option<string>, predictions: Option<seq<Suggestion>>)

  /** What the search request produced. `SearchReply(code, None)` with a 2xx code is a body that
      `response.json()` cannot read; `SearchThrew` is a `fetch` that rejected. */
  datatype SearchResponse =
    | SearchReply(code: nat, payload: Option<SearchPayload>)
    | SearchThrew

  /** `data.status && data.status !== "OK" && data.status !== "ZERO_RESULTS"`:
      every status is rejected except a missing one, "", "OK" and "ZERO_RESULTS". */
  function ProviderRejects(status: Option<string>): (b: bool)
    ensures b <==> status.Some? && status.value !in {"", "OK", "ZERO_RESULTS"}
  {
    Truthy(status) && status.value != "OK" && status.value != "ZERO_RESULTS"
  }

  const HttpErrorSuffix := ": Failed to fetch address suggestions"
  const ProviderErrorPrefix := "Google API error: "
  const ConnectionErrorMessage := "Failed to connect to address service"

  /** `Error ${response.status}: Failed to fetch address suggestions`. */
  function HttpErrorMessage(code: nat): (msg: string)
    ensures |msg| > 6 + |HttpErrorSuffix|
    ensures msg[..6] == "Error " && msg[|msg| - |HttpErrorSuffix|..] == HttpErrorSuffix
    ensures Decimal.IsDigits(msg[6..|msg| - |HttpErrorSuffix|])
    ensures Decimal.DigitsValue(msg[6..|msg| - |HttpErrorSuffix|]) == code
  {
    var digits := Decimal.DecimalString(code);
    Decimal.DigitsValueOfDecimalString(code);
    var msg := "Error " + digits + HttpErrorSuffix;
    assert msg[6..|msg| - |HttpErrorSuffix|] == digits;
    msg
  }

  /** `Google API error: ${data.status}`. */
  function ProviderErrorMessage(status: string): (msg: string)
    ensures |msg| == |ProviderErrorPrefix| + |status|
    ensures msg[..|ProviderErrorPrefix|] == ProviderErrorPrefix && msg[|ProviderErrorPrefix|..] == status
  {
    ProviderErrorPrefix + status
  }

  /** What a finished search writes: the new suggestion list, and the error message it
      sets (None: the reply sets no error and `apiError` keeps its value). */
  datatype SearchOutcome = SearchOutcome(suggestions: seq<Suggestion>, apiError: Option<string>)

  /** The search succeeded: a readable 2xx reply whose status the provider does not reject. */
  predicate SearchSucceeded(resp: SearchResponse)
  {
    resp.SearchReply? && IsOkStatus(resp.code) && resp.payload.Some? && !ProviderRejects(resp.payload.value.status)
  }

  /** The outcome of the `try`/`catch` of `fetchSuggestions` once the request has been sent. */
  function SearchResult(resp: SearchResponse): (o: SearchOutcome)
    ensures o.apiError.None? <==> SearchSucceeded(resp)
    ensures o.apiError.Some? ==> o.suggestions == []
  {
    match resp
    case SearchThrew => SearchOutcome([], Some(ConnectionErrorMessage))
    case SearchReply(code, payload) =>
      if !IsOkStatus(code) then SearchOutcome([], Some(HttpErrorMessage(code)))
      else if payload.None? then SearchOutcome([], Some(ConnectionErrorMessage))
      else if ProviderRejects(payload.value.status) then
        SearchOutcome([], Some(ProviderErrorMessage(payload.value.status.value)))
      else SearchOutcome(if payload.value.predictions.Some? then payload.value.predictions.value else [], None)
  }

  // ---------------------------------------------------------------------------
  // Properties of the classification.

  /** On success the provider's candidates are shown exactly, in the provider's order;
      a missing `predictions` shows nothing. */
  lemma SuccessShowsPredictions(resp: SearchResponse)
    requires SearchSucceeded(resp)
    ensures var p := resp.payload.value.predictions;
            SearchResult(resp).suggestions == (if p.Some? then p.value else [])
  {
  }

  /** A non-2xx reply surfaces its status code, and only that code produces that message. */
  lemma HttpFailureNamesStatus(code: nat, payload: Option<SearchPayload>, other: nat)
    requires !IsOkStatus(code)
    ensures SearchResult(SearchReply(code, payload)) == SearchOutcome([], Some(HttpErrorMessage(code)))
    ensures HttpErrorMessage(other) == HttpErrorMessage(code) ==> other == code
  {
  }

  /** A `fetch` that throws, and a 2xx reply whose body cannot be read, both end in the
      `catch`: empty list and the connection-failure message. */
  lemma ConnectionFailureMessage(code: nat)
    ensures SearchResult(SearchThrew) == SearchOutcome([], Some(ConnectionErrorMessage))
    ensures IsOkStatus(code) ==> SearchResult(SearchReply(code, None)) == SearchOutcome([], Some(ConnectionErrorMessage))
  {
  }

  /** A provider rejection surfaces the provider's own status, and only that status produces that message. */
  lemma ProviderFailureNamesStatus(status: string, other: string)
    requires ProviderRejects(Some(status))
    ensures forall code: nat, predictions: Option<seq<Suggestion>> :: IsOkStatus(code) ==>
              SearchResult(SearchReply(code, Some(SearchPayload(Some(status), predictions)))).apiError
              == Some(ProviderErrorMessage(status))
    ensures ProviderErrorMessage(other) == ProviderErrorMessage(status) ==> other == status
  {
  }

  /** The three kinds of error message never coincide, so the text tells which path was taken. */
  lemma ErrorMessagesDistinct(code: nat, status: string)
    ensures HttpErrorMessage(code) != ProviderErrorMessage(status)
    ensures HttpErrorMessage(code) != ConnectionErrorMessage
    ensures ProviderErrorMessage(status) != ConnectionErrorMessage
  {
    assert HttpErrorMessage(code)[0] == 'E';
    assert ProviderErrorMessage(status)[0] == 'G';
    assert ConnectionErrorMessage[0] == 'F';
  }

  /** `ZERO_RESULTS` is not an error: no message, and the provider's (empty) list is shown. */
  lemma ZeroResultsIsNotAnError(code: nat)
    requires IsOkStatus(code)
    ensures SearchResult(SearchReply(code, Some(SearchPayload(Some("ZERO_RESULTS"), Some([]))))) == SearchOutcome([], None)
    ensures SearchResult(SearchReply(code, Some(SearchPayload(Some("ZERO_RESULTS"), None)))) == SearchOutcome([], None)
  {
  }

  /** `REQUEST_DENIED` is an error: empty list and a non-empty message. */
  lemma RequestDeniedIsAnError(code: nat, predictions: Option<seq<Suggestion>>)
    requires IsOkStatus(code)
    ensures var o := SearchResult(SearchReply(code, Some(SearchPayload(Some("REQUEST_DENIED"), predictions))));
            o.suggestions == [] && o.apiError == Some("Google API error: REQUEST_DENIED")
  {
    assert ProviderErrorMessage("REQUEST_DENIED") == "Google API error: REQUEST_DENIED";
  }

  /** A missing or empty provider status counts as success. */
  lemma FalsyStatusIsSuccess(code: nat, status: Option<string>, predictions: Option<seq<Suggestion>>)
    requires IsOkStatus(code) && !Truthy(status)
    ensures SearchResult(SearchReply(code, Some(SearchPayload(status, predictions)))).apiError == None
  {
  }
}
