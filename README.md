# Address autocomplete: a Dafny model of the resolution state machine

This project models the logic of the `AddressAutocomplete` React component
(`components/ui/address-autocomplete.tsx`). As the user types, the component
debounces the input and queries a suggestion service. It shows the candidates
or an error. When the user picks a candidate, it fetches the place details,
maps the address components onto an `AddressDetails` record and hands that
record to the caller's `onAddressSelect` callback. A manual-entry button
accepts the typed text when the search has failed.

Network replies and timer firings are inputs here, not I/O:

- a search reply is a `SearchResponse`: an HTTP status with an optional readable JSON body (`status`, `predictions`), or a `fetch` that threw;
- a detail reply is a `DetailResponse`: an HTTP status with an optional readable component list, or a `fetch` that threw;
- the debounce timer is a one-query slot (`pending`) plus a `FireTimer` event.

Layout:

- `types.dfy` (`AddressTypes`): `Option`, `Suggestion`, `AddressDetails`, the emission log entry, the all-empty record, `response.ok`, JavaScript truthiness of strings and JavaScript's UTF-16 `length`.
- `decimal.dfy` (`Decimal`): how `${response.status}` writes a status code, and reading it back.
- `suggestion_fetch.dfy` (`SuggestionFetch`): what a search reply leaves in `suggestions` and `apiError`.
- `detail_resolver.dfy` (`DetailResolver`): the component-to-field mapping and the record each selection path emits.
- `autocomplete.dfy` (`Autocomplete`): the component as a class. Its fields are the React state, the timer slot and logs of what went out (search queries, detail lookups, `onAddressSelect` calls). Each handler is a method.
- `scenarios.dfy` (`Scenarios`): event sequences driven against the class, such as a burst of keystrokes, two overlapping searches and the manual-entry fallback.

`fetchSuggestions` is split at its `await`. `StartSearch` runs up to the request and `FinishSearch` runs once the reply is in. Other events can therefore happen in between. The code keeps no generation counter and never cancels a search, so `FinishSearch` writes whichever reply arrives. `Scenarios.OverlappingSearches` proves the consequences:

- a late reply for an older query is not discarded: it replaces the newer query's list; if it is a failure it also replaces the error, and if it succeeds the newer query's error stays, because a successful reply writes only the list;
- `loading` goes off with the first reply to arrive, while the other search is still outstanding.

`handleSelect` emits whatever text it is given, so an emitted `fullAddress` may be empty. Only manual entry guarantees a non-empty one.

The 3-character threshold is JavaScript's `query.length`, which counts UTF-16 code units. The model measures it with `Utf16Length`, where a character above U+FFFF counts 2.

## Model

| member | source | states |
|---|---|---|
| `AddressTypes.Utf16Length` | components/ui/address-autocomplete.tsx:55 | `query.length` counts UTF-16 code units: at least one and at most two per character |
| `AddressTypes.Utf16LengthOfBmpText` | components/ui/address-autocomplete.tsx:55 | for text without characters above U+FFFF, `length` equals the number of characters |
| `AddressTypes.TwoEmojiLength` | components/ui/address-autocomplete.tsx:55 | two emoji are two characters but four code units long |
| `AddressTypes.Truthy` | components/ui/address-autocomplete.tsx:110 | a string is falsy exactly when it is missing or empty, as `!placeId` and `data.status &&` test it |
| `AddressTypes.Unresolved` | components/ui/address-autocomplete.tsx:114 | the record of a selection that could not be resolved: the chosen text as `fullAddress`, every other field empty; `DetailResolver.SelectionUnresolvedIff` states when it is emitted |
| `Decimal.DecimalString` | components/ui/address-autocomplete.tsx:72 | the status code in the error message is a non-empty string of decimal digits with no leading zero |
| `Decimal.DigitsValueOfDecimalString` | components/ui/address-autocomplete.tsx:72 | reading the written status code back as a number gives the original code |
| `Decimal.DecimalStringInjective` | components/ui/address-autocomplete.tsx:72 | two different status codes are never written the same way |
| `SuggestionFetch.ProviderRejects` | components/ui/address-autocomplete.tsx:80 | a provider status is an error exactly when it is present, non-empty and neither `OK` nor `ZERO_RESULTS` |
| `SuggestionFetch.HttpErrorMessage` | components/ui/address-autocomplete.tsx:72 | the message is `Error `, the status code in decimal digits whose value is the code, and the fixed suffix; `HttpFailureNamesStatus` proves it identifies the code |
| `SuggestionFetch.ProviderErrorMessage` | components/ui/address-autocomplete.tsx:82 | the message is the fixed prefix followed by exactly the provider status; `ProviderFailureNamesStatus` proves it identifies the status |
| `SuggestionFetch.SearchResult` | components/ui/address-autocomplete.tsx:63-94 | a search reply sets no error exactly when it is a readable 2xx body whose status the provider does not reject; whenever an error is set, the suggestion list is empty |
| `SuggestionFetch.SuccessShowsPredictions` | components/ui/address-autocomplete.tsx:87 | on success the list is the provider's `predictions`, unchanged and in order, or empty when `predictions` is missing |
| `SuggestionFetch.HttpFailureNamesStatus` | components/ui/address-autocomplete.tsx:67-75 | a non-2xx reply, whatever its body, empties the list and sets `Error <status>: Failed to fetch address suggestions`, and that message identifies the status uniquely |
| `SuggestionFetch.ConnectionFailureMessage` | components/ui/address-autocomplete.tsx:77-91 | a `fetch` that throws, and a 2xx reply whose body cannot be read, both empty the list and set `Failed to connect to address service` |
| `SuggestionFetch.ProviderFailureNamesStatus` | components/ui/address-autocomplete.tsx:80-85 | a 2xx reply whose provider status is truthy and neither `OK` nor `ZERO_RESULTS` sets `Google API error: <status>`, and that message identifies the status uniquely |
| `SuggestionFetch.ErrorMessagesDistinct` | components/ui/address-autocomplete.tsx:67-91 | the HTTP, provider and connection error messages never coincide |
| `SuggestionFetch.ZeroResultsIsNotAnError` | components/ui/address-autocomplete.tsx:80-87 | `ZERO_RESULTS` leaves no error and an empty list, with or without `predictions` |
| `SuggestionFetch.RequestDeniedIsAnError` | components/ui/address-autocomplete.tsx:80-85 | `REQUEST_DENIED` empties the list and sets `Google API error: REQUEST_DENIED` |
| `SuggestionFetch.FalsyStatusIsSuccess` | components/ui/address-autocomplete.tsx:80 | a missing or empty provider status is treated as success |
| `DetailResolver.FindFirst` | components/ui/address-autocomplete.tsx:141-149 | the lookup finds the least index whose `types` include the tag, and finds nothing exactly when no component carries it |
| `DetailResolver.LongNameFor` | components/ui/address-autocomplete.tsx:141-149 | a tag no component carries gives `""`; `LongNameForIsFirstMatch` proves the field is otherwise the first match's `long_name` |
| `DetailResolver.MapComponents` | components/ui/address-autocomplete.tsx:138-150 | the mapped record keeps the selected text as `fullAddress`; `SelectionRecordOnSuccess`, `IrrelevantComponentIgnored`, `MapComponentsStableUnderAppend` and `MappedDiffersFromUnresolved` state how its other fields follow from the components |
| `DetailResolver.LongNameForIsFirstMatch` | components/ui/address-autocomplete.tsx:141-149 | each field is the `long_name` of the first of all components that carry its tag, or `""` when none does |
| `DetailResolver.LongNameForFirstMatchWins` | components/ui/address-autocomplete.tsx:141-149 | once a component with the tag has appeared, components appended after it never change the field |
| `DetailResolver.IrrelevantComponentIgnored` | components/ui/address-autocomplete.tsx:138-150 | a leading component that carries none of the six tags does not change the record |
| `DetailResolver.MapComponentsStableUnderAppend` | components/ui/address-autocomplete.tsx:138-150 | once all six tags have appeared, further components do not change the record |
| `DetailResolver.StreetWithoutNumberOrRoute` | components/ui/address-autocomplete.tsx:140-143 | with neither a street number nor a route, `street` is a single space, not empty |
| `DetailResolver.MappedDiffersFromUnresolved` | components/ui/address-autocomplete.tsx:138-150 | a mapped record always differs from the all-empty record, even with no components, because its street holds the space |
| `DetailResolver.SelectionRecord` | components/ui/address-autocomplete.tsx:109-166 | the record emitted on every selection path carries the selected text as `fullAddress` |
| `DetailResolver.SelectionUnresolvedIff` | components/ui/address-autocomplete.tsx:109-166 | the emitted record is the all-empty one exactly when there is no place id, or the detail reply is non-2xx, unreadable or an exception |
| `DetailResolver.SelectionRecordOnSuccess` | components/ui/address-autocomplete.tsx:138-154 | with a place id and a readable reply, city, state, postal code and country are each the first match of their tag or `""`, and street is the first street number, a space and the first route |
| `DetailResolver.SpringfieldExample` | components/ui/address-autocomplete.tsx:138-150 | a street number, a route and a locality give `street = "10 Main St"` and `city = "Springfield"`, with the other fields empty |
| `Autocomplete.AddressAutocomplete.constructor` | components/ui/address-autocomplete.tsx:38-44 | on mount: closed, `value` is the default value, an empty list, no spinner, no typed text, no error and no pending timer |
| `Autocomplete.AddressAutocomplete.InputChange` | components/ui/address-autocomplete.tsx:97-107 | records the typed text and replaces any pending timer by exactly one, which carries that text; nothing else changes |
| `Autocomplete.AddressAutocomplete.FireTimer` | components/ui/address-autocomplete.tsx:104-106 | the firing timer runs the search for the query it carries and leaves no timer pending |
| `Autocomplete.AddressAutocomplete.StartSearch` | components/ui/address-autocomplete.tsx:54-65 | a query under 3 UTF-16 code units empties the list, sends nothing and leaves `loading` and `apiError` as they were; a longer one turns `loading` on, clears `apiError` and sends exactly that query |
| `Autocomplete.AddressAutocomplete.FinishSearch` | components/ui/address-autocomplete.tsx:63-94 | whatever reply arrives sets the list as `SearchResult` classifies it; a failed reply also sets its error, a successful one leaves `apiError` as it was; `loading` ends off on every path |
| `Autocomplete.AddressAutocomplete.Select` | components/ui/address-autocomplete.tsx:109-167 | every path sets `value` to the selected text, closes the list and calls `onAddressSelect` exactly once with `SelectionRecord` and the given place id; a detail lookup is sent and `loading` ends off only when there is a place id |
| `Autocomplete.AddressAutocomplete.ManualEntry` | components/ui/address-autocomplete.tsx:170-179 | with typed text: `value` becomes the text, the list closes and the all-empty record with that text is emitted with no place id; with no text: nothing changes |
| `Autocomplete.AddressAutocomplete.OpenChange` | components/ui/address-autocomplete.tsx:188 | the popover's open state is set as requested |
| `Autocomplete.AddressAutocomplete.Unmount` | components/ui/address-autocomplete.tsx:46-52 | unmounting clears the pending timer, so it can never fire |
| `Scenarios.KeystrokeBurst` | components/ui/address-autocomplete.tsx:97-107 | any number of keystrokes followed by one timer firing sends at most one search, for the last text, and only when that text has at least 3 UTF-16 code units |
| `Scenarios.OverlappingSearches` | components/ui/address-autocomplete.tsx:54-95 | with two searches in flight, the first reply to arrive turns `loading` off while the other is outstanding; a late reply for the older query then sets the list although the newer text is typed, and the error is the older reply's if it failed, otherwise the newer reply's |
| `Scenarios.SingleSearchSucceeds` | components/ui/address-autocomplete.tsx:54-94 | one search of at least 3 code units followed by a successful reply leaves no error, shows the reply's list and ends with the spinner off |
| `Scenarios.ShortQueryKeepsError` | components/ui/address-autocomplete.tsx:55-58 | after a failed search, a 2-character query empties the list, sends nothing and keeps the earlier error message |
| `Scenarios.ManualEntryAfterFailure` | components/ui/address-autocomplete.tsx:170-179 | after a failed search, manual entry of "123 Fake St" emits once, with that `fullAddress`, every other field empty and no place id |
| `Scenarios.ManualEntryWithoutText` | components/ui/address-autocomplete.tsx:171 | manual entry with nothing typed emits nothing and keeps the value |
| `Scenarios.DetailFailureStillCompletes` | components/ui/address-autocomplete.tsx:124-133 | a failed detail lookup for "221B Baker Street" still emits once, with that text, empty fields and the place id; the list is closed and `loading` is off |
| `Scenarios.DetailSuccessEmitsMapping` | components/ui/address-autocomplete.tsx:120-154 | a successful detail lookup sends one lookup for the place id and emits the mapped record with that id |
| `Scenarios.SelectWithoutPlaceId` | components/ui/address-autocomplete.tsx:110-118 | a selection without a place id emits the all-empty record directly, sends no lookup and leaves `loading` as it was, even mid-search |
| `Scenarios.TwoEmojiQuerySent` | components/ui/address-autocomplete.tsx:55-65 | a query of two emoji is long enough to be searched for, because JavaScript counts four code units |
| `Scenarios.UnmountCancelsTimer` | components/ui/address-autocomplete.tsx:46-52 | typing and then unmounting leaves no pending timer and sends no search |

## Left out

- Rendering (the popover, command list, spinner, icons, labels and styling, lines 181-251) is presentation. The external `error` prop is only displayed. `onOpenChange` is kept as `OpenChange`.
- `fetch`, URL building with `encodeURIComponent`, `response.text()`, `response.json()` and `console.error` are I/O. Their results are the `SearchResponse` and `DetailResponse` inputs. The search log records the raw query, not the encoded URL.
- The 300 ms delay and wall-clock time are left out. A timer fires when `FireTimer` is called, and only while one is pending. After firing, the component's ref still holds the spent timer id. Clearing a spent timer does nothing, so the model empties the slot instead.
- The detail lookup in `Select` is one atomic step, so events that would run during its `await` are not modelled. The spinner shown during that await is therefore not observable here.
- React batches state updates and ignores them after unmount. Neither is modelled: a search reply that arrives after `Unmount` still updates the fields.
- An `onAddressSelect` callback that throws is left out. Every path assumes the callback returns normally.
- Malformed payloads are not modelled field by field. A body that is not JSON and a missing `result.address_components` throw inside the `try`, and appear as a reply with no readable body, which takes the same path as an exception. A component without `types` throws only if one of the six lookups reaches it before finding its tag; the model has no such component. A reply where a lookup would reach it is represented as unreadable. A reply where every lookup stops earlier maps as if the component were absent, which `LongNameForFirstMatchWins` and `MapComponentsStableUnderAppend` justify, but the caller must choose that representation.
- Autocomplete.AddressAutocomplete.StartSearch: text is modelled as Dafny strings, which hold only Unicode scalar values, so a query containing an unpaired surrogate (a valid JavaScript string) is not modelled. For such a query of 3 or more code units the component still turns `loading` on and clears the error (lines 60-61), but `encodeURIComponent` (line 65) throws inside the `try`: no request goes out, the list is emptied, `Failed to connect to address service` is shown (lines 88-91) and `loading` goes off (line 93). `AddressTypes.Utf16Length` is JavaScript's `length` only for strings without unpaired surrogates.
- HTTP status codes of both replies are modelled as natural numbers, and `response.ok` as the range 200-299.
