# Ecoleta "create collection point" form, in Dafny

This project models the form-state logic of the `CreatePoint` page of the
Ecoleta web client. On that page a user registers a waste-collection point:
they type the entity's name, e-mail and WhatsApp number, pick a Brazilian
state (UF) and city from the IBGE address service, click a spot on a map,
select the item categories the point accepts, and submit the record to the
backend.

- `selection.dfy` (module `Selection`) covers the list of selected item ids
  and the toggle applied when an item of the grid is clicked. It includes
  `findIndex` and `filter` as the page uses them, and the properties of
  repeated clicks.
- `regions.dfy` (module `Regions`) covers the IBGE lookups:
  - the `sigla` and `nome` projections of the responses;
  - the sentinel `"0"` that means "no state selected" and suppresses the
    city request;
  - the URL of the municipalities request for a given state.
- `create_point.dfy` (module `CreatePointForm`) holds the page itself: a
  class `CreatePoint` with one field per piece of state.
  - Each event handler is a method that replaces exactly one field and
    states that nothing else changed, through the `View()` record of all
    fields.
  - The two IBGE effects are methods that receive the service as a function
    from URL to response.
  - `HandleSubmit` builds the `POST points` body from the current state.
  - `SubmitUntouched`, `PickState` and `SubmitFilledIn` are client scenarios
    that drive the class through its contracts.

Three choices of the model follow the code's behaviour exactly:
- The initial marker position is `[0, 0]` (index.tsx:31-33). The coordinate
  at index.tsx:219 only centres the Leaflet view.
- The selection is an ordered list. A newly selected id goes to the end, and
  re-selecting an id moves it to the end (`Selection.DoubleTogglePresent`).
- `formData` is an object updated by a computed key. It is modelled as a
  `map<string, string>`, so an input name other than the three the page
  renders would add a key, exactly as the object spread does.

## Model

| member | source | states |
|---|---|---|
| `Selection.FindIndex` | src/pages/CreatePoint/index.tsx:92-94 | the result is -1 exactly when the id is absent; otherwise it is the first index holding the id |
| `Selection.Without` | src/pages/CreatePoint/index.tsx:97 | the id no longer occurs; every other id keeps its exact number of occurrences (multiset with the id's count set to 0) |
| `Selection.WithoutIsSubsequence` | src/pages/CreatePoint/index.tsx:97 | the filtered list is a subsequence of the old one, so the remaining ids keep their relative order |
| `Selection.WithoutAppend` | src/pages/CreatePoint/index.tsx:97 | filtering distributes over concatenation |
| `Selection.WithoutAbsent` | src/pages/CreatePoint/index.tsx:97 | filtering out an id that does not occur returns the list unchanged |
| `Selection.WithoutKeepsNoDuplicates` | src/pages/CreatePoint/index.tsx:97 | filtering keeps a duplicate-free list duplicate-free |
| `Selection.Toggle` | src/pages/CreatePoint/index.tsx:91-103 | the clicked id's membership flips and all other ids keep their membership; a present id loses every occurrence and the others keep their counts; an absent id is appended to the end with the earlier elements unchanged |
| `Selection.ToggleKeepsOrder` | src/pages/CreatePoint/index.tsx:96-99 | clicking a selected id leaves a subsequence of the old selection, so the other ids keep their relative order |
| `Selection.ToggleKeepsNoDuplicates` | src/pages/CreatePoint/index.tsx:91-103 | one click keeps a duplicate-free selection duplicate-free |
| `Selection.ToggleAllKeepsNoDuplicates` | src/pages/CreatePoint/index.tsx:91-103 | any sequence of clicks keeps a duplicate-free selection duplicate-free |
| `Selection.SelectionNeverHasDuplicates` | src/pages/CreatePoint/index.tsx:34 | from the initial empty selection, no sequence of clicks ever selects an id twice |
| `Selection.DoubleToggleAbsent` | src/pages/CreatePoint/index.tsx:96-101 | clicking an unselected id twice restores exactly the original list |
| `Selection.DoubleTogglePresent` | src/pages/CreatePoint/index.tsx:96-101 | clicking a selected id twice gives the filtered list with the id at the end; the same ids are present, and on a duplicate-free list with the same multiplicities |
| `Regions.UfCodes` | src/pages/CreatePoint/index.tsx:53 | the UF list has the response's length and holds each record's `sigla` in response order |
| `Regions.CityNames` | src/pages/CreatePoint/index.tsx:67 | the city list has the response's length and holds each record's `nome` in response order |
| `Regions.CitiesUrl` | src/pages/CreatePoint/index.tsx:59-65 | no request exactly when the selected UF is the sentinel `"0"`; otherwise the URL is the states URL, a slash, the selected UF and `/municipios` |
| `Regions.CitiesUrlDeterminesUf` | src/pages/CreatePoint/index.tsx:62-65 | two different UFs, the sentinel included, never produce the same request outcome |
| `CreatePointForm.UpdateField` | src/pages/CreatePoint/index.tsx:88 | the spread-with-key sets only that key; every other key keeps its value; no key is lost, so the three text fields stay present |
| `CreatePointForm.CreatePoint.constructor` | src/pages/CreatePoint/index.tsx:26-39 | initial state: no UFs, UF `"0"`, no cities, city `"0"`, position (0, 0), no selected items, empty name/email/whatsapp |
| `CreatePointForm.CreatePoint.HandleSelectedUf` | src/pages/CreatePoint/index.tsx:73-75 | only `selectedUf` changes, to the selected value; the selected city and the city list are left as they were |
| `CreatePointForm.CreatePoint.HandleSelectedCity` | src/pages/CreatePoint/index.tsx:77-79 | only `selectedCity` changes, to the selected value |
| `CreatePointForm.CreatePoint.HandleMapClick` | src/pages/CreatePoint/index.tsx:81-83 | only the position changes, to exactly the clicked (lat, lng) |
| `CreatePointForm.CreatePoint.HandleInputChange` | src/pages/CreatePoint/index.tsx:85-89 | only `formData` changes: the named key gets the value, every other key keeps its value, and for name/email/whatsapp the key set is unchanged |
| `CreatePointForm.CreatePoint.HandleSelectedItems` | src/pages/CreatePoint/index.tsx:91-103 | only the selection changes, to the toggle of the old selection; the clicked id's membership flips; the selection stays duplicate-free |
| `CreatePointForm.CreatePoint.LoadUfs` | src/pages/CreatePoint/index.tsx:47-57 | only the UF list changes; it becomes the `sigla` projection of the states response |
| `CreatePointForm.CreatePoint.ReloadCities` | src/pages/CreatePoint/index.tsx:59-71 | with UF `"0"` there is no request and nothing changes; otherwise one request is scoped to the selected UF and the city list is replaced wholesale by the `nome` projection of its answer |
| `CreatePointForm.CreatePoint.HandleSubmit` | src/pages/CreatePoint/index.tsx:105-123 | the payload copies name, email, whatsapp, UF, city, latitude (first coordinate), longitude (second coordinate) and the items in their current order, with no validation |
| `CreatePointForm.SubmitUntouched` | src/pages/CreatePoint/index.tsx:26-39 | submitting the untouched page sends empty strings, `"0"`/`"0"`, (0, 0) and `[]` as they are |
| `CreatePointForm.PickState` | src/pages/CreatePoint/index.tsx:59-71 | picking "MG" requests the municipalities of "MG" and offers exactly the names in the answer |
| `CreatePointForm.SubmitFilledIn` | src/pages/CreatePoint/index.tsx:105-123 | after filling the form, picking MG/Juiz de Fora, clicking the map and selecting item 1 (with item 2 clicked twice in between), the payload holds exactly those values and `items: [1]` |

## Left out

- Rendering: the JSX, styling, logo and icons (index.tsx:132-245), and the `includes` check that only marks selected items in the grid.
- The item catalogue (index.tsx:26, index.tsx:43-45): `GET items` fills a list that is only displayed. The ids the grid passes to the toggle are taken as arbitrary integers.
- Network I/O. Each IBGE request is a call of a `respond` function from URL to records, and the model keeps only the projection of the answer. `api.post('points', data)` is left out: `HandleSubmit` returns the body it would send.
- `event.preventDefault()` (index.tsx:106), `alert` and `history.push('/')` (index.tsx:127-129): browser and router side effects.
- Effect scheduling. React runs the city effect after the UF changes, asynchronously. The model calls `ReloadCities` explicitly. A slow answer for an earlier UF that overwrites a later one is not modelled, and neither is double submission.
- Floating point. Coordinates are exact `real` values because they are only stored and copied. The Leaflet map and tiles (index.tsx:218-228) are not modelled.
- Non-integer item ids. JavaScript numbers are modelled as `int`, the type the backend's ids have.
