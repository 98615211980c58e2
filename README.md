# Gallery admin composables, modelled in Dafny

This project models the logic layer of a gallery catalogue admin page: the four composables
that own the artwork, exhibition and special-lecture lists, and the search / "load more"
view that every list page puts in front of them.

- `filter_and_pagination.dfy` (`FilterAndPagination`). This is `useFilterAndPagination`:
  - a case-insensitive substring filter over a fixed list of search keys;
  - a prefix of `currentPage * 5` filtered items, and `hasMore`;
  - a latest-wins debounce of the search term.

  The debounce is a pure `Step`/`Run` over a `SearchState` with two explicit events: the user
  sets the term, and the 300 ms timer fires. The `SearchPager` class holds the refs and moves
  by exactly those steps.
- `artworks.dfy` (`Artworks`). This is `useArtworkData`:
  - load, which sorts the fetched array in place by descending `YS` code (an insertion sort
    on an `array`) and then normalises `year`, `buyPrice` and `sellPrice`;
  - the `nextArtworkCode` reduction;
  - add with duplicate-code rejection;
  - start, save (`Object.assign` of the normalised draft) and cancel editing;
  - delete gated by the answer to the confirmation;
  - the internal and external export projections.
- `exhibitions.dfy` (`Exhibitions`) and `lectures.dfy` (`Lectures`). These are
  `useExhibitionData` and `useLectureData`, each with its own image base URL, `add`, the
  fixed-subset `save` and `downloadJson`.
- `image_files.dfy` (`ImageFiles`). The image-reference helpers those two share line for
  line:
  - `extractFilenameWithoutExtension`;
  - `generateFullImageUrl` under a given base;
  - the load-time resolution of `imageFile` and `image`;
  - the download projection.
- `catalog.dfy` (`Catalog`). What all three lists share:
  - the fetch outcome;
  - the item object `Entry` (a class whose `fields` the methods update in place, plus
    `isEditing`, `editedData` and `originalDataCopy`);
  - its start and cancel steps.
- `js_values.dfy` (`JsValues`), `strings.dfy` (`Strings`), `sequences.dfy` (`Sequences`) and
  `wrappers.dfy` (`Wrappers`). The JavaScript values and coercions the code relies on:
  - truthiness, `Number(...)`, `String(...)`, `===`, `parseInt`, `toLowerCase`;
  - `split`, `includes`, `endsWith` and `replace`;
  - sequence and `Option`/`Result` helpers.

A JSON object is a `map<string, Value>`. A key that is absent stands for `undefined`, which
also matches what `JSON.stringify` writes. An expression that would throw a `TypeError` (a
truthy non-string `imageFile` or `image` reaching `endsWith` or `split`) yields `Err`. The
operation then changes exactly what the source changes before the throw, which is nothing.
A field value is a string, an integer, `NaN` or `null`. Booleans, arrays and nested objects
are outside the model, so what `Number(true)` or `String([1, 2])` would give is not covered.

Nothing resets `currentPage`: a new search term keeps the page it had, and only `loadMore`
writes it. The model follows the code, so `SetSearchTerm` and `FireTimer` leave
`currentPage` as it was.

## Model

| member | source | states |
|---|---|---|
| FilterAndPagination.MatchesAny | src/composables/useFilterAndPagination.js:29-35 | an item matches iff some search key is present, not null, and its lower-cased string contains the lower-cased term |
| FilterAndPagination.KeepMatching | src/composables/useFilterAndPagination.js:28-36 | the kept items are an order-preserving subsequence of the items, every kept item matches, and every matching item is kept as often as it occurs |
| FilterAndPagination.FilteredItems | src/composables/useFilterAndPagination.js:21-37 | an empty debounced term gives the items exactly; otherwise the result is the in-order subsequence of exactly the matching items |
| FilterAndPagination.NullFieldsNeverMatch | src/composables/useFilterAndPagination.js:30-33 | an item whose search keys are all null or undefined is never kept for a non-empty term |
| FilterAndPagination.DisplayedItems | src/composables/useFilterAndPagination.js:39-41 | the displayed items are the prefix of the filtered items of length min(page * 5, number filtered) |
| FilterAndPagination.HasMore | src/composables/useFilterAndPagination.js:43-45 | there is more iff page * 5 is below the number of filtered items |
| FilterAndPagination.LoadMoreNeverShrinks | src/composables/useFilterAndPagination.js:39-49 | one more page keeps the displayed list as a prefix of the new one; it grows while there is more and stays the same once there is none |
| FilterAndPagination.Step | src/composables/useFilterAndPagination.js:9-16 | a term change sets the live term and keeps the debounced one, and schedules the new term unless it equals the live term; a timer firing makes a pending term the debounced term and clears it; the settled invariant is kept |
| FilterAndPagination.Run | src/composables/useFilterAndPagination.js:9-16 | without a timer firing the debounced term is unchanged; the debounced term and any pending term come from the start state or from a term the user set; the live term is the last one set |
| FilterAndPagination.RunKeepsSettled | src/composables/useFilterAndPagination.js:9-16 | every event sequence keeps the invariant "the pending update carries the live term, or the debounced term is the live term" |
| FilterAndPagination.KeystrokesLeaveDebouncedAlone | src/composables/useFilterAndPagination.js:9-16 | a burst of term changes never changes the debounced term and leaves the last term typed as the live term |
| FilterAndPagination.LatestTermWins | src/composables/useFilterAndPagination.js:9-16 | after a burst of term changes, the timer applies the last term set and no update stays pending; earlier terms are never applied |
| FilterAndPagination.SearchPager.constructor | src/composables/useFilterAndPagination.js:5-19 | both terms start empty, nothing is pending, the page starts at 1 |
| FilterAndPagination.SearchPager.SetSearchTerm | src/composables/useFilterAndPagination.js:9-16 | the watcher replaces any pending update with one carrying the new term, and the page is unchanged |
| FilterAndPagination.SearchPager.FireTimer | src/composables/useFilterAndPagination.js:13-15 | a pending term becomes the debounced term, and the page is unchanged |
| FilterAndPagination.SearchPager.Filtered | src/composables/useFilterAndPagination.js:21-37 | all items for an empty debounced term; otherwise the in-order subsequence of exactly the items matching the debounced term, each kept as often as it occurs |
| FilterAndPagination.SearchPager.Displayed | src/composables/useFilterAndPagination.js:39-41 | a prefix of the filtered items of length min(currentPage * 5, number filtered) |
| FilterAndPagination.SearchPager.MoreToShow | src/composables/useFilterAndPagination.js:43-45 | true iff currentPage * 5 is below the number filtered, that is, iff the displayed items are not all the filtered ones |
| FilterAndPagination.SearchPager.LoadMore | src/composables/useFilterAndPagination.js:47-49 | the page rises by exactly one and the search state is unchanged |
| JsValues.NumericOrNull | src/composables/useArtworkData.js:27-29 | the result is null iff the field is falsy or undefined, and otherwise `Number` of the field |
| Artworks.NormaliseArtwork | src/composables/useArtworkData.js:25-29 | `year`, `buyPrice` and `sellPrice` are always present, null exactly when falsy, never strings; every other field is unchanged |
| Artworks.NormaliseIdempotentIff | src/composables/useArtworkData.js:86-88 | normalising an already normalised item changes nothing iff none of its numeric fields came out as 0 or NaN |
| Artworks.CodeNumber | src/composables/useArtworkData.js:21 | a code of the form `YS<digits>` is read as the number its digits spell |
| Artworks.CodeRank | src/composables/useArtworkData.js:21-22 | the sort key: the `YS<digits>` suffix where there is one, and 0 where `parseInt` reads no number |
| Artworks.NormalisePreservesRank | src/composables/useArtworkData.js:20-43 | normalising an item never changes its sort key |
| Artworks.SortDescBy | src/composables/useArtworkData.js:20-23 | after the in-place sort the array is a permutation of its old contents, with non-increasing keys |
| Artworks.NormalisePreservesOrder | src/composables/useArtworkData.js:20-43 | normalising after sorting keeps the descending code order |
| Artworks.SortAndNormalise | src/composables/useArtworkData.js:20-43 | the loaded records are a permutation of the normalised fetched records, as many, sorted by descending code, each with numeric fields |
| Artworks.ArtworkStore.constructor | src/composables/useArtworkData.js:4-6 | the list starts empty, loading starts true and there is no error |
| Artworks.ArtworkStore.Load | src/composables/useArtworkData.js:12-50 | a failed fetch sets the error and keeps the list; otherwise N records give N fresh idle items, a permutation of the normalised records, sorted by descending code, with numeric fields; loading ends false |
| Artworks.CodeSuffix | src/composables/useArtworkData.js:54-55 | whenever `String(code)` is `YS` followed by a non-empty digit string d, the suffix is the number d spells; a suffix exists only for such codes |
| Artworks.MaxPresent | src/composables/useArtworkData.js:53-56 | the `Math.max` reduction from 0: the result bounds every number present and is either 0 or one of them |
| Artworks.MaxCodeSuffix | src/composables/useArtworkData.js:53-56 | the result bounds every `YS<digits>` suffix and is either 0 or one of them |
| Artworks.NextCode | src/composables/useArtworkData.js:52-58 | the code starts with `YS`, and is `YS1` when no code has the `YS<digits>` form |
| Artworks.YsCodeSuffix | src/composables/useArtworkData.js:54-57 | `YS` plus the decimal form of n matches the code pattern with suffix n |
| Artworks.NextCodeSuffix | src/composables/useArtworkData.js:52-58 | the generated code's suffix is one more than the largest existing suffix |
| Artworks.NextCodeIsFresh | src/composables/useArtworkData.js:52-61 | no existing item's code is `===` to the generated code, so adding with it succeeds |
| Artworks.ExampleSuffixes | src/composables/useArtworkData.js:54-55 | YS3 and YS7 have suffixes 3 and 7, and A12 has none |
| Artworks.NextCodeExample | src/composables/useArtworkData.js:52-58 | codes YS3, YS7 and A12 give YS8 |
| Artworks.ArtworkStore.NextArtworkCode | src/composables/useArtworkData.js:52-61 | the current list never holds the generated code |
| Artworks.CodeTaken | src/composables/useArtworkData.js:61 | a code equal to some item's code counts as taken unless it is NaN, which `===` never matches; an undefined code is taken iff some item has no code |
| Artworks.ArtworkStore.AddArtwork | src/composables/useArtworkData.js:60-77 | returns true iff no item's code is `===` the new code; on false nothing changes; on true a fresh idle item holding the raw data is prepended and the old items follow in order |
| Artworks.ArtworkStore.StartEditingArtwork | src/composables/useArtworkData.js:79-83 | the snapshot and the draft are copies of the committed fields, editing is on, and the fields are unchanged |
| Artworks.SavedArtwork | src/composables/useArtworkData.js:86-90 | the committed fields become the old fields overwritten by the normalised draft; the keys are the union, and the numeric fields are present and never strings |
| Artworks.SaveCommitsDraft | src/composables/useArtworkData.js:79-95 | when the draft still has every committed field, as after a start, the new fields equal the normalised draft |
| Artworks.ArtworkStore.SaveEditedArtwork | src/composables/useArtworkData.js:85-95 | the draft is normalised and assigned over the item, editing is off, the snapshot is the new committed state, and the fields equal the draft whenever the draft kept every field |
| Artworks.ArtworkStore.CancelEditingArtwork | src/composables/useArtworkData.js:97-101 | the committed fields and the snapshot are unchanged, the draft is the snapshot again, and editing is off |
| Artworks.WithoutCode | src/composables/useArtworkData.js:105 | the remaining items are an order-preserving subsequence, none has a code `===` the target, and every other item is kept as often as it occurred |
| Artworks.ArtworkStore.DeleteArtwork | src/composables/useArtworkData.js:103-108 | a declined delete changes nothing; a confirmed one keeps exactly the items whose code is not `===` the target's |
| Artworks.Projection | src/composables/useArtworkData.js:115-139 | only the listed keys are emitted; numeric fields and `setName` always appear, and the other fields only when defined |
| Artworks.InternalRecord | src/composables/useArtworkData.js:111-140 | exactly the ten internal fields; the numeric ones renormalised, `setName` or null, the rest copied when defined |
| Artworks.ExternalRecord | src/composables/useArtworkData.js:157-181 | only the seven public fields, never `buyPrice`, `sellPrice`, `stockDate` or `imageUrl` |
| Artworks.ExternalIsInternalWithoutPrivate | src/composables/useArtworkData.js:111-181 | the external record is the internal one without `buyPrice`, `sellPrice` and `stockDate` |
| Artworks.ArtworkStore.DownloadInternalJson | src/composables/useArtworkData.js:111-140 | one internal record per item, in list order, without changing the list |
| Artworks.ArtworkStore.DownloadExternalJson | src/composables/useArtworkData.js:157-181 | one external record per item, in list order, none with prices or stock date |
| Catalog.NewEntries | src/composables/useArtworkData.js:25-43 | one fresh, idle item per record, in order, whose fields are that record |
| Catalog.Entry.constructor | src/composables/useArtworkData.js:66-71 | a new item holds the record as its fields and as both its draft and snapshot, and is not editing |
| Catalog.Entry.StartEditing | src/composables/useArtworkData.js:79-83 | snapshot and draft are the committed fields, editing is on |
| Catalog.Entry.CancelEditing | src/composables/useArtworkData.js:97-101 | the draft is restored from the snapshot, editing is off, fields untouched; after a start, the draft is the committed state again |
| ImageFiles.ExtractFilenameWithoutExtension | src/composables/useExhibitionData.js:11-38 | empty for an empty URL; never contains `?`; for a raw-host URL, the last path segment of the URL without its query; else for a `/blob/` URL, the last segment after the marker; else the URL without its query; in each case less exactly one trailing `.png` when there is one |
| ImageFiles.FullImageUrl | src/composables/useExhibitionData.js:40-47 | empty iff the name is empty; otherwise base + name, ending in `.png`, which is never doubled |
| ImageFiles.ExtractInvertsFullImageUrl | src/composables/useExhibitionData.js:11-47 | under a raw-host base, a name without `/`, `?` or `.png` survives the trip to a URL and back |
| ImageFiles.ResolveImageFile | src/composables/useExhibitionData.js:59-66 | a truthy `imageFile` is taken as it is; it throws iff there is no truthy `imageFile` and `image` is truthy but not a string; any other name it produces is a string without `?` |
| ImageFiles.ResolveRecoversFileName | src/composables/useExhibitionData.js:11-66 | an item with no `imageFile` and an `image` built from a bare name under a raw-host base resolves to that name |
| ImageFiles.GenerateFromValue | src/composables/useExhibitionData.js:40-47 | throws iff the value is truthy and not a string; a falsy value gives the empty URL |
| ImageFiles.WithImageUrl | src/composables/useExhibitionData.js:58-85 | one loaded record: every raw field kept, `imageFile` the resolved name, `image` its URL; throws exactly when resolving or generating does |
| ImageFiles.LoadAll | src/composables/useExhibitionData.js:58-85 | N records give N records, each the mapping of its raw record; any throwing record makes the whole mapping throw |
| ImageFiles.LoadAllConsistent | src/composables/useExhibitionData.js:58-85 | every loaded record has a string `imageFile` and an `image` equal to its URL |
| ImageFiles.AddedRecord | src/composables/useExhibitionData.js:94-101 | the new record keeps the raw fields, with `imageFile` set to `imageFile` or `''` and `image` set to its URL; it throws iff the file name is truthy and not a string |
| ImageFiles.ImageFileOrEmpty | src/composables/useExhibitionData.js:95 | the result is truthy iff `imageFile` is, and then it is `imageFile`; it is a string unless `imageFile` is a truthy non-string |
| ImageFiles.ExportRecord | src/composables/useExhibitionData.js:160-166 | drops `image` and the three transient keys, keeps every other field, and always emits `imageFile` as `imageFile` or `''` |
| Exhibitions.ExhibitionBaseIsRaw | src/composables/useExhibitionData.js:4 | the exhibition base URL is on the raw-content host, has no query and ends in `/` |
| Exhibitions.GenerateFullImageUrl | src/composables/useExhibitionData.js:40-47 | empty for an empty name; otherwise the exhibition base, the name and a single `.png` |
| Exhibitions.ExhibitionImageRoundTrip | src/composables/useExhibitionData.js:11-47 | a name without `/`, `?` or `.png` comes back unchanged from its exhibition URL |
| Exhibitions.SavedExhibition | src/composables/useExhibitionData.js:136-144 | `title`, `date` and `desc` come from the draft, `imageFile` is the draft's or `''`, `image` is absent, every other field is unchanged |
| Exhibitions.ExhibitionStore.constructor | src/composables/useExhibitionData.js:7-9 | the list starts empty, loading starts true and there is no error |
| Exhibitions.ExhibitionStore.Load | src/composables/useExhibitionData.js:50-92 | a failed fetch or a throwing record sets the error and keeps the list; otherwise N records give N fresh idle items in order, and the list invariant holds; loading ends false |
| Exhibitions.ExhibitionStore.AddExhibition | src/composables/useExhibitionData.js:94-124 | with no duplicate check, returns true and prepends a fresh idle item with the resolved file and URL; a throwing file name changes nothing; the list invariant is kept |
| Exhibitions.ExhibitionStore.StartEditingExhibition | src/composables/useExhibitionData.js:126-130 | snapshot and draft are the committed fields, editing is on, the list invariant is kept |
| Exhibitions.ExhibitionStore.SaveEditedExhibition | src/composables/useExhibitionData.js:132-151 | commits the saved exhibition, ends editing and snapshots it, keeping the list invariant; a throwing file name changes nothing |
| Exhibitions.ExhibitionStore.CancelEditingExhibition | src/composables/useExhibitionData.js:153-157 | committed fields unchanged, draft restored from the snapshot, editing off |
| Exhibitions.ExhibitionStore.DownloadJson | src/composables/useExhibitionData.js:159-166 | one exported record per item in order; under the list invariant every `imageFile` is a string |
| Lectures.LectureBaseIsRaw | src/composables/useLectureData.js:5 | the lecture base URL is on the raw-content host, has no query and ends in `/` |
| Lectures.GenerateFullImageUrl | src/composables/useLectureData.js:44-50 | empty for an empty name; otherwise the lecture base, the name and a single `.png` |
| Lectures.LectureImageRoundTrip | src/composables/useLectureData.js:14-50 | a name without `/`, `?` or `.png` comes back unchanged from its lecture URL |
| Lectures.SavedLecture | src/composables/useLectureData.js:125-133 | `title`, `SLI` and `date` come from the draft, `imageFile` is the draft's or `''`, `image` is its URL, every other field is unchanged; throws iff the file name is truthy and not a string |
| Lectures.LectureStore.constructor | src/composables/useLectureData.js:9-11 | the list starts empty, loading starts true and there is no error |
| Lectures.LectureStore.Load | src/composables/useLectureData.js:53-97 | a failed fetch or a throwing record sets the error and keeps the list; otherwise N records give N fresh idle items in order, each `image` the URL of its `imageFile`; loading ends false |
| Lectures.LectureStore.AddLecture | src/composables/useLectureData.js:99-117 | with no duplicate check, returns true and prepends a fresh idle item with the resolved file and URL; a throwing file name changes nothing; the list invariant is kept |
| Lectures.LectureStore.StartEditingLecture | src/composables/useLectureData.js:119-123 | snapshot and draft are the committed fields, editing is on, the list invariant is kept |
| Lectures.LectureStore.SaveEditedLecture | src/composables/useLectureData.js:125-142 | commits the saved lecture, ends editing and snapshots it, keeping `image` equal to the URL of `imageFile`; a throwing file name changes nothing |
| Lectures.LectureStore.CancelEditingLecture | src/composables/useLectureData.js:144-148 | committed fields unchanged, draft restored from the snapshot, editing off |
| Lectures.LectureStore.DownloadJson | src/composables/useLectureData.js:150-157 | one exported record per item in order, without `image` or the transient keys; under the list invariant every `imageFile` is a string |

## Left out

- Fetching (`fetch`, `onMounted`, `async`/`await`). The response becomes a `Fetch` parameter. The failure path is modelled as "error set, list unchanged, loading false", and the error is a message string rather than an `Error` object.
- `alert`, `console.log` and `console.error`. They are output only. `confirm` is the `confirmed` parameter of `DeleteArtwork`.
- `Blob`, `URL.createObjectURL`, the anchor click and `JSON.stringify` in the downloads. They are browser I/O, so only the projected data is modelled. Two serialisation effects are not modelled: `JSON.stringify` writes `NaN` as `null`, and it keeps key order.
- Vue reactivity (`ref`, `computed`, `watch`). Refs are class fields and computed values are functions. The watcher is `SetSearchTerm`, which runs only when the term changes.
- Timer timing. The 300 ms delay is the explicit `TimerFires` event. `clearTimeout` is the replacement of the pending term.
- JsValues.StringToNumber: covers the empty string, and integer digit strings with an optional sign. Floating-point strings, surrounding whitespace, hexadecimal and `Infinity` become `NaN` here, and numbers are integers. Precision above 2^53 is not modelled.
- Strings.ParseInt: no leading whitespace skipping and no radix prefixes.
- Artworks.CodeSuffix: reads the digits after `YS` as an exact natural number. The source's `parseInt(match[1])` gives a double, which is exact only below 2^53 and rounds above it.
- Artworks.CodeNumber: the `parseInt` sort key is an exact integer here. In the source it is a double, which rounds once the number exceeds 2^53.
- Artworks.CodeRank: compares exact suffixes. In the source the comparator subtracts doubles, so two codes whose suffixes round to the same double above 2^53 compare equal.
- Artworks.SortAndNormalise: the strictly ordered result between distinct suffixes holds in the source only below 2^53. Above it, suffixes that round together tie, and the stable sort keeps their input order.
- Artworks.ArtworkStore.Load: its descending-code order holds in the source only for suffixes below 2^53, for the same reason as SortAndNormalise.
- Artworks.NextCodeSuffix: the generated suffix is the largest suffix plus one exactly. In the source `currentMaxNum + 1` is a double sum, which stays at 2^53 when the largest suffix is 2^53.
- Artworks.NextCodeIsFresh: holds in the source only while the largest suffix is below 2^53. For an existing code `YS9007199254740992` the source generates that same code, and `addArtwork` then rejects it.
- Artworks.ArtworkStore.NextArtworkCode: its freshness promise has the same 2^53 bound as NextCodeIsFresh.
- Artworks.NextCode: renders the suffix as plain decimal digits. The source's template literal writes numbers from 10^21 upward in exponent form (`YS1e+21`).
- Strings.Lower: lower-cases ASCII letters only. Unicode case mapping is not modelled.
- Catalog.Entry: keeps `isEditing`, `editedData` and `originalDataCopy` apart from the domain fields. In the source, the spreads also copy these transient members into snapshots, drafts and (through `Object.assign`) back into the item. The model does not track those nested copies. A raw record that itself carries keys with those names is not modelled either.
- Artworks.ArtworkStore.SaveEditedArtwork: states that the draft afterwards is the normalised draft. In the source, `Object.assign` then also overwrites the item's draft with the draft that was nested inside it when editing started. That stale copy is not observable until the next start replaces it.
- Exhibitions.SavedExhibition and Lectures.SavedLecture: a draft field that is `undefined` makes the committed key absent rather than present with the value `undefined`. The two are indistinguishable in the download.
- Artworks.SortDescBy: ranks a code whose number `parseInt` cannot read as 0. In the source the comparator then returns `NaN`, and the resulting order is left to the engine. Sort stability is not stated.
- FilterAndPagination: the filter works on the items' domain-field maps, not on the item objects themselves.
- `src/router/index.js` and `src/main.js`: framework wiring with no logic, and not part of this model.
