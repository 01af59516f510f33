# kerrokantasi-ui: the hearing editor's data transforms, the map step and three views, in Dafny

kerrokantasi-ui is the browser front-end of a public consultation ("hearing") platform. This
project models the logic behind the front-end's forms and lists, and proves properties of that
model:

- **Hearing editor transforms** (`HearingEditor`, from `src/utils/hearingEditor.js`):
  - front-end ids for sections, labels and contact persons are filled in and stripped again;
  - the ids of project phases are cleared;
  - localized fields are filtered to the hearing's languages;
  - a subsection moves up or down in its list;
  - a hearing is cleaned for saving, which wraps an array of geometries into a GeoJSON
    FeatureCollection (sections 3.1-3.3 of RFC 7946);
  - an uploaded FeatureCollection is converted into geometries.
- **The map step of the admin form** (`AdminMapStep`, from `src/components/admin/HearingFormStep3.js`):
  - the component's state and the callbacks it fires when a shape is drawn, edited or deleted;
  - the validation and the outcome of a GeoJSON file upload;
  - how the component's state follows the hearing's geojson;
  - the drawing toolbar options.
- **The iframe form of the rich-text editor** (`IframeUtils`, from
  `src/components/RichTextEditor/Iframe/IframeUtils.js`): `<figure>` wrappers are stripped, and
  fields are validated one by one and as a whole form.
- **The "my hearings" view** (`UserHearingsView`, from `src/views/UserHearings/index.js`):
  - the three hearing lists it requests and their query parameters;
  - the "show all" request;
  - its toggles and the conditions under which it refetches;
  - how a list is shown.
- **Tile URL choice** (`MapUtils`, from `src/utils/map.js`): the high-contrast map tiles.

`Js` holds the slice of JavaScript semantics these transforms rely on:

- JSON-like values;
- truthiness;
- property reads that throw on `null`/`undefined`;
- lodash `isEmpty`/`keys`;
- `map` with a callback that may throw.

A thrown `TypeError` is the error case of a `Result`, so every place where the source would crash
on a missing field is an explicit error path in the model.

State that the source changes in place becomes a class with fields:

- `AdminMapStep.HearingFormStep3`, the component state plus the parent's geojson prop
  (`hearingGeojson`);
- `UserHearingsView.UserHearings`.

Callbacks into the parent are recorded in order as a sequence of events: `emitted`, and
`requests` for the hearing-list fetches. The loops of the source are methods with loop
invariants, proved equal to the specification functions:

- `validateInput`, `validateForm`, `isFormValid`;
- the `reduce` accumulators of `onDrawDeleted`, `getRemainingHearings` and `getHearingCards`.

The model follows the code wherever a plainer reading of the system would differ:

- An `undefined`, `null` or `[]` hearing geojson could all be read as "no geometry". The code
  throws on `null` and `undefined` in `cleanHearing`, `onDrawCreated`, `onDrawDeleted` and
  `componentDidUpdate`, and the model has those errors.
- `cleanHearing` emits features without the `properties` member that section 3.2 of RFC 7946
  requires. The model emits what the code emits.

## Model

| member | source | states |
|---|---|---|
| HearingEditor.FillFrontId | src/utils/hearingEditor.js:18-26 | every field of the object is kept. `frontId` becomes the existing truthy `frontId`, else the truthy `id`, else a fresh generator value. The generator is consulted exactly when neither is truthy |
| HearingEditor.FillFrontIds | src/utils/hearingEditor.js:28-29 | the list keeps its length, and the generator is consulted once per element that needs a fresh id |
| HearingEditor.FillFrontIdsAt | src/utils/hearingEditor.js:28-29 | element `i` of the result is `fillFrontId` applied to element `i`, with the generator already advanced past the earlier elements |
| HearingEditor.FillFrontIdsKeepsFields | src/utils/hearingEditor.js:28-29 | each result element keeps all fields of its input and has a `frontId` |
| HearingEditor.GeneratedFrontIdsDistinct | src/utils/hearingEditor.js:18-29 | with an injective generator, two different elements that both needed a fresh id get different `frontId`s |
| HearingEditor.GeneratedCountAppend | src/utils/hearingEditor.js:28-29 | the number of generated ids is additive over concatenation |
| HearingEditor.GeneratedCountGrows | src/utils/hearingEditor.js:28-29 | an element that needs an id strictly advances the generator for every later element |
| HearingEditor.RemoveFrontId | src/utils/hearingEditor.js:48-52 | the copy has no `frontId`, and exactly the other keys with the other values |
| HearingEditor.FilterFrontIds | src/utils/hearingEditor.js:54-55 | same length and order, each element without `frontId` |
| HearingEditor.RemoveUndoesFill | src/utils/hearingEditor.js:48-52 | removing the `frontId` that filling added gives back the original object |
| HearingEditor.FilterUndoesFill | src/utils/hearingEditor.js:54-55 | `filterFrontIds` undoes `fillFrontIds` on objects that had no `frontId` |
| HearingEditor.FilterFrontIdsIdempotent | src/utils/hearingEditor.js:54-55 | filtering twice is filtering once |
| HearingEditor.FillFrontIdsValue | src/utils/hearingEditor.js:44 | on an attribute value: succeeds exactly for an array of records, and then fills each record keeping its fields |
| HearingEditor.FillAttributes | src/utils/hearingEditor.js:42-45 | the reduce adds exactly the listed keys, each filled from `data`, and keeps the accumulator's other keys |
| HearingEditor.FillFrontIdsForAttributes | src/utils/hearingEditor.js:40-46 | succeeds exactly when every listed attribute is an array of records. The result has `data`'s keys plus the listed ones, and other keys are unchanged. Each listed attribute is a list of the same length whose record `i` is `data`'s record `i` with all fields kept and a `frontId` added |
| HearingEditor.CleanPhase | src/utils/hearingEditor.js:58-61 | a `null`/`undefined` phase throws. A phase with a truthy `frontId` comes out with `id: ''` and no `frontId`, and every other phase is unchanged |
| HearingEditor.FilterFrontIdFromPhases | src/utils/hearingEditor.js:57-67 | a missing project throws. Phases keep count and order, each cleaned, and every other key of `data` and of the project is unchanged |
| HearingEditor.FilterAttributes | src/utils/hearingEditor.js:76-79 | the reduce adds exactly the listed keys, each with ids filtered, and keeps the accumulator's other keys |
| HearingEditor.FilterFrontIdsFromAttributes | src/utils/hearingEditor.js:69-81 | phases are cleaned first exactly when present, and the project is then the cleaned one. Listed attributes have their ids filtered, and every other key is unchanged |
| HearingEditor.FilterUndoesFillForAttributes | src/utils/hearingEditor.js:40-81 | filtering after filling gives back the original hearing, if no attribute had `frontId`s and there are no phases |
| HearingEditor.FilterUndoesFillForDefaultAttributes | src/utils/hearingEditor.js:12-81 | with the default attribute list (`sections`, `labels`, `contact_persons`), filling then filtering gives back a hearing with no phases and no prior `frontId`s |
| HearingEditor.FilterRestores | src/utils/hearingEditor.js:74-80 | filtering restores `data` when every listed attribute filters back to its original, and the other keys agree |
| HearingEditor.FilterUndoesFillValue | src/utils/hearingEditor.js:78 | on one attribute value, filtering undoes filling |
| HearingEditor.FilterObjectByLanguages | src/utils/hearingEditor.js:83 | keeps exactly the keys that are languages, with their values; a non-object gives `{}` |
| HearingEditor.FilterObjectKeepsWithinLanguages | src/utils/hearingEditor.js:83 | the filter leaves an object unchanged if and only if all its keys are languages |
| HearingEditor.FilteredIsLocalized | src/utils/hearingEditor.js:83 | the filter's result only has language keys |
| HearingEditor.FilterImage | src/utils/hearingEditor.js:91 | a non-object image throws. As written, the image comes back unchanged; as intended, its abstract is filtered |
| HearingEditor.FilterSection | src/utils/hearingEditor.js:86-94 | a section whose `images` are not an array throws. Abstract, content and title are filtered, images are mapped, and all other fields are kept |
| HearingEditor.FilterSectionsContentByLanguages | src/utils/hearingEditor.js:85-95 | a non-array throws; otherwise each section is filtered, with count and order kept |
| HearingEditor.FilterTitleAndContentByLanguage | src/utils/hearingEditor.js:97-107 | as written: `abstract` equals the filtered title; `main_image` is the image plus the filtered caption keys, or `null`; sections are filtered; other keys are kept |
| HearingEditor.FilterTitleAndContentByLanguageIntended | src/utils/hearingEditor.js:97-107 | corrected: `abstract` is the filtered abstract, `main_image.caption` is the filtered caption, and image abstracts are filtered |
| HearingEditor.MainImage | src/utils/hearingEditor.js:101-103 | no main image gives `null`, and a non-object one throws. As written, the filtered caption's keys are assigned onto the image; as intended, the caption is replaced by its filtered form |
| HearingEditor.FilterSectionLocalizes | src/utils/hearingEditor.js:86-94 | with the correction, every localized field of a section and of its images has only language keys |
| HearingEditor.IntendedFilterLocalizesEverything | src/utils/hearingEditor.js:97-107 | with the corrections, every localized field of the hearing, main image and sections has only language keys |
| HearingEditor.AbstractCopiedFromTitle | src/utils/hearingEditor.js:100 | a concrete hearing whose abstract is replaced by its title as written, and kept when corrected |
| HearingEditor.ImageAbstractUnfiltered | src/utils/hearingEditor.js:91 | a concrete image whose abstract keeps a filtered-out language as written |
| HearingEditor.CaptionMergedIntoImage | src/utils/hearingEditor.js:101-103 | a concrete hearing whose caption translations land on the image record as written |
| HearingEditor.CaptionFilteredWhenCorrected | src/utils/hearingEditor.js:101-103 | the same hearing, when corrected, gets its caption filtered in place and the image gains no keys |
| HearingEditor.Splice | src/utils/hearingEditor.js:122 | `splice` within bounds is prefix, new items, suffix |
| HearingEditor.MoveSubsectionInArray | src/utils/hearingEditor.js:115-125 | a move inside the list keeps the length. The slot at the smaller of `index` and `index+delta` receives the element at the larger, the slot after it receives the element at the smaller, and every other slot is unchanged |
| HearingEditor.MoveSubsectionNoOp | src/utils/hearingEditor.js:115-120 | `index+delta < 1`, `index+delta == length` or `delta == 0` gives back an element-wise equal list |
| HearingEditor.MoveSubsectionSwaps | src/utils/hearingEditor.js:118-124 | a move by ±1 inside the list swaps the two neighbours. Every other position is unchanged, and the result is a permutation |
| HearingEditor.MoveSubsectionWideOverwrites | src/utils/hearingEditor.js:121-124 | a move by more than one writes the higher element at the lower position and the lower element right after it. Everything else is unchanged |
| HearingEditor.FeatureCollectionOf | src/utils/hearingEditor.js:148-155 | `{type: 'FeatureCollection', features}` with one `{type: 'Feature', geometry}` per geometry, in order |
| HearingEditor.GeometriesOfFeatureCollection | src/utils/hearingEditor.js:162 | reading the geometries back out of the wrapped collection gives the original array |
| HearingEditor.WrapGeometries | src/utils/hearingEditor.js:162 | only an array can be wrapped; it becomes the collection of its elements |
| HearingEditor.CleanSections | src/utils/hearingEditor.js:161 | succeeds exactly on an array of records; each section gets `id: ''`, with count and order kept |
| HearingEditor.CleanHearing | src/utils/hearingEditor.js:147-188 | missing geojson throws, and sections are cleaned. A non-empty array is wrapped; a FeatureCollection, an empty array and a bare geometry pass through. Other keys are kept |
| HearingEditor.ParseFeature | src/utils/hearingEditor.js:192-206 | a feature succeeds only with an object geometry. It becomes `{coordinates: converted, type: geometry.type}` |
| HearingEditor.ParseCollection | src/utils/hearingEditor.js:190-216 | a non-array throws; otherwise one `{coordinates, type}` per feature, in order, the type copied from the geometry. Result `i` is exactly what `parseFeature` makes of feature `i`, coordinates included, and any feature that throws makes the whole call throw |
| AdminMapStep.GetFirstGeometry | src/components/admin/HearingFormStep3.js:131-137 | the first feature's geometry, or `{}` for an empty feature list; a missing collection or feature list throws |
| AdminMapStep.FirstGeometryOfFeatureCollection | src/components/admin/HearingFormStep3.js:131-137 | for a collection built from geometries: the first geometry, or `{}` |
| AdminMapStep.Kept | src/components/admin/HearingFormStep3.js:280-300 | the surviving geometries are never more than the original ones |
| AdminMapStep.KeptAppend | src/components/admin/HearingFormStep3.js:280-300 | the geometry filter distributes over concatenation, so it keeps order |
| AdminMapStep.KeptSingle | src/components/admin/HearingFormStep3.js:295-298 | a single geometry survives if and only if it is not deep-equal to a deleted one |
| AdminMapStep.KeptMembers | src/components/admin/HearingFormStep3.js:280-300 | a geometry survives if and only if it was there and is not deleted |
| AdminMapStep.KeptNothingDeleted | src/components/admin/HearingFormStep3.js:280-300 | deleting nothing keeps every geometry |
| AdminMapStep.FeaturesKept | src/components/admin/HearingFormStep3.js:305-311 | the surviving features are never more than the original ones |
| AdminMapStep.FeaturesKeptMembers | src/components/admin/HearingFormStep3.js:305-311 | a feature survives if and only if it was there and its geometry is not deleted |
| AdminMapStep.KeepAllCheckingCoordinates | src/components/admin/HearingFormStep3.js:275-277 | the reference-comparison filter keeps every element unchanged, but throws on an element without readable coordinates |
| AdminMapStep.WithoutDeleted | src/components/admin/HearingFormStep3.js:280-300 | the bare-geometry reduce succeeds exactly when no element is missing |
| AdminMapStep.DeletedGeojson | src/components/admin/HearingFormStep3.js:224-318 | missing or empty geojson throws. For an array of geometries: the survivors, in order. For a FeatureCollection: `{features: surviving features, type: unchanged}` |
| AdminMapStep.DeleteFromFeatureCollection | src/components/admin/HearingFormStep3.js:303-316 | deleting from a cleaned collection keeps the feature of exactly each geometry that was not deleted |
| AdminMapStep.CheckUpload | src/components/admin/HearingFormStep3.js:339-345 | accepted if and only if all hold: the type is `FeatureCollection`; the features are non-empty; the first feature has a `geometry` with `type` and `coordinates`. A `null` file throws |
| AdminMapStep.UploadCheckIgnoresLaterFeatures | src/components/admin/HearingFormStep3.js:339-345 | features after the first do not affect the upload check |
| AdminMapStep.Upload | src/components/admin/HearingFormStep3.js:334-368 | accepted exactly when the upload check passes and the conversion succeeds, and then the converted features are handed on. Rejected exactly when the upload check fails, and unreadable otherwise |
| AdminMapStep.SyncedGeojson | src/components/admin/HearingFormStep3.js:170-182 | a new array is adopted, and so is a collection with fewer features than before. Otherwise the state is kept. Missing values throw |
| AdminMapStep.GetDrawOptions | src/components/admin/HearingFormStep3.js:394-427 | circles, circle markers and polylines are off, and the marker icon is 25×41 anchored at 13,41 |
| AdminMapStep.DrawOptionsIgnoreGeojson | src/components/admin/HearingFormStep3.js:394-427 | both branches give the same options whatever the geojson |
| AdminMapStep.HearingFormStep3.constructor | src/components/admin/HearingFormStep3.js:151-155 | not edited, no upload, and `geojson` is the hearing's geojson or `[]` |
| AdminMapStep.HearingFormStep3.OnDrawCreated | src/components/admin/HearingFormStep3.js:202-216 | marks the map edited. It fires the "existing" marker callback when the hearing geojson has features and the plain one otherwise, each with the drawn geometry. A missing geojson throws |
| AdminMapStep.HearingFormStep3.OnDrawEdited | src/components/admin/HearingFormStep3.js:190-196 | marks the map edited and fires `onHearingChangeMap("geojson", geometry)` |
| AdminMapStep.HearingFormStep3.FilterDeletedGeometries | src/components/admin/HearingFormStep3.js:280-300 | the reduce loop computes the order-preserving geometry filter |
| AdminMapStep.HearingFormStep3.FilterDeletedFeatures | src/components/admin/HearingFormStep3.js:305-311 | the reduce loop computes the order-preserving feature filter |
| AdminMapStep.HearingFormStep3.OnDrawDeleted | src/components/admin/HearingFormStep3.js:218-323 | nothing happens without layers. Otherwise it fires `onHearingChange("geojson", …)` with the geojson minus the deleted geometries, or throws and fires nothing |
| AdminMapStep.HearingFormStep3.UploadGeoJson | src/components/admin/HearingFormStep3.js:334-368 | accepted: the converted features go to `onHearingChange`, and the state becomes not edited, uploaded. Rejected or unreadable: the matching error is notified and the state is unchanged |
| AdminMapStep.HearingFormStep3.ReceiveProps | src/components/admin/HearingFormStep3.js:170-184 | the same geojson reference leaves the state alone; a new one syncs the state as `SyncedGeojson` says |
| IframeUtils.ReplaceAllIgnoringCase | src/components/RichTextEditor/Iframe/IframeUtils.js:6-9 | replacing with a text no longer than the pattern never lengthens the input |
| IframeUtils.ReplaceWithoutOccurrence | src/components/RichTextEditor/Iframe/IframeUtils.js:6-9 | with no case-insensitive occurrence of the pattern, the input comes back unchanged |
| IframeUtils.ReplaceOccurrenceShortens | src/components/RichTextEditor/Iframe/IframeUtils.js:6-9 | with an occurrence and a shorter replacement, the result is strictly shorter |
| IframeUtils.StripWrappingFigureTags | src/components/RichTextEditor/Iframe/IframeUtils.js:5-11 | the output is never longer than the input |
| IframeUtils.StripUnchangedIffNoWrapper | src/components/RichTextEditor/Iframe/IframeUtils.js:5-11 | the input is unchanged if and only if it holds neither wrapper tag in any letter case, and otherwise it gets strictly shorter |
| IframeUtils.ValidateIsNotEmpty | src/components/RichTextEditor/Iframe/IframeUtils.js:32-37 | a value is valid if and only if it is truthy in JavaScript's sense, which for a string means non-empty |
| IframeUtils.ValidateIsNumber | src/components/RichTextEditor/Iframe/IframeUtils.js:39-42 | valid if and only if every character is `0`-`9`, so the empty string is valid |
| IframeUtils.IframeValidationDisjoint | src/components/RichTextEditor/Iframe/IframeUtils.js:44-55 | no field is named by two rules of the table, so the order in which the rules are tried does not matter. The first rule tests emptiness and the second tests digits |
| IframeUtils.InputErrorByField | src/components/RichTextEditor/Iframe/IframeUtils.js:44-70 | `title`/`src` give the not-empty message exactly when empty. `width`/`height` give the only-numbers message exactly when not all digits. Other fields give `''` |
| IframeUtils.NoErrorIffPasses | src/components/RichTextEditor/Iframe/IframeUtils.js:44-70 | a field has no error if and only if it passes its rule |
| IframeUtils.ValidateInput | src/components/RichTextEditor/Iframe/IframeUtils.js:59-70 | the loop returns the message of the first rule that covers the field and that the value fails, or `''` |
| IframeUtils.ValidateForm | src/components/RichTextEditor/Iframe/IframeUtils.js:73-83 | exactly the input's keys, each mapped to its `validateInput` message |
| IframeUtils.IsFormValid | src/components/RichTextEditor/Iframe/IframeUtils.js:85-94 | true if and only if every error string is empty |
| IframeUtils.ValidFormIffFieldsPass | src/components/RichTextEditor/Iframe/IframeUtils.js:73-94 | a validated form is valid if and only if every field passes its rule |
| UserHearingsView.SearchParams | src/views/UserHearings/index.js:22-26 | every list asks for a page of four. Only drafts ask for unpublished hearings, and only the open and closed lists carry the `open` flag, `true` for open and `false` for closed |
| UserHearingsView.EntriesOfSearchParams | src/views/UserHearings/index.js:22-26 | the parameter entries, read back into an object, are that list's `SEARCH_PARAMS` |
| UserHearingsView.WithoutLimitEntries | src/views/UserHearings/index.js:88-95 | dropping the `limit` entries and rebuilding the object removes exactly `limit` |
| UserHearingsView.DefaultParams | src/views/UserHearings/index.js:76-81 | `created_by` is `me` for own hearings, and otherwise the first admin organization (`undefined` if none). `ordering` is the sort order. Reading organizations without a user throws |
| UserHearingsView.FetchesThreeLists | src/views/UserHearings/index.js:57-63 | three requests: open, closed, draft, in this order, on `/v1/hearing/`. Each carries `limit: 4` and its list's `published`/`open` flags unless a default param overrides them |
| UserHearingsView.ListRequestParams | src/views/UserHearings/index.js:60-62 | a request's params are the list's search params spread under the default params: exactly the keys of both, defaults winning |
| UserHearingsView.Rounds | src/views/UserHearings/index.js:44-51 | each refetch round issues three requests |
| UserHearingsView.UpperCase | src/views/UserHearings/index.js:86 | upper-casing ASCII letters keeps the length |
| UserHearingsView.ListOfType | src/views/UserHearings/index.js:86-88 | a type names a list if and only if its upper-case form is `OPEN`, `CLOSED` or `DRAFT` |
| UserHearingsView.RemainingRequestDropsOnlyLimit | src/views/UserHearings/index.js:84-97 | the "show all" request is the list's request without `limit`; every other parameter is kept |
| UserHearingsView.ShowAll | src/views/UserHearings/index.js:123 | the "show all" button appears if and only if a full page of four cards is shown and the hearing count is a number above four, so the count exceeds the cards shown |
| UserHearingsView.RefetchRounds | src/views/UserHearings/index.js:44-51 | no refetch if and only if no user with an admin organization appeared and neither `loadOwn` nor the sort order changed. Each trigger adds one round |
| UserHearingsView.UserHearings.constructor | src/views/UserHearings/index.js:30-34 | `loadOwn` true, tools closed, sorted by `-created_at` |
| UserHearingsView.UserHearings.FetchAllHearings | src/views/UserHearings/index.js:57-73 | appends the three list requests, or throws and requests nothing |
| UserHearingsView.UserHearings.DropLimit | src/views/UserHearings/index.js:88-93 | the reduce keeps every entry except `limit`, in order |
| UserHearingsView.UserHearings.GetRemainingHearings | src/views/UserHearings/index.js:84-97 | appends one request for the named list without `limit`. It throws for an unknown type or a missing user, and then requests nothing |
| UserHearingsView.UserHearings.ToggleHearingCreator | src/views/UserHearings/index.js:242-244 | negates `loadOwn` and changes nothing else |
| UserHearingsView.UserHearings.ToggleDropdown | src/views/UserHearings/index.js:246-248 | negates `openTools` and changes nothing else |
| UserHearingsView.UserHearings.ChangeSort | src/views/UserHearings/index.js:53-55 | sets the sort order and changes nothing else |
| UserHearingsView.UserHearings.ComponentDidMount | src/views/UserHearings/index.js:37-42 | fetches all lists exactly when a user is signed in |
| UserHearingsView.UserHearings.ComponentDidUpdate | src/views/UserHearings/index.js:44-51 | issues one round of requests per refetch trigger, or none |
| UserHearingsView.UserHearings.GetHearingCards | src/views/UserHearings/index.js:132-142 | one card per hearing, in order, keyed by its slug; a non-array or a missing hearing throws |
| UserHearingsView.UserHearings.GetHearingListing | src/views/UserHearings/index.js:100-130 | a spinner while fetching, a notice for an empty list, else the cards: card `i` is keyed by hearing `i`'s slug and shows hearing `i`, and a hearing that is missing throws. "Show all" appears if and only if exactly four cards are shown and the count is above four |
| MapUtils.CorrectContrastMapTileUrl | src/utils/map.js:28-34 | always one of the two URLs. It is the high-contrast one when the setting is on and that URL is non-empty, and the normal one otherwise |

## Left out

- Rendering:
  - React elements;
  - Leaflet layers and map elements;
  - `getHearingArea`, `getFeatureCollectionElement`, `EPSG3067`;
  - the headers and tool menus of the views.
  These only build UI or library objects.
- Leaflet's coordinate conversion in `parseCollection`: it is floating-point rounding in a
  foreign library. It is the parameter `LatLngCodec`, two uninterpreted, possibly throwing
  functions.
- normalizr and updeep internals:
  - `normalizeHearing`, `normalizeEntitiesByFrontId`, `fillFrontIdsAndNormalizeHearing`,
    `normalizeGeoJSON`: they depend on normalizr's entity schema;
  - `updeep({id: ''}, phase)` and the project merge: modelled by their effect on plain objects.
- `uuid`: the id generator is a function parameter plus a counter of how often it was called.
- `initNewPhase`, `initNewProject`: they only build literal records. `initNewPhase` gives a
  fresh phase whose `frontId` is a uuid. `initNewProject` returns the constant
  `{id: '', title: {}, phases: []}` and calls no generator.
- Browser and I/O dependencies:
  - `parseIframeHtml`, which parses the DOM;
  - `readTextFile` and `JSON.parse`: the parsed file is the parameter `Option<Value>`, and
    `None` stands for text that did not parse;
  - `invalidateMap`, which is a timer;
  - `getDocumentOrigin`, which reads `window.location`;
  - Leaflet's `drawLocal` translations.
- Translations: messages are their message ids, since `getMessage`/`localizedNotifyError` are
  not part of this model.
- The `uploadedFile && false` branch of `onDrawDeleted`: it can never run.
- No claim is made about the deleted geometries the reference-comparison filter of
  `onDrawDeleted` matches; `KeepAllCheckingCoordinates` models only that it keeps everything.
- Drawn layers: each is represented by the geometry the handler reads from it. The
  `_latlng`/`_latlngs` inspection that chooses it is Leaflet's internal state.
- `componentDidUpdate`'s reference comparison: it is the caller-supplied flag `sameReference`.
- `setState` is taken as immediate: React's batching and asynchrony are not modelled.
- `console.log`: all calls are dropped.
- Timers: `componentWillUnmount` is dropped.
- Other files: `HearingForm.js`, `routes.js`, `Comment.js`, `IframeCopyPasteField.js` and the
  rendering test are not part of this model.
- Numbers are reals: NaN, infinities and floating-point rounding are not modelled.
- `NumLess`: a `<` with a non-number side is taken as false (JavaScript would coerce).
- `Member`: it models named properties; index keys of strings and arrays are not modelled.
- Object key order is not modelled: objects are maps. The order of `Object.keys` appears only
  where it matters, in the rule table of `validateInput` and the `SEARCH_PARAMS` entries.
- `Js.Records`: a non-object element where the source spreads or assigns records is the error
  `NotARecord`. JavaScript would spread a primitive into `{}` or copy a string's characters.
- `HearingEditor.FilterImage`, `HearingEditor.FilterSection`,
  `HearingEditor.FilterTitleAndContentByLanguage`: lodash `assign` updates the section, image
  and hearing objects in place. The model returns the updated values and does not track
  aliasing to other references.
- `AdminMapStep.CheckUpload`: lodash `keys` is modelled for objects. An array or string
  feature, which would have index keys, is rejected.
- `IframeUtils.ValidateIsNotEmpty`: attribute values are strings, so "falsy or empty" is the
  empty string.
- `IframeUtils.ReplaceAllIgnoringCase`: the `i` flag folds only ASCII letters, which is all
  the two literal patterns contain.
- `UserHearingsView.UpperCase`: it folds only ASCII letters and keeps the length. JavaScript's
  `toUpperCase` applies full Unicode case mapping: `ſ` becomes `S`, and `ß` becomes `SS`, which
  lengthens the string. So `getRemainingHearings('cloſed')` would fetch the closed list, where
  `ListOfType` gives no list. The view calls `getHearingListing`, and through it
  `getRemainingHearings`, only with `'open'`, `'closed'` and `'draft'`
  (src/views/UserHearings/index.js:282, 290, 298), where both foldings agree.
- `UserHearingsView.User`: `adminOrganizations` is always an array. A user object without it
  would throw.
- `HearingEditor.MoveSubsectionInArray`: a delta of more than one is claimed only literally
  (`MoveSubsectionWideOverwrites`), since it is not a permutation.

## Findings

| source | as written | input that shows it | evidently intended | confidence | as-written member | corrected member |
|---|---|---|---|---|---|---|
| src/utils/hearingEditor.js:100 | the hearing's `abstract` is built from the filtered `data.title` | `{title: {fi: "Otsikko"}, abstract: {fi: "Tiivistelma"}, sections: []}` with languages `["fi"]` gives abstract `{fi: "Otsikko"}` | the abstract is its own text, filtered to the languages | high, not executed | HearingEditor.AbstractCopiedFromTitle | HearingEditor.FilterTitleAndContentByLanguageIntended |
| src/utils/hearingEditor.js:91 | image abstracts are filtered without passing `languages`, so nothing matches and `assign(image, {})` leaves the image unchanged | image `{abstract: {fi: "kuva", sv: "bild"}}` with languages `["fi"]` keeps `sv` | the image's abstract is filtered to the languages | high, not executed | HearingEditor.ImageAbstractUnfiltered | HearingEditor.FilterImage |
| src/utils/hearingEditor.js:102 | the filtered caption's language keys are assigned onto the main image record itself, and the caption keeps every language | main image `{caption: {fi: "kuvateksti", sv: "bildtext"}}` with languages `["fi"]` becomes `{caption: {fi, sv}, fi: "kuvateksti"}` | the caption is replaced by its filtered form | medium, not executed | HearingEditor.CaptionMergedIntoImage | HearingEditor.CaptionFilteredWhenCorrected |
