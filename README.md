# DragAndDrop in Dafny

A model of the logic inside the DragAndDrop demonstration app: a `Bird`
(identifier and name) that can be dragged between lists and dropped as its
native format or as plain text, and the VoiceOver "Move up" / "Move down"
actions that reorder a list and announce the result.

Three parts are modelled.

- **Bird codecs.** The app conforms `Bird` to its transfer protocols in
  four alternative ways, and each alternative is its own module because the
  error behaviour differs:
  - `BirdWrapper` (Bird.swift): every failure is a thrown `DecodingError`.
  - `ProvidableWrapper` (Providable/Bird+Providable.swift): an unknown
    identifier throws `ProvidableError.unsupportedUTIIdentifier`.
  - `BirdProvidable` (Bird+Providable/Bird+Providable.swift): an unknown type
    gives `nil`, and only the native decode can throw.
  - `BirdTransferable` (Transferable/Bird+Transferable.swift): a list of
    transfer representations, with `.bird` both ways and `.plainText`
    import only.

  All four share `JsonCoding`, a stand-in for `JSONEncoder` and
  `JSONDecoder` on `Bird`. The property claimed of the real coder is that
  decoding an encoded bird gives the bird back. The stand-in also has the
  converse: anything it decodes is the encoding of what it decodes to. That
  holds of the stand-in only, because `JSONDecoder` accepts many byte strings
  for the same bird. Each native read arm therefore states its result as the
  decoder's result.
- **Drop into a list** (`BirdListTransferable`). A class holds the bound
  `birds` array and has two drop handlers:
  - dropping on the empty-list placeholder appends every dropped bird;
  - dropping on a row inserts, at the drop offset, the dropped birds whose id
    is not already in the list.
- **Accessibility move** (`AccessibilityMove`). A class holds the bound item
  array, the optional label key path and the focus. Its `Move` method does
  what the installed closure does:
  - finds the item's first index;
  - swaps the item with its neighbour in place;
  - focuses the item;
  - returns the announcement the closure would post.

  The effect is specified by the functions `Moved` and `MoveAnnouncement`.
  Lemmas about those functions state the rules: no-op cases, the swap
  positions, permutation, and `.down` undoing `.up`. One edge case is proved
  explicitly in `DownOntoEqualSuccessor`. When the item's successor is an equal element,
  `.down` leaves the array as it was but still announces a move.

Platform inputs are parameters:
- the fresh `UUID()` that `Bird(name:)` draws is `freshId`;
- UTF-8 decoding of a plain-text payload (`String(decoding:as:)`) is the
  function `decodeText`.

The model follows the code in these details:
- Bird.swift's `loadData` fails with `DecodingError.valueNotFound(Bird, "No Birds")`, not an "unsupported identifier" error.
- `data(type:)` in Bird+Providable/Bird+Providable.swift returns `nil`, not an error, for other types.
- Plain text of any length, empty included, becomes a bird.
- The move handler looks the item up by whole-value equality (`firstIndex(of:)`), not by identifier.

## Model

| member | source | states |
|---|---|---|
| `UTTypes.BirdTypeIsNotPlainText` | DragAndDrop/UTType+Bird.swift:12 | the app's bird type and plain text are different types with different identifiers |
| `UTTypes.Identifiers` | DragAndDrop/Bird.swift:44-50 | `map(\.identifier)` keeps length and gives, at each position, the identifier of the type there |
| `Birds.NamedBird` | DragAndDrop/Bird.swift:16-19 | `Bird(name:)` has the given name and the freshly supplied id |
| `Birds.Examples` | DragAndDrop/Bird.swift:85-93 | `examples` has exactly 7 birds; the i-th is named after the i-th listed name and has the i-th fresh id |
| `Birds.ExampleNamesDistinct` | DragAndDrop/Bird.swift:85-93 | the examples run from Cardinal to Flamingo and no two share a name |
| `JsonCoding.EncodeBird` | DragAndDrop/Bird.swift:56 | the encoding of a bird starts with its sixteen id bytes and has a length fixed by the name |
| `JsonCoding.DecodeBird` | DragAndDrop/Bird.swift:70 | a successful decode returns the bird whose encoding the data is; in the stand-in every failure is the one `dataCorrupted` value (see "## Left out") |
| `JsonCoding.RoundTrip` | DragAndDrop/Bird.swift:55-71 | decoding the encoding of any bird gives the same bird (same id, same name) |
| `JsonCoding.EncodeInjective` | DragAndDrop/Bird.swift:56 | two birds with the same encoding are the same bird |
| `JsonCoding.ShortDataRejected` | DragAndDrop/Bird.swift:70 | data too short to hold an id is rejected; in the stand-in the error is the one `dataCorrupted` value (see "## Left out") |
| `BirdWrapper.LoadData` | DragAndDrop/Bird.swift:54-65 | data is provided exactly for the native identifier, with no error, and decodes back to the wrapped bird; any other identifier gives no data and the `No Birds` error |
| `BirdWrapper.ObjectWithItemProviderData` | DragAndDrop/Bird.swift:67-79 | native identifier: succeeds exactly when the JSON decode does, with the decoder's bird (in the stand-in, the bird the data encodes); plain text: name is the decoded text and id is the fresh one; anything else throws `No Birds` |
| `BirdWrapper.TypeLists` | DragAndDrop/Bird.swift:36-50 | writable types are `[uti]`, readable `[uti, plainText]`, writable is a prefix of readable, and the identifier lists are the identifiers of those types in order |
| `BirdWrapper.LoadsExactlyWritable` | DragAndDrop/Bird.swift:44-62 | `loadData` yields data exactly for the writable identifiers |
| `BirdWrapper.ReadsExactlyReadable` | DragAndDrop/Bird.swift:48-79 | decoding throws `No Birds` exactly for identifiers not in the readable list |
| `BirdWrapper.LoadThenReadRoundTrip` | DragAndDrop/Bird.swift:54-71 | what `loadData` writes for the native identifier, the native decode reads back as the same wrapper |
| `ProvidableWrapper.LoadData` | DragAndDrop/Providable/Bird+Providable.swift:41-54 | data exactly for `uti`, decoding back to the wrapped bird; any other identifier reports `unsupportedUTIIdentifier` |
| `ProvidableWrapper.ObjectWithItemProviderData` | DragAndDrop/Providable/Bird+Providable.swift:56-68 | native identifier: the decoder's bird (in the stand-in, the bird the data encodes) or its rethrown error; plain text: named after the text with the fresh id; anything else throws `unsupportedUTIIdentifier` |
| `ProvidableWrapper.TypeLists` | DragAndDrop/Providable/Bird+Providable.swift:23-39 | writable `[.bird]`, readable `[.bird, .plainText]`, identifier lists follow them in order |
| `ProvidableWrapper.LoadsExactlyWritable` | DragAndDrop/Providable/Bird+Providable.swift:41-49 | `unsupportedUTIIdentifier` is reported exactly for identifiers that are not writable |
| `ProvidableWrapper.ReadErrors` | DragAndDrop/Providable/Bird+Providable.swift:56-67 | `unsupportedUTIIdentifier` is thrown exactly for unreadable identifiers; a decoding error only for the native identifier |
| `ProvidableWrapper.LoadThenReadRoundTrip` | DragAndDrop/Providable/Bird+Providable.swift:44-60 | native encode then native decode gives back the same bird |
| `BirdProvidable.DataForType` | DragAndDrop/Bird+Providable/Bird+Providable.swift:21-28 | `data(type:)` gives data exactly for `.bird`, and that data decodes to the bird; every other type gives `nil` |
| `BirdProvidable.Init` | DragAndDrop/Bird+Providable/Bird+Providable.swift:30-40 | `.bird`: succeeds exactly when the decode does, with the decoder's bird (in the stand-in, the bird the data encodes), and otherwise rethrows the decoder's error; `.plainText`: a bird named after the text with the fresh id; other types: `nil` |
| `BirdProvidable.TypeLists` | DragAndDrop/Bird+Providable/Bird+Providable.swift:13-19 | writable `[.bird]` is a prefix of readable `[.bird, .plainText]` |
| `BirdProvidable.DataExactlyForWritable` | DragAndDrop/Bird+Providable/Bird+Providable.swift:13-28 | `data(type:)` gives data exactly for the writable types |
| `BirdProvidable.InitOutcomes` | DragAndDrop/Bird+Providable/Bird+Providable.swift:30-39 | `nil` exactly for types not readable; only `.bird` can throw |
| `BirdProvidable.DataThenInitRoundTrip` | DragAndDrop/Bird+Providable/Bird+Providable.swift:21-33 | `init?(type: .bird, data: data(type: .bird))` reconstructs the same bird |
| `BirdTransferable.FirstServing` | DragAndDrop/Transferable/Bird+Transferable.swift:12-22 | finds the first representation serving a request, and none before it serves |
| `BirdTransferable.ExportedContentTypes` | DragAndDrop/Transferable/Bird+Transferable.swift:13-19 | a content type is listed exactly when some representation exports it |
| `BirdTransferable.ImportedContentTypes` | DragAndDrop/Transferable/Bird+Transferable.swift:13-21 | a content type is listed exactly when some representation imports it |
| `BirdTransferable.Export` | DragAndDrop/Transferable/Bird+Transferable.swift:13-14 | export yields data exactly for the exported content types |
| `BirdTransferable.Import` | DragAndDrop/Transferable/Bird+Transferable.swift:15-21 | import yields a result exactly for the imported content types; importing `.bird` gives the decoder's result (the bird or its thrown error); importing `.plainText` gives a bird named after the text with the fresh id |
| `BirdTransferable.ContentTypeOrder` | DragAndDrop/Transferable/Bird+Transferable.swift:12-22 | only `.bird` is exported; `.bird` then `.plainText` are imported, native first |
| `BirdTransferable.ExportThenImportRoundTrip` | DragAndDrop/Transferable/Bird+Transferable.swift:13-17 | exporting then importing as `.bird` gives back the same bird |
| `BirdTransferable.PlainTextImportOnly` | DragAndDrop/Transferable/Bird+Transferable.swift:19-22 | plain text has no export; importing it gives a bird named after the decoded text with the fresh id |
| `BirdListTransferable.Unseen` | DragAndDrop/Bird+Transferable/BirdListTransferable.swift:46-49 | a bird is kept exactly when it was dropped and its id is not in the list; never more birds than dropped |
| `BirdListTransferable.BirdList.DropOnEmpty` | DragAndDrop/Bird+Transferable/BirdListTransferable.swift:19-22 | the list becomes the old list followed by every dropped bird in drop order, unfiltered, and the handler returns true |
| `BirdListTransferable.BirdList.DropAt` | DragAndDrop/Bird+Transferable/BirdListTransferable.swift:45-51 | requires `offset <= count`; the kept birds are inserted contiguously at `offset`, with the elements before and after it unchanged |
| `BirdListTransferable.InsertedAtShape` | DragAndDrop/Bird+Transferable/BirdListTransferable.swift:50 | the new length is the old plus the number of kept birds; the prefix before `offset` is unchanged; the kept birds follow in drop order; then the remaining originals in their order |
| `BirdListTransferable.UnseenAppend` | DragAndDrop/Bird+Transferable/BirdListTransferable.swift:47-49 | filtering distributes over concatenation, so it keeps drop order |
| `BirdListTransferable.UnseenKeepsAll` | DragAndDrop/Bird+Transferable/BirdListTransferable.swift:47-49 | nothing is filtered out exactly when no dropped id is already in the list |
| `BirdListTransferable.UnseenDropsAll` | DragAndDrop/Bird+Transferable/BirdListTransferable.swift:47-49 | everything is filtered out when every dropped id is already in the list |
| `BirdListTransferable.EmptyListHandlersAgree` | DragAndDrop/Bird+Transferable/BirdListTransferable.swift:16-51 | on an empty list the filtering insert at 0 gives the same list as the append |
| `BirdListTransferable.SharedDroppedIdsKept` | DragAndDrop/Bird+Transferable/BirdListTransferable.swift:47-49 | two dropped birds sharing an id that is absent from the list are both kept |
| `BirdListTransferable.DropAgainAddsNothing` | DragAndDrop/Bird+Transferable/BirdListTransferable.swift:45-51 | dropping the same birds again, at any offset, leaves the list unchanged |
| `AccessibilityMove.AccessibilityMoveAction.Name` | DragAndDrop/AccessibilityMove/AccessibilityMoveActions.swift:18-25 | the name is "Move up" exactly for `.up` and "Move down" exactly for `.down` |
| `AccessibilityMove.FirstIndex` | DragAndDrop/AccessibilityMove/AccessibilityMoveActions.swift:125 | an index exists exactly when the item is present; it holds the item and no earlier position does |
| `AccessibilityMove.AccessibilityMoveable.Move` | DragAndDrop/AccessibilityMove/AccessibilityMoveActions.swift:122-165 | the array becomes `Moved` of the old array and is a permutation of it; the returned announcement is `MoveAnnouncement`; focus goes to the item exactly when it moved and is otherwise untouched |
| `AccessibilityMove.NoMoveWhenAbsentOrSingle` | DragAndDrop/AccessibilityMove/AccessibilityMoveActions.swift:123-127 | an absent item or a list of at most one element: no change, no announcement |
| `AccessibilityMove.NoMoveAtBoundary` | DragAndDrop/AccessibilityMove/AccessibilityMoveActions.swift:131-148 | `.up` on index 0 and `.down` on the last index (first occurrence) change nothing and announce nothing |
| `AccessibilityMove.MoveUpSwaps` | DragAndDrop/AccessibilityMove/AccessibilityMoveActions.swift:130-143 | `.up` swaps positions `i` and `i-1` of the first index `i`, leaves every other position, and announces the former predecessor |
| `AccessibilityMove.MoveDownSwaps` | DragAndDrop/AccessibilityMove/AccessibilityMoveActions.swift:147-160 | `.down` swaps positions `i` and `i+1`, leaves every other position, and announces the former successor |
| `AccessibilityMove.AnnouncementText` | DragAndDrop/AccessibilityMove/AccessibilityMoveActions.swift:138-160 | "Moved above "/"Moved below " plus the neighbour's label, or "Moved up"/"Moved down" without a label |
| `AccessibilityMove.MovePermutes` | DragAndDrop/AccessibilityMove/AccessibilityMoveActions.swift:134-151 | every move keeps the length and the multiset of elements |
| `AccessibilityMove.MoveUpChanges` | DragAndDrop/AccessibilityMove/AccessibilityMoveActions.swift:131-134 | a `.up` that is allowed always changes the array |
| `AccessibilityMove.UpThenDownRestores` | DragAndDrop/AccessibilityMove/AccessibilityMoveActions.swift:129-163 | `.down` right after an allowed `.up` is allowed and restores the array |
| `AccessibilityMove.DownThenUpRestores` | DragAndDrop/AccessibilityMove/AccessibilityMoveActions.swift:129-163 | `.up` right after an allowed `.down` is allowed and restores the array when the successor differs from the item |
| `AccessibilityMove.DownOntoEqualSuccessor` | DragAndDrop/AccessibilityMove/AccessibilityMoveActions.swift:147-160 | when the successor equals the item, `.down` leaves the array unchanged yet announces a move below the item's own label |

## Left out

- JsonCoding: the byte layout is a stand-in (id bytes, then three bytes per character), not JSON text; of the real coder only `decode(encode(b)) == b` and the rejection of malformed data are claimed, not which byte strings `JSONDecoder` accepts.
- JsonCoding.DecodeBird: the stand-in reports every failure as the one `dataCorrupted` value "The given data was not valid JSON."; `JSONDecoder` also throws `keyNotFound` (for `{}`), `typeMismatch` (for an id that is not a string), `valueNotFound` (for `null`) and `dataCorrupted` with other descriptions (for a malformed UUID string), and these are not told apart. Its clause `EncodeBird(r.value) == data` holds of the stand-in only: `JSONDecoder` also accepts reordered keys, extra whitespace, unknown keys and a lowercase UUID string, none of which is what `JSONEncoder` writes; the same goes for the `EncodeBird(...) == data` conjunct in the native arms of `BirdWrapper.ObjectWithItemProviderData`, `ProvidableWrapper.ObjectWithItemProviderData` and `BirdProvidable.Init`, whose source-level claim is the conjunct that the result is the decoder's bird.
- JsonCoding.ShortDataRejected: states rejection with that one `dataCorrupted` value, while `JSONDecoder` rejects well-formed JSON of the wrong shape with `keyNotFound`, `typeMismatch` or `valueNotFound` instead.
- BirdWrapper.ObjectWithItemProviderData: the native arm's failure is pinned to the stand-in's single `dataCorrupted` value, so the other `DecodingError` cases `JSONDecoder` throws are not distinguished.
- ProvidableWrapper.ObjectWithItemProviderData: likewise, the wrapped decoding error is the stand-in's single `dataCorrupted` value.
- UTF-8 decoding with replacement characters (`String(decoding:as:)`) is the parameter `decodeText`; its behaviour is not modelled.
- `UUID()` generation is the parameter `freshId`; that it differs from earlier ids is not modelled.
- `UTType("com.ryanlintott.draganddrop.bird") ?? .data`: the model takes the lookup to succeed (the app declares the type), so the `.data` fallback is not modelled.
- BirdProvidable.DataForType: `async throws` is not modelled, because the encoder of `Bird` cannot fail in the model.
- BirdWrapper.LoadData: the failure path of `try JSONEncoder().encode` (a thrown error passed to the completion handler) is not modelled, because encoding a bird made of a UUID and a string cannot fail.
- ProvidableWrapper.LoadData: the failure path of `try JSONEncoder().encode` is not modelled, for the same reason.
- BirdTransferable.RunExporter: the failure path of `try JSONEncoder().encode` in the exporter is not modelled, for the same reason.
- The `Progress` value `loadData` returns is not modelled; it does not depend on the inputs.
- The `item as? Item` downcast in the move closure is not modelled: the handler takes an item of the list's element type, so the failed-cast no-op cannot arise.
- `UIAccessibility.post` is a platform side effect; the announcement is returned instead.
- The extended move actions `.up(3)`, `.down(3)`, `.toTop` and `.toBottom`, and `accessibilityMoveableList`, come from the ILikeToMoveIt package, whose source is not part of this model.
- Environment plumbing (`AccessibilityFocusedItemKey`, `AccessibilityMoveKey`, `AccessibilityMoveViewModifier`, `@AccessibilityFocusState`) is UI wiring; only the focus assignment in the move closure is modelled.
- Item-provider loading (`NSItemProvider.loadItem`/`loadItems`) and the asynchronous insert paths of the list views are callback-driven, and their completion order is not fixed, so they are left out.
- `Array.move(fromOffsets:toOffset:)` and `remove(atOffsets:)` are library calls with no logic in the app.
- BirdTransferable.Import: which representation the system picks for a drag session is the framework's choice; the model takes the first one in list order that serves the content type.
- All SwiftUI views, previews and the UIKit `DraggableView`, as well as the commented-out move code in Transferable/BirdListTransferable.swift.
- Uniqueness of ids within a list is not enforced by the app and is not assumed by the model.
