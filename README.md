# PhotoLibraryService, modelled in Dafny

A model of the decision logic in the iOS `PhotoLibraryService` of
cordova-plugin-photo-library. Photos, AssetsLibrary and AVFoundation are
replaced by an abstract store: assets (id, integer creation date, media
type, source type) and collections (id, title, type, subtype, optional
integer start and end dates, location names, member ids). Every foreign
call becomes a parameter that carries what the call answered, including
answers the code discards, such as the `Bool` of `ALAssetsGroup.add(_:)`.

| file | module | models |
|---|---|---|
| photo_store.dfy | `PhotoStore` | the store's entities and the `creationDate` descending sort |
| fetch_config.dfy | `FetchConfig` | the shared `PHFetchOptions` (class `FetchOptions`) that `init` sets up and `getLibrary` mutates, and the fetch it drives |
| chunking.dfy | `ChunkAssembly` | the chunk buffer inside `getLibrary`: step functions over callback events, and class `ChunkAssembler` |
| enrichment.dfy | `Enrichment` | `getCompleteInfo`: the media-kind dispatch and the sandbox-token path |
| album_catalog.dfy | `AlbumCatalog` | `getAlbums` and `getMoments` |
| base64.dfy | `Base64` | a strict base64 decoder (section 4 of RFC 4648) and an encoder used to state the round trip |
| data_url.dfy | `DataUrl` | `getDataFromURL`: the lazy `^data:.+?;base64,` header, the payload and the four errors |
| authorization.dfy | `Authorization` | `hasPermission` and `requestAuthorization` |
| caching.dfy | `Caching` | `stopCaching` and the `cacheActive` flag |
| rendering.dfy | `Rendering` | `imageHasAlpha`, `image2PictureData` and the transform table of `UIImage.fixedOrientation` |
| album_writer.dfy | `AlbumWriter` | `getPhotoAlbum`, `createPhotoAlbum`, `getAlPhotoAlbum`, `putMediaToAlbum`, and the album steps of `saveImage` and `saveVideo` (class `MediaLibrary`) |

Where the code and the plugin's documented behaviour differ, the model
follows the code:

- A fetch with no results emits no chunk at all. The enumeration closure never runs, so the caller's completion is never called. It does not receive one empty last chunk.
- `saveImage` and `saveVideo` first reuse the FIRST regular album with the title, or create one. They then add the saved asset to the LAST AssetsLibrary album group with that name, which need not be the album that was reused (`AlbumWriter.ReusedAlbumIsNotLinkTarget`).
- `itemsInChunk` flushes only when the buffer size equals it exactly.
- `putMediaToAlbum` ignores the `Bool` that `ALAssetsGroup.add(_:)` returns, which is false for a group that cannot be edited. A save therefore reports success even when the media was not added to the album (`AlbumWriter.LinkedIffGroupExists`).
- A `.limited` authorization is not permission.
- `saveVideo` runs the get-or-create step before it checks that the video is compatible. An incompatible video can therefore still leave a new, empty album behind.
- An item whose video asset is neither an `AVURLAsset` nor an `AVComposition` never gets its completion. The item still goes out when another item's completion flushes the buffer it is in, but then without a `filePath` (`ChunkAssembly.UncompletedItemStillArrives`).
- The chunks partition the items, with none dropped or repeated, only when each item completes before the next one is enumerated (`ChunkAssembly.SequentialDelivery`). The final emission does not clear the buffer. If completions arrive in another order, a later flush can send the same items again, as a non-final chunk after the last one (`ChunkAssembly.OutOfOrderRepeatsItems`).

## Model

| member | source | states |
|---|---|---|
| PhotoStore.InsertByDate | src/ios/PhotoLibraryService.swift:116 | inserting into a newest-first sequence keeps it newest first and adds exactly that asset (a multiset equation) |
| PhotoStore.SortNewestFirst | src/ios/PhotoLibraryService.swift:116 | the `creationDate` descending sort: the result has non-increasing dates and is a permutation of the input |
| PhotoStore.Ids | src/ios/PhotoLibraryService.swift:442-444 | the id list has one entry per asset, in the same order |
| FetchConfig.Select | src/ios/PhotoLibraryService.swift:159-181 | the filter by source types and media predicate: each matching asset keeps its store multiplicity and no other asset appears |
| FetchConfig.Truncate | src/ios/PhotoLibraryService.swift:183-185 | `fetchLimit`: a positive limit below the length keeps exactly that many leading elements; otherwise everything is kept |
| FetchConfig.PrefixHoldsNewest | src/ios/PhotoLibraryService.swift:116 | in a newest-first sequence, an element outside a prefix is no newer than any element inside it |
| FetchConfig.Matches | src/ios/PhotoLibraryService.swift:159-181 | an asset matches when its source type is included and the media predicate, if any, admits its media type; stated by `SelectMembership` |
| FetchConfig.SelectMembership | src/ios/PhotoLibraryService.swift:159-181 | an asset is selected iff the store holds it and it matches the source types and the media predicate |
| FetchConfig.FetchedPrefix | src/ios/PhotoLibraryService.swift:191 | the fetched assets all match, are drawn from the matching ones, and none is older than a matching asset the limit dropped |
| FetchConfig.FetchOptions.constructor | src/ios/PhotoLibraryService.swift:114-120 | `init`: all three source types, no media predicate, no limit |
| FetchConfig.FetchOptions.Configure | src/ios/PhotoLibraryService.swift:159-185 | the new source types, predicate and limit, each as `getLibrary` sets it or as it stayed. The configuration is sticky: cloud assets are never restored, a limit is never cleared, and a predicate is never dropped |
| FetchConfig.FetchOptions.Fetch | src/ios/PhotoLibraryService.swift:191 | matching assets only, newest first, exactly `min(limit, #matching)` of them, all matching assets when there is no limit, and never an older asset kept over a newer one |
| FetchConfig.FetchOptions.FetchById | src/ios/PhotoLibraryService.swift:263 | the id lookup under the shared options finds something iff the store has an asset with that id that still matches the options |
| FetchConfig.SelectId | src/ios/PhotoLibraryService.swift:263 | exactly the store's assets with that id |
| ChunkAssembly.FlushDue | src/ios/PhotoLibraryService.swift:233-234 | the non-final flush condition: the buffer holds exactly `itemsInChunk` items (when it is positive), or `chunkTimeSec` has elapsed since the chunk started (when it is positive); stated by `NonFinalFlush` |
| ChunkAssembly.OnEnumerated | src/ios/PhotoLibraryService.swift:216-225 | the enumeration callback as a step on the closure's state; stated by `MaxItemsFlush`, `ChunkNumOnlyOnFlush` and `EnumerationsFillBuffer` |
| ChunkAssembly.OnCompleted | src/ios/PhotoLibraryService.swift:227-238 | the enrichment completion as a step on the closure's state; stated by `FinalFlush`, `NonFinalFlush` and `ChunkNumOnlyOnFlush` |
| ChunkAssembly.Run | src/ios/PhotoLibraryService.swift:216-240 | the closure's state after callbacks arrive in a given order; stated by `RunSnoc`, `RunAppend` and `ChunkNumbering` |
| ChunkAssembly.RunSnoc | src/ios/PhotoLibraryService.swift:216-240 | callbacks are applied in arrival order, one at a time |
| ChunkAssembly.FinalFlush | src/ios/PhotoLibraryService.swift:231-232 | completing index `count-1` emits `(chunk, chunkNum, true)` and leaves the buffer, `chunkNum` and the timer unchanged |
| ChunkAssembly.MaxItemsFlush | src/ios/PhotoLibraryService.swift:218-221 | an index past `maxItems` emits `(chunk, chunkNum, true)` and appends nothing |
| ChunkAssembly.NonFinalFlush | src/ios/PhotoLibraryService.swift:233-238 | a non-last completion flushes iff the buffer size equals `itemsInChunk` (when it is positive) or `chunkTimeSec` has elapsed (when it is positive). A flush emits `isLast = false`, adds exactly 1 to `chunkNum`, empties the buffer and restarts the timer; otherwise the state is unchanged |
| ChunkAssembly.ChunkNumOnlyOnFlush | src/ios/PhotoLibraryService.swift:212-238 | each callback either emits nothing and keeps `chunkNum`, or emits the buffer as the last chunk under the current number and keeps it, or emits the buffer as a non-final chunk under the current number and adds exactly 1 |
| ChunkAssembly.StepKeepsNumbering | src/ios/PhotoLibraryService.swift:212-238 | one callback keeps the invariant that every emitted chunk number agrees with the count of non-final flushes before it |
| ChunkAssembly.NonFinalChunksFull | src/ios/PhotoLibraryService.swift:216-238 | with a positive `itemsInChunk` and no time threshold, in any arrival order of the callbacks, every non-final chunk holds exactly `itemsInChunk` items |
| ChunkAssembly.StepKeepsSized | src/ios/PhotoLibraryService.swift:227-238 | with a count trigger alone, one callback keeps every non-final chunk at exactly `itemsInChunk` items |
| ChunkAssembly.ChunkNumbering | src/ios/PhotoLibraryService.swift:212-238 | in any arrival order, every emitted chunk number, and the current one, counts the non-final flushes before it |
| ChunkAssembly.EmptyFetchEmitsNothing | src/ios/PhotoLibraryService.swift:216 | a fetch result with no assets never calls the completion |
| ChunkAssembly.Sequential | src/ios/PhotoLibraryService.swift:216-240 | the arrival order in which each item completes before the next is enumerated has two events per item |
| ChunkAssembly.FlattenSnoc | src/ios/PhotoLibraryService.swift:231-235 | the items delivered so far grow by each emitted chunk's items |
| ChunkAssembly.RunPair | src/ios/PhotoLibraryService.swift:216-240 | in that order, item `n` is appended and then completed |
| ChunkAssembly.PairKeepsSoFar | src/ios/PhotoLibraryService.swift:225-238 | in that order, the delivered items and the buffer together are always the prefix enumerated so far |
| ChunkAssembly.SequentialPrefix | src/ios/PhotoLibraryService.swift:216-240 | the same holds after any number of items short of the last |
| ChunkAssembly.SequentialDelivery | src/ios/PhotoLibraryService.swift:216-240 | with each item completing before the next is enumerated (and no `maxItems` cut), the chunks deliver every item once, in order. Only the last chunk is marked last, and with a count trigger alone every earlier chunk has exactly `itemsInChunk` items |
| ChunkAssembly.OutOfOrderRepeatsItems | src/ios/PhotoLibraryService.swift:227-238 | exhibits the failure outside the sequential order: with 2 items and a 1-second threshold, the last item completing first and the first item completing 5 seconds later emit `["a", "b"]` as the last chunk and then again as a non-final chunk |
| ChunkAssembly.UncompletedItemStillArrives | src/ios/PhotoLibraryService.swift:225-232 | an item whose completion never fires is still emitted: the last item's completion sends the whole buffer, the first item included |
| ChunkAssembly.Enumerations | src/ios/PhotoLibraryService.swift:216 | the enumeration callbacks for the first `n` items, in index order |
| ChunkAssembly.EnumerationsFillBuffer | src/ios/PhotoLibraryService.swift:216-225 | enumeration without completions only fills the buffer |
| ChunkAssembly.CompletionsAfterFullBuffer | src/ios/PhotoLibraryService.swift:227-238 | when no non-final trigger can fire, each arrival of the last index emits the whole buffer as a last chunk and nothing else happens |
| ChunkAssembly.AllEnumeratedFirst | src/ios/PhotoLibraryService.swift:216-240 | when every enumeration runs before any completion and no non-final trigger fires, the caller gets exactly one chunk holding all items, marked last |
| ChunkAssembly.RunAppend | src/ios/PhotoLibraryService.swift:216-240 | running two batches of callbacks in turn equals running them together |
| ChunkAssembly.ChunkAssembler.constructor | src/ios/PhotoLibraryService.swift:212-214 | an empty buffer, chunk number 0, the timer started now |
| ChunkAssembly.ChunkAssembler.Append | src/ios/PhotoLibraryService.swift:218-225 | the enumeration callback's new state is the `OnEnumerated` step |
| ChunkAssembly.ChunkAssembler.Complete | src/ios/PhotoLibraryService.swift:231-238 | the enrichment callback's new state is the `OnCompleted` step |
| Enrichment.Before | src/ios/PhotoLibraryService.swift:270 | `components(separatedBy:).first` is the longest separator-free prefix |
| Enrichment.After | src/ios/PhotoLibraryService.swift:315 | `components(separatedBy:).last` is the longest separator-free suffix |
| Enrichment.MediaKind | src/ios/PhotoLibraryService.swift:270 | the media kind never contains "/" |
| Enrichment.TokenPath | src/ios/PhotoLibraryService.swift:314-315 | the token path never contains ";" |
| Enrichment.KindOfComposedType | src/ios/PhotoLibraryService.swift:270 | the kind of `kind + "/" + subtype` is `kind` |
| Enrichment.PathOfComposedToken | src/ios/PhotoLibraryService.swift:314-315 | the path of `fields + ";" + path` is `path` when the path has no ";" |
| Enrichment.CompleteInfo | src/ios/PhotoLibraryService.swift:259-328 | a missing id or an unknown or audio kind gives nil; an image gives nil iff it has no data, and traps iff it has data and either its image source yields no properties (the unwrap at line 288) or it has no file URL; an image with data, no such properties trap and a file URL gives that URL's path; a URL video gives its path; a composed video gives the token's last field, or traps without a token; any other video never completes |
| Enrichment.FilteredOutItemHasNoPath | src/ios/PhotoLibraryService.swift:262-266 | an item a later configuration filters out is completed with nil |
| AlbumCatalog.OfKind | src/ios/PhotoLibraryService.swift:379 | exactly the collections of one type |
| AlbumCatalog.Summaries | src/ios/PhotoLibraryService.swift:381-390 | one record per collection |
| AlbumCatalog.GetAlbums | src/ios/PhotoLibraryService.swift:373-396 | all user albums, then all smart albums, each as id and title in store order; a record appears iff it summarises a non-moment collection |
| AlbumCatalog.Join | src/ios/PhotoLibraryService.swift:432 | `joined(separator:)` starts with the first name and ends with the last |
| AlbumCatalog.JoinLength | src/ios/PhotoLibraryService.swift:432 | the joined length is the names' total plus one separator between each pair |
| AlbumCatalog.KeptMoments | src/ios/PhotoLibraryService.swift:411-425 | the filter never lengthens the list |
| AlbumCatalog.KeptSnoc | src/ios/PhotoLibraryService.swift:406-425 | the filter decides each moment on its own, in order |
| AlbumCatalog.KeptPrefix | src/ios/PhotoLibraryService.swift:406-425 | the same, for each prefix of the moments |
| AlbumCatalog.Kept | src/ios/PhotoLibraryService.swift:411-425 | the three guards of the enumeration closure: the start date is present and not before `fromDate` (if given), the end date is present and not after `toDate` (if given), and there is a location name; stated by `KeptMembership` |
| AlbumCatalog.KeptMembership | src/ios/PhotoLibraryService.swift:411-425 | a moment is kept iff it has the start date (if `fromDate` is given) with `fromDate <= start`, and the end date (if `toDate` is given) with `end <= toDate`, and at least one location name |
| AlbumCatalog.KeptMomentsConcat | src/ios/PhotoLibraryService.swift:406-449 | the output follows the collection order (the filter distributes over concatenation) |
| AlbumCatalog.MembersIn | src/ios/PhotoLibraryService.swift:441 | exactly the store's assets in the moment |
| AlbumCatalog.MomentRecord | src/ios/PhotoLibraryService.swift:432-445 | a moment record's locations are the names joined with ", ", and its item ids are exactly the moment's assets, newest first |
| AlbumCatalog.Entries | src/ios/PhotoLibraryService.swift:447 | one record per kept moment |
| AlbumCatalog.EntriesSnoc | src/ios/PhotoLibraryService.swift:447 | records are appended in the order of the kept moments |
| AlbumCatalog.GetMoments | src/ios/PhotoLibraryService.swift:398-455 | the records of the kept moments in store order, iff every kept moment has both dates; otherwise the trap at the first kept moment that lacks one |
| AlbumCatalog.MissingDateIsFirst | src/ios/PhotoLibraryService.swift:433-434 | the undated moment the loop stops at is the first undated one among the kept moments |
| Base64.SextetOf | src/ios/PhotoLibraryService.swift:867 | the alphabet maps characters to values 0 to 63 |
| Base64.CharOf | src/ios/PhotoLibraryService.swift:867 | every value 0 to 63 has a character that decodes to it, and that character is not the pad |
| Base64.DecodeFull | src/ios/PhotoLibraryService.swift:867 | an unpadded quantum decodes to 3 bytes |
| Base64.Decode | src/ios/PhotoLibraryService.swift:867 | `Data(base64Encoded:options: [])`: strict decoding, nil unless the length is a multiple of 4; stated by `DecodeEncode`, `DecodedIsAlphabet` and `Rejects` |
| Base64.DecodeFinal | src/ios/PhotoLibraryService.swift:867 | the final quantum decodes to 1 to 3 bytes |
| Base64.EncodeThree | src/ios/PhotoLibraryService.swift:867 | three bytes encode to an unpadded quantum that decodes back to them |
| Base64.EncodeTwo | src/ios/PhotoLibraryService.swift:867 | two bytes encode to a quantum with one pad that decodes back to them |
| Base64.EncodeOne | src/ios/PhotoLibraryService.swift:867 | one byte encodes to a quantum with two pads that decodes back to it |
| Base64.Encode | src/ios/PhotoLibraryService.swift:867 | the encoding has length divisible by 4, is empty iff the input is, and never contains ";" |
| Base64.DecodeEncode | src/ios/PhotoLibraryService.swift:867 | round trip: decoding an encoding gives back the bytes |
| Base64.DecodedIsAlphabet | src/ios/PhotoLibraryService.swift:867-869 | whatever decodes contains only alphabet and pad characters |
| Base64.Rejects | src/ios/PhotoLibraryService.swift:867-869 | a character outside the alphabet and the pad makes decoding fail |
| DataUrl.IsDataUrl | src/ios/PhotoLibraryService.swift:860 | `url.hasPrefix("data:")` |
| DataUrl.HeaderAt | src/ios/PhotoLibraryService.swift:110 | `^data:.+?;base64,` matches the prefix ending with the marker at `k`: the scheme, at least one character with no line terminator, then `;base64,`; `ScanFrom` and `FirstHeader` find the first such `k` |
| DataUrl.ScanFrom | src/ios/PhotoLibraryService.swift:110 | the lazy `.+?` stops at the first marker position from `k` on, with no line terminator before it; it finds none iff there is none |
| DataUrl.FirstHeader | src/ios/PhotoLibraryService.swift:110 | the first match of `^data:.+?;base64,`, or none iff the pattern does not match |
| DataUrl.GetDataFromUrl | src/ios/PhotoLibraryService.swift:859-885 | a data URL that does not match throws "could not be parsed"; a non-data URL that does not parse throws "could not be decoded: url", and one that cannot be read throws "could not be read: url"; a data URL never reaches the file-loading path |
| DataUrl.PayloadAfterFirstMarker | src/ios/PhotoLibraryService.swift:862-871 | the payload is the text after the first qualifying marker, decoded as a whole or rejected with "could not be decoded" |
| DataUrl.DataUrlRoundTrip | src/ios/PhotoLibraryService.swift:859-871 | `data:<type>;base64,<encoding of b>` loads exactly `b` for any non-empty media type without ";" or line terminators |
| DataUrl.DataUrlIgnoresLoader | src/ios/PhotoLibraryService.swift:860-872 | for a data URL, what `URL(string:)` and `Data(contentsOf:)` would answer makes no difference |
| Authorization.HasPermission | src/ios/PhotoLibraryService.swift:152-155 | permission iff the status is `.authorized` |
| Authorization.RequestAuthorization | src/ios/PhotoLibraryService.swift:664-696 | it prompts iff the status is not determined. Success iff already authorized or the prompt answers authorized. It opens the settings iff the status is any other and the URL exists, and then calls neither callback. It fails with "requestAuthorization denied by user" iff the prompt was shown and did not answer authorized, and with "could not open settings url" iff the status is any other and the URL is missing; no other failure text occurs |
| Authorization.SuccessMeansPermission | src/ios/PhotoLibraryService.swift:664-696 | success is reported iff the resulting status grants permission |
| Authorization.LimitedIsNotAuthorized | src/ios/PhotoLibraryService.swift:152-155 | `.limited` is not permission, never yields success, and as a prompt answer yields "requestAuthorization denied by user" |
| Caching.CacheState.constructor | src/ios/PhotoLibraryService.swift:89 | caching starts inactive |
| Caching.CacheState.StopCaching | src/ios/PhotoLibraryService.swift:655-662 | the manager is stopped iff caching was active, and the flag is always left cleared |
| Caching.StopTwice | src/ios/PhotoLibraryService.swift:655-662 | two stops send exactly one request if caching was active and none otherwise: the second stop sends nothing |
| Rendering.ImageHasAlpha | src/ios/PhotoLibraryService.swift:938-941 | true iff the alpha info is first, last, premultiplied first or premultiplied last; `alphaOnly` and a missing CGImage give false |
| Rendering.Image2PictureData | src/ios/PhotoLibraryService.swift:914-936 | an alpha image gets PNG data, any other image JPEG data; a nil from the chosen encoder gives nil |
| Rendering.AlphaKeptAsPng | src/ios/PhotoLibraryService.swift:923-932 | a result is PNG iff the image has alpha, and it carries the chosen encoder's bytes |
| Rendering.TranslatedBy | src/ios/PhotoLibraryService.swift:39 | `translatedBy(x:y:)`: the translation acts before the transform; used by `CorrectedTable` and `TurnedTranslation` |
| Rendering.RotatedBy | src/ios/PhotoLibraryService.swift:40 | `rotated(by:)` by a multiple of π/2: the turn acts before the transform; used by `CorrectedTable` and `TurnedTranslation` |
| Rendering.ScaledBy | src/ios/PhotoLibraryService.swift:56 | `scaledBy(x:y:)`: the scaling acts before the transform; used by `FlipForm` |
| Rendering.Upright | src/ios/PhotoLibraryService.swift:35-51 | the first case table: the translate-then-turn transform of the unmirrored orientation; its closed form is in `UprightTable` |
| Rendering.CorrectedTransform | src/ios/PhotoLibraryService.swift:35-62 | the two case tables with the second one's results kept; stated by `CorrectedTable`, `CorrectedMatchesReference` and `CorrectedHandedness` |
| Rendering.AsWrittenTransform | src/ios/PhotoLibraryService.swift:35-62 | as written, the transform of a mirrored orientation is that of its unmirrored form |
| Rendering.DrawSize | src/ios/PhotoLibraryService.swift:66-73 | the draw rectangle swaps width and height exactly for quarter turns |
| Rendering.CorrectedTable | src/ios/PhotoLibraryService.swift:35-62 | the closed form of each of the eight corrected transforms |
| Rendering.CorrectedMatchesReference | src/ios/PhotoLibraryService.swift:35-62 | the corrected transform sends every point where the orientation's pixel mapping puts it |
| Rendering.AsWrittenIsUnmirrored | src/ios/PhotoLibraryService.swift:53-62 | the as-written transform equals the corrected one of the unmirrored orientation |
| Rendering.AsWrittenMatchesUnmirrored | src/ios/PhotoLibraryService.swift:35-51 | for the four unmirrored orientations, the as-written transform is right |
| Rendering.MirrorMovesOrigin | src/ios/PhotoLibraryService.swift:53-62 | on a non-empty image, mirroring changes where the origin pixel belongs |
| Rendering.AsWrittenMisplacesMirrored | src/ios/PhotoLibraryService.swift:53-62 | for every mirrored orientation on a non-empty image, the as-written transform puts the origin pixel in the wrong place |
| Rendering.UpMirroredCounterexample | src/ios/PhotoLibraryService.swift:54-56 | `upMirrored` at 2 by 1: the as-written transform is the identity, while the corrected one sends (0, 0) to (2, 0) |
| Rendering.CorrectedHandedness | src/ios/PhotoLibraryService.swift:35-62 | the corrected transform reverses handedness exactly for mirrored orientations |
| Rendering.AsWrittenHandedness | src/ios/PhotoLibraryService.swift:35-62 | the as-written transform never reverses handedness |
| Rendering.MirroredTableReverses | src/ios/PhotoLibraryService.swift:53-60 | the closed forms of mirrored orientations have determinant -1 |
| Rendering.UnmirroredTableKeeps | src/ios/PhotoLibraryService.swift:35-51 | the closed forms of unmirrored orientations have determinant 1 |
| Rendering.CorrectedFillsCanvas | src/ios/PhotoLibraryService.swift:64-73 | the drawn rectangle's corners land exactly on the canvas corners |
| Rendering.FixedOrientation | src/ios/PhotoLibraryService.swift:32-76 | the corrected `fixedOrientation` (the Findings row below): `.up` returns the image unchanged. Anything else is redrawn on a w by h canvas, with every pixel placed where the orientation's mapping puts it, and the drawn rectangle covers the canvas exactly |
| AlbumWriter.FindRegularFrom | src/ios/PhotoLibraryService.swift:947-948 | the first regular album with the title from `k` on, or none iff there is none |
| AlbumWriter.FindPhotoAlbum | src/ios/PhotoLibraryService.swift:943-954 | `getPhotoAlbum`: the first regular album with the title, or nil iff there is none |
| AlbumWriter.FirstWithId | src/ios/PhotoLibraryService.swift:972-974 | the first collection with the id (no earlier one has it), or none iff there is none |
| AlbumWriter.LastGroup | src/ios/PhotoLibraryService.swift:992-1005 | the last album group with the name, or none iff there is none |
| AlbumWriter.GetAlPhotoAlbum | src/ios/PhotoLibraryService.swift:988-1011 | "Could not enumerate assets library" when enumeration fails; otherwise the last group with the name, or "Could not find album" iff there is none |
| AlbumWriter.AfterAlbumStep | src/ios/PhotoLibraryService.swift:746-760 | the collections after the get-or-create step: unchanged when an album has the title or the change did not commit, otherwise with the new album appended; stated by `AlbumStepAppendsOnly` |
| AlbumWriter.CreationReply | src/ios/PhotoLibraryService.swift:966-983 | `createPhotoAlbum`'s answer: "Album placeholder is nil", "FetchResult has no PHAssetCollection", the created album, or the change's error; stated by `MediaLibrary.CreatePhotoAlbum` |
| AlbumWriter.AlbumReply | src/ios/PhotoLibraryService.swift:746-760 | the album the get-or-create step hands on, or why it failed; stated by `AlbumReadyIffAvailable` |
| AlbumWriter.AlbumStepAppendsOnly | src/ios/PhotoLibraryService.swift:746-760 | the get-or-create step keeps every existing collection and adds one album iff none had the title and the change committed |
| AlbumWriter.AlbumReadyIffAvailable | src/ios/PhotoLibraryService.swift:746-760 | the step hands on an album iff one existed or the creation committed, and afterwards that album is found by title |
| AlbumWriter.SecondStepCreatesNothing | src/ios/PhotoLibraryService.swift:746-749 | after a successful step, a second step with the same title creates nothing |
| AlbumWriter.TwoSavesCreateOneAlbum | src/ios/PhotoLibraryService.swift:746-749 | after a first save's successful album step and its link (whatever the link answers), a second save with the same album name finds the album and creates nothing, whatever its own creation would do; the two saves add one collection in all when the album was new, and none otherwise |
| AlbumWriter.LinkKeepsLookup | src/ios/PhotoLibraryService.swift:887-912 | the link step keeps the number of collections and the by-title album lookup |
| AlbumWriter.CreatedAlbumIsLinkTarget | src/ios/PhotoLibraryService.swift:746-760 | a newly created album is the last group with its name |
| AlbumWriter.ReusedAlbumIsNotLinkTarget | src/ios/PhotoLibraryService.swift:746-749 | with two albums of one title, the first is reused but the second is the link target |
| AlbumWriter.AddMember | src/ios/PhotoLibraryService.swift:903 | `add(asset)` appends the id to that group only |
| AlbumWriter.AddMemberKeepsLookups | src/ios/PhotoLibraryService.swift:903 | adding an asset changes neither the album found by title nor the group found by name |
| AlbumWriter.GroupErrorText | src/ios/PhotoLibraryService.swift:899 | the text of a group error, with the optional message spelled `Optional("…")` |
| AlbumWriter.LinkReply | src/ios/PhotoLibraryService.swift:887-912 | `putMediaToAlbum`'s error: the lookup failure, a nil asset, or a group error; none when the media was added; stated by `LinkedIffGroupExists` |
| AlbumWriter.AfterLink | src/ios/PhotoLibraryService.swift:887-912 | the collections after `putMediaToAlbum`: the id appended to the last group with the name when the link succeeded and the group's `add` accepted it, otherwise unchanged; stated by `LinkedIffGroupExists` and `LinkKeepsLookup` |
| AlbumWriter.LinkedIffGroupExists | src/ios/PhotoLibraryService.swift:887-912 | the link reports success iff the asset resolves, groups enumerate and a group has the name. Then the last such group gains the id if it accepts the asset, and nothing else changes; a group that refuses it leaves the collections unchanged under the same success reply |
| AlbumWriter.MediaLibrary.constructor | src/ios/PhotoLibraryService.swift:712 | the library as given |
| AlbumWriter.MediaLibrary.CreatePhotoAlbum | src/ios/PhotoLibraryService.swift:956-986 | one album is added iff the change committed; the reply is the album or "Album placeholder is nil", "FetchResult has no PHAssetCollection" or the change's error |
| AlbumWriter.MediaLibrary.GetOrCreatePhotoAlbum | src/ios/PhotoLibraryService.swift:746-760 | the state and reply of the get-or-create step |
| AlbumWriter.MediaLibrary.PutMediaToAlbum | src/ios/PhotoLibraryService.swift:887-912 | the reply is "Could not retrieve saved asset: …", "Retrieved asset is nil", "getting photo album caused error: …" or success, whatever the group's `add` answers. The last group with the name gains the asset exactly on success with `add` accepting it |
| AlbumWriter.WriteReply | src/ios/PhotoLibraryService.swift:715-743 | the reply once the album step succeeded: it is `Saved` iff the write produced an asset and the link succeeded; a failed link of a written asset reports the link's error |
| AlbumWriter.MediaLibrary.WriteAndLink | src/ios/PhotoLibraryService.swift:715-743 | a write error or an empty asset fails with its exact text and links nothing. A written asset is added to the library and linked (`AfterLink`, so only into a group that accepts it), and the save succeeds iff the link reply is none, with the item exactly when the lookup finds one asset |
| AlbumWriter.MediaLibrary.SaveImage | src/ios/PhotoLibraryService.swift:702-762 | a source-data error is reported with its text and changes nothing; an album-step failure is reported and changes nothing; otherwise the assets, the collections and the reply are those of the write and link on the collections after the album step (`WriteReply`). After a successful save an album with the title exists; the image is in the last group with the album's name if that group accepted it, and otherwise the collections are those after the album step |
| AlbumWriter.MediaLibrary.SaveVideo | src/ios/PhotoLibraryService.swift:764-839 | an unparsable URL fails with "Could not parse DataURL" and changes nothing. An album-step failure is reported. An incompatible video fails after the album step, whose album stays. Otherwise the assets, the collections and the reply are those of the write and link on the collections after the album step (`WriteReply`). After a successful save the video is in the last group with the album's name if that group accepted it, and otherwise the collections are those after the album step |
| AlbumWriter.SavedIsFindable | src/ios/PhotoLibraryService.swift:727-740 | after a successful link, the album is still found by title; the last group with the name holds the asset if it accepted it, and otherwise the collections are unchanged |

## Left out

- Photos, AssetsLibrary and AVFoundation are left out: fetches, image and AV requests, `performChanges`, the writes, `asset(for:)`, the compatibility test. Each is a parameter holding its answer (`Answers`, `Creation`, `SaveOutcomes` with `groupAccepts` for `ALAssetsGroup.add(_:)`, `parses`/`contents`, `promptAnswer`, `settingsUrl`), because these are foreign calls.
- AssetsLibrary album groups are modelled as the store's collections of type album, in the same order, and a group's name is the collection's title. The two libraries' real correspondence is a foreign detail.
- `ChunkAssembly.SequentialDelivery`: the partition of the items into chunks, with none dropped or repeated, is proved only for the sequential arrival order. In other orders the source can repeat items (`OutOfOrderRepeatsItems`), so no all-orders form of the partition holds; the chunk sizes under a count trigger alone do hold in every order (`NonFinalChunksFull`).
- Library items are reduced to their ids, so the aliasing at line 229 is not modelled: `libraryItem` is the dictionary already appended to `chunk`, and writing `filePath` into it changes the item inside the chunk, even one already emitted. Whether an emitted item carries its `filePath` is not captured.
- Concurrency and callback timing in `getLibrary` and `getCompleteInfo` are left out. The order in which callbacks arrive is an input sequence of events, and the clock is an integer passed with each completion. `options.chunkTimeSec` and `abs(chunkStartTime.timeIntervalSinceNow)`, compared at line 234 as `Double` seconds, are both taken as integers in one unit, so a fractional threshold or the sub-second part of the elapsed time is not modelled.
- `mimeTypeForPath`, EXIF/GPS/TIFF extraction, and JPEG/PNG encoding are left out, because they are codec and type-lookup calls. The MIME type is an input, and the encoders' outputs are parameters of `Image2PictureData`.
- `Base64.Decode`: the decoder is strict: the length must be a multiple of 4 and the pad may appear only at the end. Non-zero pad bits are accepted, because Foundation's exact behaviour there is not known.
- Base64 encoding of file bytes in `getLibraryItem`, `getThumbnail` and `getPhoto` is left out. The encoder here exists only to state the round trip.
- The CGContext rasterisation, `CGFloat` sizes and the angle π are left out. `fixedOrientation` is modelled with quarter turns, integer sizes and integer affine transforms.
- `DateFormatter` is left out. Dates are integers, and moment records carry them unformatted.
- `assetToLibraryItem` is left out except for the asset id: a library item and a saved item are identified by their id. `URL(fileURLWithPath:).relativePath` and `relativePath` are modelled as the identity on the path.
- Strings are sequences of characters. The regular expression's UTF-16 range and `url.characters.count` (grapheme clusters) are not distinguished, so a URL where the two counts differ is not modelled.
- Error texts built with `"\(error)"` are taken as given strings: the `Creation.error` field, `WriteOutcome.error` and `LookupFailed`. The `Optional("…")` wrapping is modelled only where the argument is a known string (`GroupErrorText`).
- `getVideo`, `getThumbnail`, `getPhoto` and `getLibraryItem` are left out: they are thin wrappers over foreign requests that return nil for a missing id.
- `UIApplication.openURL` is a foreign call. Only whether the settings URL exists is modelled.
- The commented-out caching block in `getLibrary` and the `mimeTypes` table, used only by commented-out lines, are left out. No live code sets `cacheActive` to true: the only such line, 209, is commented out.
- The fetch options meant for the thumbnail and image requests, and the image/video request options, only tune foreign calls, so they are left out.

## Findings

| source | as written | input that shows it | evidently intended | confidence | as-written member | corrected member |
|---|---|---|---|---|---|---|
| src/ios/PhotoLibraryService.swift:53-62 | the second switch calls `translatedBy` and `scaledBy` on `transform` and discards the results, so a mirrored orientation is drawn with the transform of its unmirrored form | `upMirrored`, width 2, height 1: the transform stays the identity and pixel (0, 0) stays at (0, 0) | translate by the drawn width and flip horizontally before the upright turn, so the pixel goes to (2, 0) and the image is un-mirrored | not executed | Rendering.AsWrittenTransform (Rendering.AsWrittenMisplacesMirrored, Rendering.UpMirroredCounterexample, Rendering.AsWrittenHandedness) | Rendering.CorrectedTransform (Rendering.CorrectedMatchesReference, Rendering.CorrectedHandedness, Rendering.FixedOrientation) |
