/**
 * Saving to a named album (`saveImage`, `saveVideo`): find or create the
 * Photos album, write the media to the camera roll through AssetsLibrary,
 * then add it to the AssetsLibrary group with the album's name. Each
 * foreign call's outcome is an input; the library's assets and collections
 * are the state the save changes.
 */
module AlbumWriter {
  import opened PhotoStore
  import opened Base64
  import opened DataUrl

  /** What `getPhotoAlbum`'s fetch matches: a regular user album with exactly this title. */
  predicate IsRegularAlbum(c: Collection, title: string) {
    c.kind == Album && c.subtype == AlbumRegular && c.title == title
  }

  /** What `getAlPhotoAlbum` matches: an `ALAssetsGroupAlbum` group whose name is the album. */
  predicate IsAlbumGroup(c: Collection, name: string) {
    c.kind == Album && c.title == name
  }

  function FindRegularFrom(cols: seq<Collection>, title: string, k: nat): (r: Option<nat>)
    requires k <= |cols|
    ensures r.Some? ==> k <= r.value < |cols| && IsRegularAlbum(cols[r.value], title)
    ensures r.Some? ==> forall i :: k <= i < r.value ==> !IsRegularAlbum(cols[i], title)
    ensures r.None? <==> forall i :: k <= i < |cols| ==> !IsRegularAlbum(cols[i], title)
    decreases |cols| - k
  {
    if k == |cols| then None
    else if IsRegularAlbum(cols[k], title) then Some(k)
    else FindRegularFrom(cols, title, k + 1)
  }

  /** `getPhotoAlbum`: the first regular album with the title (`firstObject`). */
  function FindPhotoAlbum(cols: seq<Collection>, title: string): (r: Option<nat>)
    ensures r.Some? ==> r.value < |cols| && IsRegularAlbum(cols[r.value], title)
    ensures r.Some? ==> forall i :: 0 <= i < r.value ==> !IsRegularAlbum(cols[i], title)
    ensures r.None? <==> forall i :: 0 <= i < |cols| ==> !IsRegularAlbum(cols[i], title)
  {
    FindRegularFrom(cols, title, 0)
  }

  /** The first collection with a local identifier (`fetchAssetCollections(withLocalIdentifiers:)`). */
  function FirstWithId(cols: seq<Collection>, id: string): (r: Option<nat>)
    ensures r.Some? ==> r.value < |cols| && cols[r.value].id == id
    ensures r.None? <==> forall i :: 0 <= i < |cols| ==> cols[i].id != id
    ensures r.Some? ==> forall i :: 0 <= i < r.value ==> cols[i].id != id
  {
    if cols == [] then None
    else if cols[0].id == id then Some(0)
    else
      var r := FirstWithId(cols[1..], id);
      if r.None? then
        assert forall i :: 1 <= i < |cols| ==> cols[i] == cols[1..][i - 1];
        None
      else
        assert forall i :: 1 <= i < r.value + 1 ==> cols[i] == cols[1..][i - 1];
        Some(r.value + 1)
  }

  /** The group `getAlPhotoAlbum` settles on: the last one with the name. */
  function LastGroup(cols: seq<Collection>, name: string): (r: Option<nat>)
    ensures r.Some? ==> r.value < |cols| && IsAlbumGroup(cols[r.value], name)
    ensures r.Some? ==> forall j :: r.value < j < |cols| ==> !IsAlbumGroup(cols[j], name)
    ensures r.None? <==> forall j :: 0 <= j < |cols| ==> !IsAlbumGroup(cols[j], name)
  {
    if cols == [] then None
    else if IsAlbumGroup(cols[|cols| - 1], name) then Some(|cols| - 1)
    else
      var r := LastGroup(cols[..|cols| - 1], name);
      assert forall j :: 0 <= j < |cols| - 1 ==> cols[j] == cols[..|cols| - 1][j];
      r
  }

  datatype GroupLookup = FoundGroup(index: nat) | GroupError(message: string)

  /**
   * `getAlPhotoAlbum`: enumerate the album groups, remembering each one
   * whose name matches; `enumerable` is false when the enumeration fails.
   */
  method GetAlPhotoAlbum(groups: seq<Collection>, album: string, enumerable: bool) returns (r: GroupLookup)
    ensures !enumerable ==> r == GroupError("Could not enumerate assets library")
    ensures enumerable ==> (r.FoundGroup? <==> exists i :: 0 <= i < |groups| && IsAlbumGroup(groups[i], album))
    ensures enumerable && r.GroupError? ==> r.message == "Could not find album"
    ensures r.FoundGroup? ==> r.index < |groups| && IsAlbumGroup(groups[r.index], album)
    ensures r.FoundGroup? ==> forall j :: r.index < j < |groups| ==> !IsAlbumGroup(groups[j], album)
    ensures enumerable ==> r == if LastGroup(groups, album).Some? then FoundGroup(LastGroup(groups, album).value)
                                 else GroupError("Could not find album")
  {
    if !enumerable {
      return GroupError("Could not enumerate assets library");
    }
    var placeholder: Option<nat> := None;
    for i := 0 to |groups|
      invariant placeholder.Some? ==> placeholder.value < i && IsAlbumGroup(groups[placeholder.value], album)
      invariant placeholder.Some? ==> forall j :: placeholder.value < j < i ==> !IsAlbumGroup(groups[j], album)
      invariant placeholder.None? ==> forall j :: 0 <= j < i ==> !IsAlbumGroup(groups[j], album)
    {
      if IsAlbumGroup(groups[i], album) {
        placeholder := Some(i);
      }
    }
    if placeholder.None? {
      return GroupError("Could not find album");
    }
    return FoundGroup(placeholder.value);
  }

  /** The album `createPhotoAlbum` adds. */
  function NewAlbum(id: string, title: string): Collection {
    Collection(id, title, Album, AlbumRegular, None, None, [], [])
  }

  /**
   * The outcome of `performChanges`: whether the change block ran (so the
   * placeholder was set), whether the change committed, the new album's
   * identifier and the text of the reported error.
   */
  datatype Creation = Creation(blockRan: bool, succeeded: bool, newId: string, error: string)

  predicate Commits(c: Creation) {
    c.blockRan && c.succeeded
  }

  datatype AlbumResult = AlbumReady(index: nat) | AlbumFailed(message: string)

  /** The collections after the get-or-create step: one album more exactly when none existed and the change committed. */
  function AfterAlbumStep(cols: seq<Collection>, album: string, c: Creation): seq<Collection> {
    if FindPhotoAlbum(cols, album).Some? || !Commits(c) then cols else cols + [NewAlbum(c.newId, album)]
  }

  /** What `createPhotoAlbum` reports, given the collections after the change. */
  function CreationReply(after: seq<Collection>, c: Creation): AlbumResult {
    if !c.blockRan then AlbumFailed("Album placeholder is nil")
    else match FirstWithId(after, c.newId)
      case None => AlbumFailed("FetchResult has no PHAssetCollection")
      case Some(i) => if c.succeeded then AlbumReady(i) else AlbumFailed(c.error)
  }

  /** The album the get-or-create step hands on, or why it failed. */
  function AlbumReply(cols: seq<Collection>, album: string, c: Creation): AlbumResult {
    if FindPhotoAlbum(cols, album).Some? then AlbumReady(FindPhotoAlbum(cols, album).value)
    else CreationReply(AfterAlbumStep(cols, album, c), c)
  }

  /** The step only ever appends, and only the new album. */
  lemma AlbumStepAppendsOnly(cols: seq<Collection>, album: string, c: Creation)
    ensures var after := AfterAlbumStep(cols, album, c);
      && after[..|cols|] == cols
      && |after| <= |cols| + 1
      && (|after| == |cols| + 1 <==> FindPhotoAlbum(cols, album).None? && Commits(c))
  {
  }

  /** The step succeeds exactly when the album existed or the creation committed; then the album is there. */
  lemma {:induction false} AlbumReadyIffAvailable(cols: seq<Collection>, album: string, c: Creation)
    ensures AlbumReply(cols, album, c).AlbumReady? <==> FindPhotoAlbum(cols, album).Some? || Commits(c)
    ensures AlbumReply(cols, album, c).AlbumReady? ==> FindPhotoAlbum(AfterAlbumStep(cols, album, c), album).Some?
  {
    var after := AfterAlbumStep(cols, album, c);
    if FindPhotoAlbum(cols, album).None? && Commits(c) {
      var n := |cols|;
      assert after[n] == NewAlbum(c.newId, album);
      assert FirstWithId(after, c.newId).Some?;
      assert IsRegularAlbum(after[n], album);
    } else if FindPhotoAlbum(cols, album).Some? {
      assert after == cols;
    }
  }

  /**
   * A second save with the same album name creates nothing, whatever the
   * second creation attempt would have done.
   */
  lemma SecondStepCreatesNothing(cols: seq<Collection>, album: string, c1: Creation, c2: Creation)
    requires AlbumReply(cols, album, c1).AlbumReady?
    ensures AfterAlbumStep(AfterAlbumStep(cols, album, c1), album, c2) == AfterAlbumStep(cols, album, c1)
  {
    AlbumReadyIffAvailable(cols, album, c1);
  }

  /** A freshly created album is the last group with its name, so the saved media is added to it. */
  lemma CreatedAlbumIsLinkTarget(cols: seq<Collection>, album: string, c: Creation)
    requires FindPhotoAlbum(cols, album).None? && Commits(c)
    ensures LastGroup(AfterAlbumStep(cols, album, c), album) == Some(|cols|)
  {
    var after := AfterAlbumStep(cols, album, c);
    assert IsAlbumGroup(after[|cols|], album);
  }

  /**
   * The album `getPhotoAlbum` reuses and the group the media is added to
   * can differ: with two regular albums named "Trip", the first is
   * reused and the media lands in the second.
   */
  lemma ReusedAlbumIsNotLinkTarget()
    ensures var cols := [NewAlbum("a", "Trip"), NewAlbum("b", "Trip")];
      FindPhotoAlbum(cols, "Trip") == Some(0) && LastGroup(cols, "Trip") == Some(1)
  {
    var cols := [NewAlbum("a", "Trip"), NewAlbum("b", "Trip")];
    assert IsRegularAlbum(cols[0], "Trip") && IsAlbumGroup(cols[1], "Trip");
  }

  /** The collection at `i` with one more member. */
  function AddMember(cols: seq<Collection>, i: nat, id: string): (r: seq<Collection>)
    requires i < |cols|
    ensures |r| == |cols| && r[i].members == cols[i].members + [id]
    ensures forall j :: 0 <= j < |cols| ==> r[j] == if j == i then cols[i].(members := cols[i].members + [id]) else cols[j]
  {
    cols[i := cols[i].(members := cols[i].members + [id])]
  }

  /** Adding a member changes no title, kind or subtype, so every lookup by name answers the same. */
  lemma AddMemberKeepsLookups(cols: seq<Collection>, i: nat, id: string, name: string)
    requires i < |cols|
    ensures FindPhotoAlbum(AddMember(cols, i, id), name) == FindPhotoAlbum(cols, name)
    ensures LastGroup(AddMember(cols, i, id), name) == LastGroup(cols, name)
  {
    var r := AddMember(cols, i, id);
    assert forall j :: 0 <= j < |cols| ==> (IsRegularAlbum(r[j], name) <==> IsRegularAlbum(cols[j], name));
    assert forall j :: 0 <= j < |cols| ==> (IsAlbumGroup(r[j], name) <==> IsAlbumGroup(cols[j], name));
    SameRegularFrom(r, cols, name, 0);
    SameLastGroup(r, cols, name);
  }

  /** The title lookup depends only on which positions hold a regular album with the title. */
  lemma {:induction false} SameRegularFrom(a: seq<Collection>, b: seq<Collection>, title: string, k: nat)
    requires |a| == |b| && k <= |a|
    requires forall j :: k <= j < |a| ==> (IsRegularAlbum(a[j], title) <==> IsRegularAlbum(b[j], title))
    ensures FindRegularFrom(a, title, k) == FindRegularFrom(b, title, k)
    decreases |a| - k
  {
    if k < |a| && !IsRegularAlbum(a[k], title) {
      SameRegularFrom(a, b, title, k + 1);
    }
  }

  /** The group lookup depends only on which positions hold a group with the name. */
  lemma {:induction false} SameLastGroup(a: seq<Collection>, b: seq<Collection>, name: string)
    requires |a| == |b|
    requires forall j :: 0 <= j < |a| ==> (IsAlbumGroup(a[j], name) <==> IsAlbumGroup(b[j], name))
    ensures LastGroup(a, name) == LastGroup(b, name)
    decreases |a|
  {
    if a != [] && !IsAlbumGroup(a[|a| - 1], name) {
      var m := |a| - 1;
      assert forall j :: 0 <= j < m ==> a[..m][j] == a[j] && b[..m][j] == b[j];
      SameLastGroup(a[..m], b[..m], name);
    }
  }

  /** What `assetsLibrary.asset(for:)` answers for the written asset's URL. */
  datatype AssetLookup = Resolved | ResolvedNil | LookupFailed(description: string)

  /** `"getting photo album caused error: \(error)"` with `error` an optional string. */
  function GroupErrorText(message: string): string {
    "getting photo album caused error: Optional(\"" + message + "\")"
  }

  /** The error `putMediaToAlbum` reports, or `None` when the media was added. */
  function LinkReply(cols: seq<Collection>, album: string, lookup: AssetLookup, enumerable: bool): Option<string> {
    match lookup
    case LookupFailed(d) => Some("Could not retrieve saved asset: " + d)
    case ResolvedNil => Some("Retrieved asset is nil")
    case Resolved =>
      if !enumerable then Some(GroupErrorText("Could not enumerate assets library"))
      else if LastGroup(cols, album).None? then Some(GroupErrorText("Could not find album"))
      else None
  }

  /**
   * The collections after `putMediaToAlbum`; `accepted` is what the group's
   * `add` answers. The reply ignores that answer, so a group that refuses
   * the asset still reports success.
   */
  function AfterLink(cols: seq<Collection>, album: string, id: string, lookup: AssetLookup, enumerable: bool, accepted: bool): seq<Collection> {
    if LinkReply(cols, album, lookup, enumerable).None? && accepted then AddMember(cols, LastGroup(cols, album).value, id) else cols
  }

  /**
   * The link reports success exactly when the asset resolves and some group
   * has the name; the media then goes to the last such group if that group
   * accepts it, and nothing changes otherwise.
   */
  lemma LinkedIffGroupExists(cols: seq<Collection>, album: string, id: string, lookup: AssetLookup, enumerable: bool, accepted: bool)
    ensures LinkReply(cols, album, lookup, enumerable).None? <==>
      lookup.Resolved? && enumerable && exists j :: 0 <= j < |cols| && IsAlbumGroup(cols[j], album)
    ensures LinkReply(cols, album, lookup, enumerable).None? ==>
      var i := LastGroup(cols, album).value;
      && AfterLink(cols, album, id, lookup, enumerable, accepted)[i].members == cols[i].members + (if accepted then [id] else [])
      && forall j :: i < j < |cols| ==> !IsAlbumGroup(cols[j], album)
    ensures !accepted ==> AfterLink(cols, album, id, lookup, enumerable, accepted) == cols
  {
    if exists j :: 0 <= j < |cols| && IsAlbumGroup(cols[j], album) {
      assert LastGroup(cols, album).Some?;
    }
  }

  /** How a write to the camera roll ended. */
  datatype WriteOutcome = WriteOutcome(error: Option<string>, written: Option<Asset>)

  predicate Wrote(w: WriteOutcome) {
    w.error.None? && w.written.Some?
  }

  /** The inputs of a save: the outcome of every foreign call it makes. */
  datatype SaveOutcomes = SaveOutcomes(
    urlParses: bool,                   // URL(string:) accepts the text
    urlContents: Option<seq<byte>>,    // Data(contentsOf:), for a non-data URL
    creation: Creation,                // performChanges, if an album is created
    compatible: bool,                  // videoAtPathIs(compatibleWithSavedPhotosAlbum:)
    write: WriteOutcome,               // writeImageData / writeVideoAtPath
    lookup: AssetLookup,               // asset(for:)
    groupsEnumerable: bool,            // enumerateGroupsWithTypes succeeds
    groupAccepts: bool,                // ALAssetsGroup.add(_:) answers true
    itemFound: bool)                   // fetchAssets(withALAssetURLs:) finds exactly one asset

  /** What the save's completion receives: the saved item's id (or none), or an error. */
  datatype SaveResult = Saved(item: Option<string>) | SaveFailed(message: string)

  /**
   * What the completion of a save receives once the album step has succeeded:
   * the write error, the empty-asset error, the link error, or the saved item.
   */
  function WriteReply(noun: string, cols: seq<Collection>, album: string, o: SaveOutcomes): (r: SaveResult)
    ensures r.Saved? <==> Wrote(o.write) && LinkReply(cols, album, o.lookup, o.groupsEnumerable).None?
    ensures r.SaveFailed? && Wrote(o.write) ==> LinkReply(cols, album, o.lookup, o.groupsEnumerable) == Some(r.message)
  {
    if o.write.error.Some? then SaveFailed("Could not write " + noun + " to album: " + o.write.error.value)
    else if o.write.written.None? then SaveFailed("Writing " + noun + " to album resulted empty asset")
    else match LinkReply(cols, album, o.lookup, o.groupsEnumerable)
      case Some(message) => SaveFailed(message)
      case None => Saved(if o.itemFound then Some(o.write.written.value.id) else None)
  }

  class MediaLibrary {
    var assets: seq<Asset>
    var collections: seq<Collection>

    constructor (assets0: seq<Asset>, collections0: seq<Collection>)
      ensures assets == assets0 && collections == collections0
    {
      assets := assets0;
      collections := collections0;
    }

    /** `createPhotoAlbum` */
    method CreatePhotoAlbum(album: string, c: Creation) returns (r: AlbumResult)
      modifies this
      ensures assets == old(assets)
      ensures collections == if Commits(c) then old(collections) + [NewAlbum(c.newId, album)] else old(collections)
      ensures r == CreationReply(collections, c)
    {
      if Commits(c) {
        collections := collections + [NewAlbum(c.newId, album)];
      }
      if !c.blockRan {
        return AlbumFailed("Album placeholder is nil");
      }
      var found := FirstWithId(collections, c.newId);
      if found.None? {
        return AlbumFailed("FetchResult has no PHAssetCollection");
      }
      if c.succeeded {
        return AlbumReady(found.value);
      }
      return AlbumFailed(c.error);
    }

    /** `getPhotoAlbum`, falling back to `createPhotoAlbum` (the first half of `saveImage` and `saveVideo`). */
    method GetOrCreatePhotoAlbum(album: string, c: Creation) returns (r: AlbumResult)
      modifies this
      ensures assets == old(assets)
      ensures collections == AfterAlbumStep(old(collections), album, c)
      ensures r == AlbumReply(old(collections), album, c)
    {
      var existing := FindPhotoAlbum(collections, album);
      if existing.Some? {
        return AlbumReady(existing.value);
      }
      r := CreatePhotoAlbum(album, c);
    }

    /** `putMediaToAlbum` */
    method PutMediaToAlbum(id: string, album: string, lookup: AssetLookup, enumerable: bool, accepted: bool)
      returns (err: Option<string>)
      modifies this
      ensures assets == old(assets)
      ensures err == LinkReply(old(collections), album, lookup, enumerable)
      ensures collections == AfterLink(old(collections), album, id, lookup, enumerable, accepted)
    {
      match lookup
      case LookupFailed(d) =>
        return Some("Could not retrieve saved asset: " + d);
      case ResolvedNil =>
        return Some("Retrieved asset is nil");
      case Resolved =>
        var group := GetAlPhotoAlbum(collections, album, enumerable);
        if group.GroupError? {
          return Some(GroupErrorText(group.message));
        }
        if accepted {
          collections := AddMember(collections, group.index, id);
        }
        return None;
    }

    /** The common second half of both saves: write to the camera roll, then add to the album's group. */
    method WriteAndLink(noun: string, album: string, o: SaveOutcomes) returns (r: SaveResult)
      modifies this
      ensures assets == if Wrote(o.write) then old(assets) + [o.write.written.value] else old(assets)
      ensures !Wrote(o.write) ==> collections == old(collections)
      ensures Wrote(o.write) ==>
        collections == AfterLink(old(collections), album, o.write.written.value.id, o.lookup, o.groupsEnumerable, o.groupAccepts)
      ensures r.Saved? <==> Wrote(o.write) && LinkReply(old(collections), album, o.lookup, o.groupsEnumerable).None?
      ensures r.Saved? ==> r.item == if o.itemFound then Some(o.write.written.value.id) else None
      ensures o.write.error.Some? ==> r == SaveFailed("Could not write " + noun + " to album: " + o.write.error.value)
      ensures o.write.error.None? && o.write.written.None? ==>
        r == SaveFailed("Writing " + noun + " to album resulted empty asset")
      ensures Wrote(o.write) && r.SaveFailed? ==>
        Some(r.message) == LinkReply(old(collections), album, o.lookup, o.groupsEnumerable)
      ensures r == WriteReply(noun, old(collections), album, o)
    {
      if o.write.error.Some? {
        return SaveFailed("Could not write " + noun + " to album: " + o.write.error.value);
      }
      if o.write.written.None? {
        return SaveFailed("Writing " + noun + " to album resulted empty asset");
      }
      var asset := o.write.written.value;
      assets := assets + [asset];
      var err := PutMediaToAlbum(asset.id, album, o.lookup, o.groupsEnumerable, o.groupAccepts);
      if err.Some? {
        return SaveFailed(err.value);
      }
      return Saved(if o.itemFound then Some(asset.id) else None);
    }

    /** `saveImage(url, album)` */
    method SaveImage(url: string, album: string, o: SaveOutcomes) returns (r: SaveResult)
      modifies this
      ensures var d := GetDataFromUrl(url, o.urlParses, o.urlContents);
        d.Failed? ==> r == SaveFailed(Message(d.error)) && assets == old(assets) && collections == old(collections)
      ensures var d := GetDataFromUrl(url, o.urlParses, o.urlContents);
        var step := AlbumReply(old(collections), album, o.creation);
        d.Loaded? && step.AlbumFailed? ==>
          r == SaveFailed(step.message) && assets == old(assets) && collections == old(collections)
      ensures var d := GetDataFromUrl(url, o.urlParses, o.urlContents);
        var mid := AfterAlbumStep(old(collections), album, o.creation);
        d.Loaded? && AlbumReply(old(collections), album, o.creation).AlbumReady? ==>
          && assets == (if Wrote(o.write) then old(assets) + [o.write.written.value] else old(assets))
          && collections == (if Wrote(o.write) then AfterLink(mid, album, o.write.written.value.id, o.lookup, o.groupsEnumerable, o.groupAccepts) else mid)
          && r == WriteReply("image", mid, album, o)
      ensures r.Saved? ==> Wrote(o.write) && FindPhotoAlbum(collections, album).Some?
      ensures r.Saved? && o.groupAccepts ==> var i := LastGroup(collections, album);
        i.Some? && o.write.written.value.id in collections[i.value].members
      ensures r.Saved? && !o.groupAccepts ==> collections == AfterAlbumStep(old(collections), album, o.creation)
    {
      var d := GetDataFromUrl(url, o.urlParses, o.urlContents);
      if d.Failed? {
        return SaveFailed(Message(d.error));
      }
      ghost var before := collections;
      var step := GetOrCreatePhotoAlbum(album, o.creation);
      AlbumReadyIffAvailable(before, album, o.creation);
      AlbumStepAppendsOnly(before, album, o.creation);
      if step.AlbumFailed? {
        return SaveFailed(step.message);
      }
      ghost var mid := collections;
      r := WriteAndLink("image", album, o);
      if r.Saved? {
        SavedIsFindable(mid, album, o);
      }
    }

    /** `saveVideo(url, album)` */
    method SaveVideo(url: string, album: string, o: SaveOutcomes) returns (r: SaveResult)
      modifies this
      ensures !o.urlParses ==> r == SaveFailed("Could not parse DataURL") && assets == old(assets) && collections == old(collections)
      ensures var step := AlbumReply(old(collections), album, o.creation);
        o.urlParses && step.AlbumFailed? ==>
          r == SaveFailed(step.message) && assets == old(assets) && collections == old(collections)
      ensures var mid := AfterAlbumStep(old(collections), album, o.creation);
        o.urlParses && AlbumReply(old(collections), album, o.creation).AlbumReady? && !o.compatible ==>
          && r == SaveFailed("Provided video is not compatible with Saved Photo album")
          && assets == old(assets) && collections == mid
      ensures var mid := AfterAlbumStep(old(collections), album, o.creation);
        o.urlParses && AlbumReply(old(collections), album, o.creation).AlbumReady? && o.compatible ==>
          && assets == (if Wrote(o.write) then old(assets) + [o.write.written.value] else old(assets))
          && collections == (if Wrote(o.write) then AfterLink(mid, album, o.write.written.value.id, o.lookup, o.groupsEnumerable, o.groupAccepts) else mid)
          && r == WriteReply("video", mid, album, o)
      ensures r.Saved? ==> Wrote(o.write) && FindPhotoAlbum(collections, album).Some?
      ensures r.Saved? && o.groupAccepts ==> var i := LastGroup(collections, album);
        i.Some? && o.write.written.value.id in collections[i.value].members
      ensures r.Saved? && !o.groupAccepts ==> collections == AfterAlbumStep(old(collections), album, o.creation)
    {
      if !o.urlParses {
        return SaveFailed("Could not parse DataURL");
      }
      ghost var before := collections;
      var step := GetOrCreatePhotoAlbum(album, o.creation);
      AlbumReadyIffAvailable(before, album, o.creation);
      AlbumStepAppendsOnly(before, album, o.creation);
      if step.AlbumFailed? {
        return SaveFailed(step.message);
      }
      if !o.compatible {
        return SaveFailed("Provided video is not compatible with Saved Photo album");
      }
      ghost var mid := collections;
      r := WriteAndLink("video", album, o);
      if r.Saved? {
        SavedIsFindable(mid, album, o);
      }
    }
  }

  /**
   * After a successful link the album is still found by name, and the media
   * is in the last group with that name if the group accepted it; if it did
   * not, the collections are as they were.
   */
  lemma SavedIsFindable(mid: seq<Collection>, album: string, o: SaveOutcomes)
    requires FindPhotoAlbum(mid, album).Some?
    requires Wrote(o.write) && LinkReply(mid, album, o.lookup, o.groupsEnumerable).None?
    ensures var after := AfterLink(mid, album, o.write.written.value.id, o.lookup, o.groupsEnumerable, o.groupAccepts);
      && FindPhotoAlbum(after, album).Some?
      && LastGroup(after, album).Some?
      && (o.groupAccepts ==> o.write.written.value.id in after[LastGroup(after, album).value].members)
      && (!o.groupAccepts ==> after == mid)
  {
    var id := o.write.written.value.id;
    var i := LastGroup(mid, album).value;
    if o.groupAccepts {
      AddMemberKeepsLookups(mid, i, id, album);
      assert AddMember(mid, i, id)[i].members == mid[i].members + [id];
    }
  }

  /**
   * Two saves to the same new album name create one album: after the first
   * save's album step succeeds and its link runs (whatever the link
   * answers), the second save finds the album and adds nothing, whatever
   * its own creation attempt would have done.
   */
  lemma TwoSavesCreateOneAlbum(cols: seq<Collection>, album: string, c1: Creation, c2: Creation,
                               id: string, lookup: AssetLookup, enumerable: bool, accepted: bool)
    requires AlbumReply(cols, album, c1).AlbumReady?
    ensures var after := AfterLink(AfterAlbumStep(cols, album, c1), album, id, lookup, enumerable, accepted);
      && AlbumReply(after, album, c2).AlbumReady?
      && AfterAlbumStep(after, album, c2) == after
      && |after| == |cols| + (if FindPhotoAlbum(cols, album).Some? then 0 else 1)
  {
    AlbumReadyIffAvailable(cols, album, c1);
    AlbumStepAppendsOnly(cols, album, c1);
    LinkKeepsLookup(AfterAlbumStep(cols, album, c1), album, id, lookup, enumerable, accepted);
  }

  /** The link step keeps the number of collections and the album lookup by name. */
  lemma LinkKeepsLookup(cols: seq<Collection>, album: string, id: string, lookup: AssetLookup, enumerable: bool, accepted: bool)
    ensures var after := AfterLink(cols, album, id, lookup, enumerable, accepted);
      |after| == |cols| && FindPhotoAlbum(after, album) == FindPhotoAlbum(cols, album)
  {
    if LinkReply(cols, album, lookup, enumerable).None? && accepted {
      AddMemberKeepsLookups(cols, LastGroup(cols, album).value, id, album);
    }
  }
}
