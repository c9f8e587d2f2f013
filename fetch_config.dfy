/**
 * The asset fetch of `getLibrary`: the service owns one shared fetch
 * configuration (source types, a media-type predicate and a fetch limit)
 * that every `getLibrary` call updates in place and never resets, and a
 * fetch filters the store by it, sorts newest first and truncates.
 */
module FetchConfig {
  import opened PhotoStore

  /** The fields of the `getLibrary` options that the fetch and the chunking read. */
  datatype LibraryOptions = LibraryOptions(
    includeImages: bool,
    includeVideos: bool,
    includeCloudData: bool,
    maxItems: int,
    itemsInChunk: int,
    chunkTimeSec: int)

  /** The source types the service starts with. */
  const AllSourceTypes: set<SourceType> := {UserLibrary, ITunesSynced, CloudShared}

  /** The source types left once cloud data is excluded. */
  const LocalSourceTypes: set<SourceType> := {UserLibrary, ITunesSynced}

  /** Whether an asset passes the source types and the media predicate (`None`: no predicate). */
  predicate Matches(sourceTypes: set<SourceType>, mediaPredicate: Option<set<MediaType>>, a: Asset) {
    a.sourceType in sourceTypes && (mediaPredicate.None? || a.mediaType in mediaPredicate.value)
  }

  /** The matching assets in store order, each with the multiplicity it has in the store. */
  function Select(sourceTypes: set<SourceType>, mediaPredicate: Option<set<MediaType>>, store: seq<Asset>): (r: seq<Asset>)
    ensures forall a :: multiset(r)[a] == if Matches(sourceTypes, mediaPredicate, a) then multiset(store)[a] else 0
    ensures |r| <= |store|
  {
    if store == [] then []
    else
      assert store == [store[0]] + store[1..];
      var rest := Select(sourceTypes, mediaPredicate, store[1..]);
      if Matches(sourceTypes, mediaPredicate, store[0]) then [store[0]] + rest else rest
  }

  /** The first `limit` elements, or all of them when `limit` is 0 (no limit set). */
  function Truncate(s: seq<Asset>, limit: nat): (r: seq<Asset>)
    ensures |r| == if 0 < limit < |s| then limit else |s|
    ensures r == s[..|r|]
  {
    if 0 < limit < |s| then s[..limit] else s
  }

  /** A prefix of a newest-first sequence holds every element that it leaves out. */
  lemma {:induction false} PrefixHoldsNewest(s: seq<Asset>, k: nat, a: Asset)
    requires NewestFirst(s) && k <= |s|
    requires a in s && a !in s[..k]
    ensures forall b :: b in s[..k] ==> a.creationDate <= b.creationDate
  {
    var j :| 0 <= j < |s| && s[j] == a;
    assert forall i :: 0 <= i < k ==> s[i] != a by {
      forall i | 0 <= i < k ensures s[i] != a {
        assert s[..k][i] == s[i];
      }
    }
    forall b | b in s[..k] ensures a.creationDate <= b.creationDate {
      var i :| 0 <= i < k && s[..k][i] == b;
      assert s[i] == b;
    }
  }

  /** A truncation keeps a part of the sequence: never an element more often than the sequence has it. */
  lemma TruncateKeepsPart(s: seq<Asset>, limit: nat)
    ensures multiset(Truncate(s, limit)) <= multiset(s)
  {
    var r := Truncate(s, limit);
    assert s == r + s[|r|..];
  }

  /** An asset is among the selected ones exactly when the store has it and it matches. */
  lemma SelectMembership(sourceTypes: set<SourceType>, mediaPredicate: Option<set<MediaType>>, store: seq<Asset>)
    ensures forall a :: a in Select(sourceTypes, mediaPredicate, store) <==> a in store && Matches(sourceTypes, mediaPredicate, a)
  {
    var m := Select(sourceTypes, mediaPredicate, store);
    forall a
      ensures a in m <==> a in store && Matches(sourceTypes, mediaPredicate, a)
    {
      assert a in m <==> multiset(m)[a] > 0;
      assert a in store <==> multiset(store)[a] > 0;
    }
  }

  /** What a truncated newest-first sort of the matching assets keeps and drops. */
  lemma FetchedPrefix(sourceTypes: set<SourceType>, mediaPredicate: Option<set<MediaType>>, store: seq<Asset>, limit: nat)
    ensures var r := Truncate(SortNewestFirst(Select(sourceTypes, mediaPredicate, store)), limit);
      && multiset(r) <= multiset(Select(sourceTypes, mediaPredicate, store))
      && (forall a :: a in r ==> a in store && Matches(sourceTypes, mediaPredicate, a))
      && (forall a, b :: a in store && Matches(sourceTypes, mediaPredicate, a) && a !in r && b in r ==>
            a.creationDate <= b.creationDate)
  {
    var matching := Select(sourceTypes, mediaPredicate, store);
    var sorted := SortNewestFirst(matching);
    var r := Truncate(sorted, limit);
    TruncateKeepsPart(sorted, limit);
    SelectMembership(sourceTypes, mediaPredicate, store);
    forall a | a in r ensures a in matching {
      assert multiset(r)[a] > 0;
      assert multiset(matching)[a] > 0;
    }
    forall a, b | a in store && Matches(sourceTypes, mediaPredicate, a) && a !in r && b in r
      ensures a.creationDate <= b.creationDate
    {
      assert multiset(matching)[a] > 0;
      assert a in sorted by {
        assert multiset(sorted)[a] > 0;
      }
      PrefixHoldsNewest(sorted, |r|, a);
    }
  }

  /** PHFetchOptions as the service configures it. */
  class FetchOptions {
    var sourceTypes: set<SourceType>
    var mediaPredicate: Option<set<MediaType>>
    var fetchLimit: nat

    /** `init`: newest first, all three source types, no predicate, no limit. */
    constructor ()
      ensures sourceTypes == AllSourceTypes
      ensures mediaPredicate == None
      ensures fetchLimit == 0
    {
      sourceTypes := AllSourceTypes;
      mediaPredicate := None;
      fetchLimit := 0;
    }

    /**
     * The configuration step of `getLibrary`. Excluding cloud data, choosing
     * a predicate and setting a limit all overwrite the shared options;
     * nothing ever restores cloud assets, clears the limit, or drops the
     * predicate when neither images nor videos are asked for.
     */
    method Configure(o: LibraryOptions)
      modifies this
      ensures sourceTypes == if !o.includeCloudData then LocalSourceTypes else old(sourceTypes)
      ensures mediaPredicate ==
        if o.includeImages && o.includeVideos then Some({Image, Video})
        else if o.includeImages then Some({Image})
        else if o.includeVideos then Some({Video})
        else old(mediaPredicate)
      ensures fetchLimit == if o.maxItems > 0 then o.maxItems else old(fetchLimit)
      ensures CloudShared in sourceTypes ==> CloudShared in old(sourceTypes)
      ensures old(fetchLimit) > 0 ==> fetchLimit > 0
      ensures old(mediaPredicate).Some? ==> mediaPredicate.Some?
    {
      if !o.includeCloudData {
        sourceTypes := LocalSourceTypes;
      }
      if o.includeImages && o.includeVideos {
        mediaPredicate := Some({Image, Video});
      } else {
        if o.includeImages {
          mediaPredicate := Some({Image});
        } else if o.includeVideos {
          mediaPredicate := Some({Video});
        }
      }
      if o.maxItems > 0 {
        fetchLimit := o.maxItems;
      }
    }

    /**
     * `PHAsset.fetchAssets(with: fetchOptions)`: the matching assets, newest
     * first, cut to `fetchLimit` when one is set; what the cut keeps is
     * never older than a matching asset it drops.
     */
    function Fetch(store: seq<Asset>): (r: seq<Asset>)
      reads this
      ensures forall a :: a in r ==> a in store && Matches(sourceTypes, mediaPredicate, a)
      ensures NewestFirst(r)
      ensures multiset(r) <= multiset(Select(sourceTypes, mediaPredicate, store))
      ensures fetchLimit > 0 ==> |r| <= fetchLimit
      ensures |r| == if 0 < fetchLimit < |Select(sourceTypes, mediaPredicate, store)| then fetchLimit
                     else |Select(sourceTypes, mediaPredicate, store)|
      ensures (fetchLimit == 0 || |Select(sourceTypes, mediaPredicate, store)| <= fetchLimit) ==>
                multiset(r) == multiset(Select(sourceTypes, mediaPredicate, store))
      ensures forall a, b :: a in store && Matches(sourceTypes, mediaPredicate, a) && a !in r && b in r ==>
                a.creationDate <= b.creationDate
    {
      FetchedPrefix(sourceTypes, mediaPredicate, store, fetchLimit);
      Truncate(SortNewestFirst(Select(sourceTypes, mediaPredicate, store)), fetchLimit)
    }

    /**
     * `PHAsset.fetchAssets(withLocalIdentifiers: [id], options: fetchOptions)`,
     * as `getCompleteInfo` and the thumbnail and photo lookups issue it: the same
     * shared options apply, so an asset that a later `getLibrary` filtered out
     * is no longer found by id.
     */
    function FetchById(id: string, store: seq<Asset>): (r: seq<Asset>)
      reads this
      ensures forall a :: a in r ==> a.id == id && a in store
      ensures |r| > 0 <==> exists a :: a in store && a.id == id && Matches(sourceTypes, mediaPredicate, a)
    {
      var withId := SelectId(id, store);
      var r := Fetch(withId);
      if exists a :: a in store && a.id == id && Matches(sourceTypes, mediaPredicate, a) then
        var a :| a in store && a.id == id && Matches(sourceTypes, mediaPredicate, a);
        assert a in withId;
        assert multiset(Select(sourceTypes, mediaPredicate, withId))[a] > 0;
        r
      else
        assert forall a :: a in withId ==> !Matches(sourceTypes, mediaPredicate, a);
        assert forall a :: multiset(Select(sourceTypes, mediaPredicate, withId))[a] == 0;
        assert multiset(Select(sourceTypes, mediaPredicate, withId)) == multiset{};
        r
    }
  }

  /** The store's assets with a given local identifier. */
  function SelectId(id: string, store: seq<Asset>): (r: seq<Asset>)
    ensures forall a :: a in r <==> a in store && a.id == id
  {
    if store == [] then []
    else
      var rest := SelectId(id, store[1..]);
      assert forall a :: a in store <==> a == store[0] || a in store[1..];
      if store[0].id == id then [store[0]] + rest else rest
  }
}
