/**
 * The abstract media store that the photo library service reads: assets and
 * asset collections as value snapshots, plus the "creationDate descending"
 * ordering that every fetch of the service asks the store for.
 */
module PhotoStore {

  datatype Option<+T> = None | Some(value: T)

  /** PHAssetMediaType */
  datatype MediaType = UnknownMedia | Image | Video | Audio

  /** PHAssetSourceType */
  datatype SourceType = UserLibrary | ITunesSynced | CloudShared

  /** A snapshot of one PHAsset; dates are integers (seconds). */
  datatype Asset = Asset(id: string, creationDate: int, mediaType: MediaType, sourceType: SourceType)

  /** PHAssetCollectionType; `Moment` collections are the time/place clusters. */
  datatype CollectionType = Album | SmartAlbum | Moment

  /** Only `.albumRegular` matters to the service; every other subtype is `OtherSubtype`. */
  datatype CollectionSubtype = AlbumRegular | OtherSubtype

  /** A snapshot of one PHAssetCollection; `members` are asset ids. */
  datatype Collection = Collection(
    id: string,
    title: string,
    kind: CollectionType,
    subtype: CollectionSubtype,
    startDate: Option<int>,
    endDate: Option<int>,
    locationNames: seq<string>,
    members: seq<string>)

  /** Non-increasing creation dates: the order a `creationDate` descending sort produces. */
  ghost predicate NewestFirst(s: seq<Asset>) {
    forall i, j :: 0 <= i < j < |s| ==> s[j].creationDate <= s[i].creationDate
  }

  /**
   * Inserts `a` in front of the first asset that is not newer than it
   * (equal dates included), so `a` goes ahead of the assets it ties with.
   */
  function InsertByDate(a: Asset, s: seq<Asset>): (r: seq<Asset>)
    requires NewestFirst(s)
    ensures NewestFirst(r)
    ensures multiset(r) == multiset(s) + multiset{a}
    ensures |r| == |s| + 1
    ensures r[0] == a || (s != [] && r[0] == s[0])
  {
    if s == [] || s[0].creationDate <= a.creationDate then
      ConsNewest(a, s);
      [a] + s
    else
      TailNewest(s);
      var rest := InsertByDate(a, s[1..]);
      InsertBehind(a, s, rest);
      [s[0]] + rest
  }

  /** Putting the head of `s` back in front of `a` inserted into the tail of `s`. */
  lemma InsertBehind(a: Asset, s: seq<Asset>, rest: seq<Asset>)
    requires NewestFirst(s) && s != [] && a.creationDate < s[0].creationDate
    requires NewestFirst(rest) && multiset(rest) == multiset(s[1..]) + multiset{a}
    requires |rest| == |s| && (rest[0] == a || (|s| > 1 && rest[0] == s[1]))
    ensures NewestFirst([s[0]] + rest)
    ensures multiset([s[0]] + rest) == multiset(s) + multiset{a}
  {
    assert s == [s[0]] + s[1..];
    assert rest[0].creationDate <= s[0].creationDate by {
      if rest[0] != a {
        assert s[1..][0] == s[1];
      }
    }
    ConsNewest(s[0], rest);
    assert multiset([s[0]] + rest) == multiset([s[0]]) + multiset(rest);
  }

  /** Dropping the newest asset keeps a sequence newest-first. */
  lemma TailNewest(s: seq<Asset>)
    requires NewestFirst(s) && s != []
    ensures NewestFirst(s[1..])
  {
    forall i, j | 0 <= i < j < |s| - 1
      ensures s[1..][j].creationDate <= s[1..][i].creationDate
    {
      assert s[1..][j] == s[j + 1] && s[1..][i] == s[i + 1];
    }
  }

  /** An asset no older than the head of a newest-first sequence can go in front of it. */
  lemma {:induction false} ConsNewest(x: Asset, rest: seq<Asset>)
    requires NewestFirst(rest)
    requires rest != [] ==> rest[0].creationDate <= x.creationDate
    ensures NewestFirst([x] + rest)
  {
    var r := [x] + rest;
    forall i, j | 0 <= i < j < |r|
      ensures r[j].creationDate <= r[i].creationDate
    {
      assert r[j] == rest[j - 1];
      if i > 0 {
        assert r[i] == rest[i - 1];
      } else if j > 1 {
        assert rest[j - 1].creationDate <= rest[0].creationDate;
      }
    }
  }

  /** The store's `creationDate` descending sort (ties keep store order). */
  function SortNewestFirst(s: seq<Asset>): (r: seq<Asset>)
    ensures NewestFirst(r)
    ensures multiset(r) == multiset(s)
    ensures |r| == |s|
  {
    if s == [] then []
    else
      assert s == [s[0]] + s[1..];
      InsertByDate(s[0], SortNewestFirst(s[1..]))
  }

  /** The ids of a sequence of assets, in order. */
  function Ids(s: seq<Asset>): (r: seq<string>)
    ensures |r| == |s|
    ensures forall i :: 0 <= i < |s| ==> r[i] == s[i].id
  {
    if s == [] then [] else [s[0].id] + Ids(s[1..])
  }
}
