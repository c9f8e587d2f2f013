/**
 * `getAlbums` and `getMoments`: the service walks the store's collections
 * of the asked-for types, in store order, and copies out album records.
 */
module AlbumCatalog {
  import opened PhotoStore

  /** An album record as the service returns it. */
  datatype AlbumItem =
    | AlbumSummary(id: string, title: string)
    | MomentItem(id: string, title: string, locations: string, startDate: int, endDate: int, itemIds: seq<string>)

  /**
   * The outcome of `getMoments`: the records, or the trap at the forced
   * unwrap of a kept moment's missing start or end date.
   */
  datatype MomentsResult = Moments(items: seq<AlbumItem>) | MissingDate(id: string)

  /** The collection types `getAlbums` walks, in this order. */
  const AssetCollectionTypes: seq<CollectionType> := [Album, SmartAlbum]

  /** `fetchAssetCollections(with: kind, subtype: .any)`: the collections of one type, in store order. */
  function OfKind(cols: seq<Collection>, kind: CollectionType): (r: seq<Collection>)
    ensures forall c :: c in r <==> c in cols && c.kind == kind
  {
    if cols == [] then []
    else
      var rest := OfKind(cols[1..], kind);
      assert forall c :: c in cols <==> c == cols[0] || c in cols[1..];
      if cols[0].kind == kind then [cols[0]] + rest else rest
  }

  /** An album keeps only its id and title. */
  function Summary(c: Collection): AlbumItem {
    AlbumSummary(c.id, c.title)
  }

  function Summaries(cs: seq<Collection>): (r: seq<AlbumItem>)
    ensures |r| == |cs|
  {
    seq(|cs|, i requires 0 <= i < |cs| => Summary(cs[i]))
  }

  /** The summaries of the collections of `kinds`, type after type. */
  function Catalog(cols: seq<Collection>, kinds: seq<CollectionType>): seq<AlbumItem> {
    if kinds == [] then []
    else Catalog(cols, kinds[..|kinds| - 1]) + Summaries(OfKind(cols, kinds[|kinds| - 1]))
  }

  /**
   * `getAlbums`: every user album, then every smart album, each as its id
   * and title, in store order; moments never appear.
   */
  method GetAlbums(cols: seq<Collection>) returns (result: seq<AlbumItem>)
    ensures |result| == |OfKind(cols, Album)| + |OfKind(cols, SmartAlbum)|
    ensures forall i :: 0 <= i < |OfKind(cols, Album)| ==> result[i] == Summary(OfKind(cols, Album)[i])
    ensures forall i :: 0 <= i < |OfKind(cols, SmartAlbum)| ==>
              result[|OfKind(cols, Album)| + i] == Summary(OfKind(cols, SmartAlbum)[i])
    ensures forall e :: e in result <==> exists c :: c in cols && c.kind != Moment && e == Summary(c)
  {
    result := [];
    for t := 0 to |AssetCollectionTypes|
      invariant result == Catalog(cols, AssetCollectionTypes[..t])
    {
      var fetched := OfKind(cols, AssetCollectionTypes[t]);
      ghost var before := result;
      for j := 0 to |fetched|
        invariant result == before + Summaries(fetched[..j])
      {
        assert Summaries(fetched[..j + 1]) == Summaries(fetched[..j]) + [Summary(fetched[j])];
        result := result + [Summary(fetched[j])];
      }
      assert fetched[..|fetched|] == fetched;
      assert AssetCollectionTypes[..t + 1][..t] == AssetCollectionTypes[..t];
    }
    assert AssetCollectionTypes[..|AssetCollectionTypes|] == AssetCollectionTypes;
    CatalogOfTypes(cols);
    CatalogMembership(cols);
  }

  /** The catalog of the two walked types is the user albums' records followed by the smart albums'. */
  lemma CatalogOfTypes(cols: seq<Collection>)
    ensures Catalog(cols, AssetCollectionTypes) == Summaries(OfKind(cols, Album)) + Summaries(OfKind(cols, SmartAlbum))
  {
    var ks := AssetCollectionTypes;
    assert ks[..|ks| - 1] == [Album];
    assert [Album][..0] == [];
    assert Catalog(cols, [Album]) == Summaries(OfKind(cols, Album));
  }

  /** A record is in the catalog exactly when it summarises a collection that is not a moment. */
  lemma CatalogMembership(cols: seq<Collection>)
    ensures var result := Summaries(OfKind(cols, Album)) + Summaries(OfKind(cols, SmartAlbum));
      forall e :: e in result <==> exists c :: c in cols && c.kind != Moment && e == Summary(c)
  {
    var albums, smart := OfKind(cols, Album), OfKind(cols, SmartAlbum);
    var result := Summaries(albums) + Summaries(smart);
    forall e | e in result ensures exists c :: c in cols && c.kind != Moment && e == Summary(c) {
      var i :| 0 <= i < |result| && result[i] == e;
      if i < |albums| {
        assert albums[i] in albums;
      } else {
        assert smart[i - |albums|] in smart;
      }
    }
    forall c | c in cols && c.kind != Moment ensures Summary(c) in result {
      if c.kind == Album {
        var i :| 0 <= i < |albums| && albums[i] == c;
        assert result[i] == Summary(c);
      } else {
        var i :| 0 <= i < |smart| && smart[i] == c;
        assert result[|albums| + i] == Summary(c);
      }
    }
  }

  /** `joined(separator:)`. */
  function Join(names: seq<string>, sep: string): (r: string)
    ensures |names| > 0 ==> |names[0]| <= |r| && r[..|names[0]|] == names[0]
    ensures |names| > 0 ==> |names[|names| - 1]| <= |r| && r[|r| - |names[|names| - 1]|..] == names[|names| - 1]
  {
    if names == [] then ""
    else if |names| == 1 then names[0]
    else
      var init := Join(names[..|names| - 1], sep);
      assert names[..|names| - 1][0] == names[0];
      init + sep + names[|names| - 1]
  }

  function TotalLength(names: seq<string>): nat {
    if names == [] then 0 else TotalLength(names[..|names| - 1]) + |names[|names| - 1]|
  }

  /** A join holds every name and one separator between each neighbouring pair. */
  lemma {:induction false} JoinLength(names: seq<string>, sep: string)
    requires |names| > 0
    ensures |Join(names, sep)| == TotalLength(names) + |sep| * (|names| - 1)
    decreases |names|
  {
    if |names| > 1 {
      var m := |names| - 1;
      var init := names[..m];
      JoinLength(init, sep);
      assert init[0] == names[0];
      assert Join(names, sep) == Join(init, sep) + sep + names[m];
      assert TotalLength(names) == TotalLength(init) + |names[m]|;
      assert |sep| * (m - 1) + |sep| == |sep| * m;
    } else {
      assert names[..0] == [];
    }
  }

  /** The moment filter of `getMoments`. */
  predicate Kept(c: Collection, fromDate: Option<int>, toDate: Option<int>) {
    && (fromDate.Some? ==> c.startDate.Some? && fromDate.value <= c.startDate.value)
    && (toDate.Some? ==> c.endDate.Some? && c.endDate.value <= toDate.value)
    && |c.locationNames| > 0
  }

  /** The moments that pass the filter, in store order. */
  function KeptMoments(ms: seq<Collection>, fromDate: Option<int>, toDate: Option<int>): (r: seq<Collection>)
    ensures |r| <= |ms|
  {
    if ms == [] then []
    else
      var init := KeptMoments(ms[..|ms| - 1], fromDate, toDate);
      var last := ms[|ms| - 1];
      if Kept(last, fromDate, toDate) then init + [last] else init
  }

  lemma KeptSnoc(ms: seq<Collection>, c: Collection, fromDate: Option<int>, toDate: Option<int>)
    ensures KeptMoments(ms + [c], fromDate, toDate) ==
      KeptMoments(ms, fromDate, toDate) + (if Kept(c, fromDate, toDate) then [c] else [])
  {
    assert (ms + [c])[..|ms|] == ms;
  }

  lemma KeptPrefix(ms: seq<Collection>, i: nat, fromDate: Option<int>, toDate: Option<int>)
    requires i < |ms|
    ensures KeptMoments(ms[..i + 1], fromDate, toDate) ==
      KeptMoments(ms[..i], fromDate, toDate) + (if Kept(ms[i], fromDate, toDate) then [ms[i]] else [])
  {
    assert ms[..i + 1][..i] == ms[..i];
  }

  /** A moment is among the kept ones exactly when it is in the input and passes the filter. */
  lemma {:induction false} KeptMembership(ms: seq<Collection>, fromDate: Option<int>, toDate: Option<int>)
    ensures forall c :: c in KeptMoments(ms, fromDate, toDate) <==> c in ms && Kept(c, fromDate, toDate)
    decreases |ms|
  {
    if ms != [] {
      var m := |ms| - 1;
      KeptMembership(ms[..m], fromDate, toDate);
      assert ms == ms[..m] + [ms[m]];
      KeptSnoc(ms[..m], ms[m], fromDate, toDate);
    }
  }

  /** The filter keeps the collection order: it distributes over concatenation. */
  lemma {:induction false} KeptMomentsConcat(a: seq<Collection>, b: seq<Collection>, fromDate: Option<int>, toDate: Option<int>)
    ensures KeptMoments(a + b, fromDate, toDate) == KeptMoments(a, fromDate, toDate) + KeptMoments(b, fromDate, toDate)
    decreases |b|
  {
    if b == [] {
      assert a + b == a;
    } else {
      var m := |b| - 1;
      KeptMomentsConcat(a, b[..m], fromDate, toDate);
      assert (a + b)[..|a + b| - 1] == a + b[..m];
      assert (a + b)[|a + b| - 1] == b[m];
      if Kept(b[m], fromDate, toDate) {
        assert KeptMoments(a + b, fromDate, toDate) == KeptMoments(a + b[..m], fromDate, toDate) + [b[m]];
        assert KeptMoments(b, fromDate, toDate) == KeptMoments(b[..m], fromDate, toDate) + [b[m]];
      } else {
        assert KeptMoments(a + b, fromDate, toDate) == KeptMoments(a + b[..m], fromDate, toDate);
        assert KeptMoments(b, fromDate, toDate) == KeptMoments(b[..m], fromDate, toDate);
      }
    }
  }

  /** `PHAsset.fetchAssets(in: collection)`: the store's assets that belong to the collection, in store order. */
  function MembersIn(assets: seq<Asset>, members: seq<string>): (r: seq<Asset>)
    ensures forall a :: a in r <==> a in assets && a.id in members
  {
    if assets == [] then []
    else
      var rest := MembersIn(assets[1..], members);
      assert forall a :: a in assets <==> a == assets[0] || a in assets[1..];
      if assets[0].id in members then [assets[0]] + rest else rest
  }

  /** The record of a kept moment; `startDate!` and `endDate!` need both dates. */
  function MomentEntry(c: Collection, assets: seq<Asset>): AlbumItem
    requires c.startDate.Some? && c.endDate.Some?
  {
    MomentItem(c.id, c.title, Join(c.locationNames, ", "), c.startDate.value, c.endDate.value,
               Ids(SortNewestFirst(MembersIn(assets, c.members))))
  }

  /**
   * The member ids of a moment record are the ids of exactly the store's
   * assets in that moment, ordered newest first; its location is the names
   * joined with ", ". Membership is stated as a set (which assets appear,
   * not how often), which says everything while the store's asset ids are
   * unique, as Photos' local identifiers are.
   */
  lemma MomentRecord(c: Collection, assets: seq<Asset>)
    requires c.startDate.Some? && c.endDate.Some?
    ensures MomentEntry(c, assets).locations == Join(c.locationNames, ", ")
    ensures exists s :: && NewestFirst(s)
                        && (forall a :: a in s <==> a in assets && a.id in c.members)
                        && MomentEntry(c, assets).itemIds == Ids(s)
  {
    var s := SortNewestFirst(MembersIn(assets, c.members));
    assert forall a :: a in s <==> a in MembersIn(assets, c.members) by {
      assert multiset(s) == multiset(MembersIn(assets, c.members));
      forall a ensures a in s <==> a in MembersIn(assets, c.members) {
        assert a in s <==> multiset(s)[a] > 0;
      }
    }
  }

  predicate Dated(c: Collection) {
    c.startDate.Some? && c.endDate.Some?
  }

  ghost predicate AllDated(ks: seq<Collection>) {
    forall i :: 0 <= i < |ks| ==> Dated(ks[i])
  }

  /** The records of kept moments that all have both dates, in order. */
  function Entries(ks: seq<Collection>, assets: seq<Asset>): (r: seq<AlbumItem>)
    requires AllDated(ks)
    ensures |r| == |ks|
  {
    if ks == [] then [] else Entries(ks[..|ks| - 1], assets) + [MomentEntry(ks[|ks| - 1], assets)]
  }

  lemma EntriesSnoc(ks: seq<Collection>, c: Collection, assets: seq<Asset>)
    requires AllDated(ks) && Dated(c)
    ensures AllDated(ks + [c])
    ensures Entries(ks + [c], assets) == Entries(ks, assets) + [MomentEntry(c, assets)]
  {
    assert (ks + [c])[..|ks|] == ks;
  }

  /**
   * `getMoments`: the moments that pass the date range and have at least one
   * location name, in store order, as records; a kept moment without both
   * dates traps at the forced unwrap, the first such one in store order.
   */
  method GetMoments(cols: seq<Collection>, assets: seq<Asset>, fromDate: Option<int>, toDate: Option<int>)
    returns (r: MomentsResult)
    ensures var kept := KeptMoments(OfKind(cols, Moment), fromDate, toDate);
      && (r.Moments? <==> AllDated(kept))
      && (r.Moments? ==> AllDated(kept) && r.items == Entries(kept, assets))
      && (r.MissingDate? ==>
            exists i :: 0 <= i < |kept| && kept[i].id == r.id && !Dated(kept[i]) && AllDated(kept[..i]))
  {
    var moments := OfKind(cols, Moment);
    ghost var kept := KeptMoments(moments, fromDate, toDate);
    var result: seq<AlbumItem> := [];
    for i := 0 to |moments|
      invariant AllDated(KeptMoments(moments[..i], fromDate, toDate))
      invariant result == Entries(KeptMoments(moments[..i], fromDate, toDate), assets)
    {
      var c := moments[i];
      ghost var k := KeptMoments(moments[..i], fromDate, toDate);
      KeptPrefix(moments, i, fromDate, toDate);
      // the three guards of the enumeration closure; a failed guard returns from the closure
      var afterFrom := fromDate.None? || (c.startDate.Some? && fromDate.value <= c.startDate.value);
      var beforeTo := toDate.None? || (c.endDate.Some? && c.endDate.value <= toDate.value);
      var located := |c.locationNames| > 0;
      if afterFrom && beforeTo && located {
        assert Kept(c, fromDate, toDate);
        if c.startDate.None? || c.endDate.None? {
          MissingDateIsFirst(moments, i, fromDate, toDate);
          return MissingDate(c.id);
        }
        EntriesSnoc(k, c, assets);
        result := result + [MomentEntry(c, assets)];
      } else {
        assert KeptMoments(moments[..i + 1], fromDate, toDate) == k;
      }
    }
    assert moments[..|moments|] == moments;
    return Moments(result);
  }

  /** A kept, undated moment at position `i` is the first undated one among all kept moments. */
  lemma MissingDateIsFirst(moments: seq<Collection>, i: nat, fromDate: Option<int>, toDate: Option<int>)
    requires i < |moments|
    requires AllDated(KeptMoments(moments[..i], fromDate, toDate))
    requires Kept(moments[i], fromDate, toDate) && !Dated(moments[i])
    ensures var kept := KeptMoments(moments, fromDate, toDate);
      exists j :: 0 <= j < |kept| && kept[j].id == moments[i].id && !Dated(kept[j]) && AllDated(kept[..j])
  {
    var k := KeptMoments(moments[..i], fromDate, toDate);
    var c := moments[i];
    assert moments == moments[..i] + [c] + moments[i + 1..];
    KeptMomentsConcat(moments[..i] + [c], moments[i + 1..], fromDate, toDate);
    KeptSnoc(moments[..i], c, fromDate, toDate);
    var kept := KeptMoments(moments, fromDate, toDate);
    assert kept == k + [c] + KeptMoments(moments[i + 1..], fromDate, toDate);
    assert kept[|k|] == c;
    assert kept[..|k|] == k;
  }
}
