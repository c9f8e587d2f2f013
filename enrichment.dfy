/**
 * `getCompleteInfo`: the file path an enumerated library item is
 * completed with. The media kind is the text before the first "/" of the
 * item's MIME type, and a composed video's path is the last ";"-separated
 * segment of its sandbox extension token. What Photos and AVFoundation
 * hand back is passed in.
 */
module Enrichment {
  import opened PhotoStore
  import opened FetchConfig

  /** The text before the first `sep`, or all of `s` (`components(separatedBy:).first`). */
  function Before(s: string, sep: char): (r: string)
    ensures |r| <= |s| && r == s[..|r|]
    ensures sep !in r
    ensures |r| < |s| ==> s[|r|] == sep
  {
    if s == [] then []
    else if s[0] == sep then []
    else [s[0]] + Before(s[1..], sep)
  }

  /** The text after the last `sep`, or all of `s` (`components(separatedBy:).last`). */
  function After(s: string, sep: char): (r: string)
    ensures |r| <= |s| && r == s[|s| - |r|..]
    ensures sep !in r
    ensures |r| < |s| ==> s[|s| - |r| - 1] == sep
  {
    if s == [] then []
    else if s[|s| - 1] == sep then []
    else After(s[..|s| - 1], sep) + [s[|s| - 1]]
  }

  /** The media kind of a MIME type, such as "image" for "image/png". */
  function MediaKind(mimeType: string): (r: string)
    ensures '/' !in r
  {
    Before(mimeType, '/')
  }

  /** The path of a composed video, taken from its sandbox extension token. */
  function TokenPath(token: string): (r: string)
    ensures ';' !in r
  {
    After(token, ';')
  }

  /** The kind is recovered from a MIME type put together from a kind and a subtype. */
  lemma {:induction false} KindOfComposedType(kind: string, subtype: string)
    requires '/' !in kind
    ensures MediaKind(kind + "/" + subtype) == kind
  {
    var s := kind + "/" + subtype;
    var r := MediaKind(s);
    assert s[|kind|] == '/';
    assert s[..|kind|] == kind;
  }

  /** The path is recovered from a token whose last field is a path without ';'. */
  lemma {:induction false} PathOfComposedToken(fields: string, path: string)
    requires ';' !in path
    ensures TokenPath(fields + ";" + path) == path
  {
    var s := fields + ";" + path;
    var r := TokenPath(s);
    var n := |s| - |path|;
    assert s[n - 1] == ';';
    assert s[n..] == path;
  }

  /** What `requestAVAsset` hands back. */
  datatype AvAsset = UrlAsset(path: string) | Composition | OtherAvAsset | NoAvAsset

  /**
   * The image source over the returned data: none, one whose properties at
   * index 0 are there, or one whose properties are nil (force-unwrapped).
   */
  datatype ImageSource = NoImageSource | WithProperties | WithoutProperties

  /** What Photos answers for one item. */
  datatype Answers = Answers(
    imageData: bool,                 // requestImageData returned data
    imageSource: ImageSource,        // CGImageSourceCreateWithData, then CGImageSourceCopyPropertiesAtIndex
    imageFileUrl: Option<string>,    // info["PHImageFileURLKey"]
    avAsset: AvAsset,
    sandboxToken: Option<string>)    // info["PHImageFileSandboxExtensionTokenKey"]

  /**
   * How the completion ends: called with a path or nil, never called, or a
   * runtime trap at a forced unwrap or cast.
   */
  datatype Completion = Delivered(path: Option<string>) | NeverCalled | Trap

  /**
   * `getCompleteInfo` for an item with this MIME type; `found` is whether
   * the id lookup under the shared fetch options returned the asset.
   */
  function CompleteInfo(found: bool, mimeType: string, answers: Answers): (r: Completion)
    ensures !found ==> r == Delivered(None)
    ensures found && MediaKind(mimeType) != "image" && MediaKind(mimeType) != "video" ==> r == Delivered(None)
    ensures r.NeverCalled? <==> found && MediaKind(mimeType) == "video"
                                 && (answers.avAsset.OtherAvAsset? || answers.avAsset.NoAvAsset?)
    ensures r.Trap? <==>
              || (found && MediaKind(mimeType) == "image" && answers.imageData
                    && (answers.imageSource.WithoutProperties? || answers.imageFileUrl.None?))
              || (found && MediaKind(mimeType) == "video" && answers.avAsset.Composition? && answers.sandboxToken.None?)
    ensures r == Delivered(None) <==> !found || MediaKind(mimeType) !in {"image", "video"}
                                      || (MediaKind(mimeType) == "image" && !answers.imageData)
    ensures found && MediaKind(mimeType) == "video" && answers.avAsset.Composition? && answers.sandboxToken.Some? ==>
              r == Delivered(Some(TokenPath(answers.sandboxToken.value)))
    ensures found && MediaKind(mimeType) == "image" && answers.imageData
              && !answers.imageSource.WithoutProperties? && answers.imageFileUrl.Some? ==>
              r == Delivered(answers.imageFileUrl)
    ensures found && MediaKind(mimeType) == "video" && answers.avAsset.UrlAsset? ==>
              r == Delivered(Some(answers.avAsset.path))
  {
    if !found then Delivered(None)
    else
      var kind := MediaKind(mimeType);
      if kind == "image" then
        if !answers.imageData then Delivered(None)
        else if answers.imageSource.WithoutProperties? then Trap
        else if answers.imageFileUrl.None? then Trap
        else Delivered(Some(answers.imageFileUrl.value))
      else if kind == "video" then
        match answers.avAsset
        case UrlAsset(path) => Delivered(Some(path))
        case Composition =>
          if answers.sandboxToken.None? then Trap
          else Delivered(Some(TokenPath(answers.sandboxToken.value)))
        case _ => NeverCalled
      else Delivered(None)
  }

  /**
   * The id lookup uses the shared fetch options, so an item whose asset no
   * longer matches them (a later `getLibrary` excluded its media or source
   * type) is completed with no path.
   */
  lemma FilteredOutItemHasNoPath(opts: FetchOptions, store: seq<Asset>, id: string, mimeType: string, answers: Answers)
    requires forall a :: a in store && a.id == id ==> !Matches(opts.sourceTypes, opts.mediaPredicate, a)
    ensures CompleteInfo(|opts.FetchById(id, store)| > 0, mimeType, answers) == Delivered(None)
  {
  }
}
