/**
 * `getDataFromURL`: a `data:` URL is split at the first match of the
 * anchored, lazy pattern `^data:.+?;base64,` and the rest is decoded as
 * strict base64; any other URL is read through Foundation, whose two
 * outcomes (the URL parses, the contents can be read) are parameters.
 */
module DataUrl {
  import opened PhotoStore
  import opened Base64

  datatype UrlError =
    | DataUrlNotParsed
    | DataUrlNotDecoded
    | UrlNotDecoded(url: string)
    | UrlNotRead(url: string)

  /** The description the thrown `PhotoLibraryError` carries. */
  function Message(e: UrlError): string {
    match e
    case DataUrlNotParsed => "The dataURL could not be parsed"
    case DataUrlNotDecoded => "The dataURL could not be decoded"
    case UrlNotDecoded(url) => "The url could not be decoded: " + url
    case UrlNotRead(url) => "The url could not be read: " + url
  }

  datatype Fetched = Loaded(data: seq<byte>) | Failed(error: UrlError)

  const Scheme: string := "data:"
  const Marker: string := ";base64,"

  /** The characters ICU's `.` does not match without the dot-all option. */
  predicate LineTerminator(c: char) {
    c == '\n' || c == '\U{000B}' || c == '\U{000C}' || c == '\r'
    || c == '\U{0085}' || c == '\U{2028}' || c == '\U{2029}'
  }

  /** `hasPrefix("data:")` */
  predicate IsDataUrl(url: string) {
    |url| >= 5 && url[..5] == Scheme
  }

  /**
   * The pattern matches `url[..k + 8]`: the scheme, then at least one
   * character other than a line terminator (`.+?`), then the marker at `k`.
   */
  predicate HeaderAt(url: string, k: int) {
    && IsDataUrl(url)
    && 6 <= k && k + 8 <= |url|
    && url[k..k + 8] == Marker
    && forall p :: 5 <= p < k ==> !LineTerminator(url[p])
  }

  /**
   * The lazy quantifier tries the shortest `.+?` first, so the match ends at
   * the first marker position from `k` on, provided no line terminator comes
   * before it.
   */
  function ScanFrom(url: string, k: nat): (r: Option<nat>)
    requires IsDataUrl(url) && 6 <= k <= |url| + 1
    requires forall p :: 5 <= p < k - 1 ==> !LineTerminator(url[p])
    ensures r.Some? ==> HeaderAt(url, r.value) && k <= r.value
    ensures r.Some? ==> forall j :: k <= j < r.value ==> !HeaderAt(url, j)
    ensures r.None? ==> forall j :: k <= j ==> !HeaderAt(url, j)
    decreases |url| - k
  {
    if k + 8 > |url| then None
    else if LineTerminator(url[k - 1]) then None
    else if url[k..k + 8] == Marker then Some(k)
    else ScanFrom(url, k + 1)
  }

  /** Where the marker of the first match starts, if the pattern matches. */
  function FirstHeader(url: string): (r: Option<nat>)
    requires IsDataUrl(url)
    ensures r.Some? ==> HeaderAt(url, r.value) && forall j :: j < r.value ==> !HeaderAt(url, j)
    ensures r.None? ==> forall j :: !HeaderAt(url, j)
  {
    ScanFrom(url, 6)
  }

  /**
   * `getDataFromURL(url)`; `parses` is whether `URL(string:)` accepts the
   * text, `contents` what `Data(contentsOf:)` returns (`None`: it threw).
   */
  function GetDataFromUrl(url: string, parses: bool, contents: Option<seq<byte>>): (r: Fetched)
    ensures IsDataUrl(url) && (forall j :: !HeaderAt(url, j)) ==> r == Failed(DataUrlNotParsed)
    ensures !IsDataUrl(url) && !parses ==> r == Failed(UrlNotDecoded(url))
    ensures !IsDataUrl(url) && parses ==> r == if contents.None? then Failed(UrlNotRead(url)) else Loaded(contents.value)
    ensures IsDataUrl(url) ==> r != Failed(UrlNotDecoded(url)) && r != Failed(UrlNotRead(url))
  {
    if IsDataUrl(url) then
      match FirstHeader(url)
      case None => Failed(DataUrlNotParsed)
      case Some(k) =>
        match Decode(url[k + 8..])
        case None => Failed(DataUrlNotDecoded)
        case Some(data) => Loaded(data)
    else if !parses then Failed(UrlNotDecoded(url))
    else if contents.None? then Failed(UrlNotRead(url))
    else Loaded(contents.value)
  }

  /** A data URL's payload is everything after the first marker, and it is decoded or rejected as a whole. */
  lemma PayloadAfterFirstMarker(url: string, k: nat, parses: bool, contents: Option<seq<byte>>)
    requires HeaderAt(url, k) && forall j :: j < k ==> !HeaderAt(url, j)
    ensures GetDataFromUrl(url, parses, contents) ==
      if Decode(url[k + 8..]).Some? then Loaded(Decode(url[k + 8..]).value) else Failed(DataUrlNotDecoded)
  {
  }

  /**
   * Round trip: a data URL built from a media type without ';' or line
   * terminators and the base64 of some bytes yields exactly those bytes.
   */
  lemma {:induction false} DataUrlRoundTrip(mediaType: string, data: seq<byte>, parses: bool, contents: Option<seq<byte>>)
    requires |mediaType| > 0
    requires forall i :: 0 <= i < |mediaType| ==> mediaType[i] != ';' && !LineTerminator(mediaType[i])
    ensures GetDataFromUrl(Scheme + mediaType + Marker + Encode(data), parses, contents) == Loaded(data)
  {
    var url := Scheme + mediaType + Marker + Encode(data);
    var k := 5 + |mediaType|;
    assert url[..5] == Scheme;
    assert url[k..k + 8] == Marker;
    forall p | 5 <= p < k ensures !LineTerminator(url[p]) {
      assert url[p] == mediaType[p - 5];
    }
    forall j | j < k ensures !HeaderAt(url, j) {
      if 6 <= j && j + 8 <= |url| {
        assert url[j] == mediaType[j - 5];
        assert url[j..j + 8][0] == url[j];
      }
    }
    assert url[k + 8..] == Encode(data);
    PayloadAfterFirstMarker(url, k, parses, contents);
    DecodeEncode(data);
  }

  /** A data URL never reaches the URL loader: its outcome does not depend on what the loader would say. */
  lemma DataUrlIgnoresLoader(url: string, p1: bool, c1: Option<seq<byte>>, p2: bool, c2: Option<seq<byte>>)
    requires IsDataUrl(url)
    ensures GetDataFromUrl(url, p1, c1) == GetDataFromUrl(url, p2, c2)
  {
  }
}
