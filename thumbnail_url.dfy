/**
 * The inline thumbnail URL of the thumbnail handler: a `data:` URL in the
 * form of section 3 of RFC 2397, `data:<mediatype>;base64,<payload>`, with the
 * payload in standard Base64.
 */
module ThumbnailUrl {
  import opened Wrappers
  import Base64

  const Scheme: string := "data:"
  const Base64Marker: string := ";base64"

  /** The `Sprintf("data:%s;base64,%s", mediaType, base64(data))` of the handler. */
  function DataUrl(mediaType: string, data: seq<Base64.byte>): string
  {
    Scheme + mediaType + Base64Marker + "," + Base64.Encode(data)
  }

  /**
   * The layout of the thumbnail URL: the header `data:<type>;base64`, a
   * comma, then the Base64 payload, 4 * ceil(n / 3) characters long and free
   * of commas, so the header ends at the last comma of the URL.
   */
  lemma DataUrlLayout(mediaType: string, data: seq<Base64.byte>)
    ensures var url := DataUrl(mediaType, data);
            var n := |Scheme| + |mediaType| + |Base64Marker|;
            && |url| == n + 1 + 4 * ((|data| + 2) / 3)
            && url[..n] == Scheme + mediaType + Base64Marker
            && url[n] == ','
            && ',' !in url[n + 1..]
  {
    var head := Scheme + mediaType + Base64Marker;
    var payload := Base64.Encode(data);
    NoCommaInPayload(data);
    assert DataUrl(mediaType, data) == head + "," + payload;
    assert (head + "," + payload)[..|head|] == head;
    assert (head + "," + payload)[|head| + 1..] == payload;
  }

  /** The position of the last `c` in `s`, if any. */
  function LastIndexOf(s: string, c: char): (r: Option<nat>)
    ensures r.None? <==> c !in s
    ensures r.Some? ==> r.value < |s| && s[r.value] == c && c !in s[r.value + 1..]
    decreases |s|
  {
    if |s| == 0 then None
    else if s[|s| - 1] == c then Some(|s| - 1)
    else
      match LastIndexOf(s[..|s| - 1], c)
      case None => None
      case Some(k) =>
        assert s[k + 1..] == s[..|s| - 1][k + 1..] + [s[|s| - 1]];
        Some(k)
  }

  /**
   * Reads a base64 `data:` URL back into its media type and bytes. The
   * payload holds no comma, so the last comma ends the media type, whatever
   * the media type contains.
   */
  function ParseDataUrl(url: string): (r: Option<(string, seq<Base64.byte>)>)
  {
    if |url| < |Scheme| || url[..|Scheme|] != Scheme then None
    else
      match LastIndexOf(url, ',')
      case None => None
      case Some(k) =>
        if k < |Scheme| + |Base64Marker| || url[k - |Base64Marker|..k] != Base64Marker then None
        else
          match Base64.Decode(url[k + 1..])
          case None => None
          case Some(data) => Some((url[|Scheme|..k - |Base64Marker|], data))
  }

  /** The comma before the payload is the last comma of the URL. */
  lemma LastCommaBeforePayload(head: string, payload: string)
    requires ',' !in payload
    ensures LastIndexOf(head + "," + payload, ',') == Some(|head|)
  {
    var s := head + "," + payload;
    assert s[|head|] == ',';
    assert s[|head| + 1..] == payload;
  }

  /** A standard Base64 payload holds no comma. */
  lemma NoCommaInPayload(data: seq<Base64.byte>)
    ensures ',' !in Base64.Encode(data)
  {
    var payload := Base64.Encode(data);
    forall i | 0 <= i < |payload| ensures payload[i] != ',' {
      assert Base64.InAlphabet(payload[i]) || payload[i] == '=';
    }
  }

  /** How the parser splits a URL of the form `data:<head>;base64,<payload>`. */
  lemma ParseParts(mediaType: string, payload: string)
    requires ',' !in payload
    ensures ParseDataUrl(Scheme + mediaType + Base64Marker + "," + payload) ==
      match Base64.Decode(payload)
      case None => None
      case Some(data) => Some((mediaType, data))
  {
    var head := Scheme + mediaType + Base64Marker;
    LastCommaBeforePayload(head, payload);
    UrlSlices(mediaType, payload);
  }

  /** The slices of `data:<type>;base64,<payload>` the parser reads. */
  lemma UrlSlices(mediaType: string, payload: string)
    ensures var url := Scheme + mediaType + Base64Marker + "," + payload;
            var k := |Scheme| + |mediaType| + |Base64Marker|;
            && |url| == k + 1 + |payload|
            && url[..|Scheme|] == Scheme
            && url[k - |Base64Marker|..k] == Base64Marker
            && url[k + 1..] == payload
            && url[|Scheme|..k - |Base64Marker|] == mediaType
  {
    var url := Scheme + mediaType + Base64Marker + "," + payload;
    var k := |Scheme| + |mediaType| + |Base64Marker|;
    assert url[..k] == Scheme + mediaType + Base64Marker;
    assert url[k - |Base64Marker|..k] == Base64Marker;
    assert url[|Scheme|..k - |Base64Marker|] == mediaType;
  }

  /** The thumbnail URL carries the media type and the thumbnail bytes unchanged. */
  lemma ParseDataUrlRoundTrip(mediaType: string, data: seq<Base64.byte>)
    ensures ParseDataUrl(DataUrl(mediaType, data)) == Some((mediaType, data))
  {
    NoCommaInPayload(data);
    ParseParts(mediaType, Base64.Encode(data));
    Base64.DecodeEncode(data);
  }

  /** Two thumbnail URLs are equal only for the same media type and the same bytes. */
  lemma DataUrlInjective(m1: string, d1: seq<Base64.byte>, m2: string, d2: seq<Base64.byte>)
    requires DataUrl(m1, d1) == DataUrl(m2, d2)
    ensures m1 == m2 && d1 == d2
  {
    ParseDataUrlRoundTrip(m1, d1);
    ParseDataUrlRoundTrip(m2, d2);
  }
}
