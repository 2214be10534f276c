/**
 * The pure parts of the video upload handler: the aspect-ratio classifier of
 * `getVideoAspectRatio`, `abs`, the label-to-prefix switch, and the
 * fast-start output path, storage key and public URL built with `Sprintf`.
 *
 * Go computes the ratio in IEEE-754 double precision; this model uses Dafny's
 * exact `real`, so answers can differ only for ratios within rounding error
 * of the tolerance boundary.
 */
module Media {
  import opened Wrappers

  /** Width and height of one stream in the prober's JSON output. */
  datatype Stream = Stream(width: int, height: int)

  /** What running ffprobe and unmarshalling its output gave. */
  datatype ProbeOutcome =
    | ProbeFailed(reason: string)   // non-zero exit or unparsable JSON
    | ProbeOutput(streams: seq<Stream>)

  const Landscape: string := "16:9"
  const Portrait: string := "9:16"
  const OtherRatio: string := "other"

  /** The tolerance `epsilon` of the classifier. */
  const Epsilon: real := 0.01

  function Abs(x: real): (r: real)
    ensures 0.0 <= r && (r == x || r == -x)
  {
    if x < 0.0 then -x else x
  }

  function IntAbs(x: int): (r: int)
    ensures 0 <= r && (r == x || r == -x)
  {
    if x < 0 then -x else x
  }

  /**
   * The label of `width / height`; "16:9" is tried first. A zero height makes
   * Go's division yield an infinity or NaN, for which both tests are false.
   */
  function AspectRatio(width: int, height: int): (ratioName: string)
    ensures ratioName == Landscape || ratioName == Portrait || ratioName == OtherRatio
  {
    if height == 0 then OtherRatio
    else
      var ratio := width as real / height as real;
      if Abs(ratio - 16.0 / 9.0) < Epsilon then Landscape
      else if Abs(ratio - 9.0 / 16.0) < Epsilon then Portrait
      else OtherRatio
  }

  /** Classification of the first stream of a probe; fails only when the probe failed or found no stream. */
  function GetVideoAspectRatio(probe: ProbeOutcome): (r: Result<string>)
    ensures r.Ok? <==> probe.ProbeOutput? && |probe.streams| > 0
    ensures probe.ProbeOutput? && |probe.streams| == 0 ==> r == Err("no streams found")
    ensures r.Ok? ==> r.value == AspectRatio(probe.streams[0].width, probe.streams[0].height)
  {
    match probe
    case ProbeFailed(reason) => Err(reason)
    case ProbeOutput(streams) =>
      if |streams| == 0 then Err("no streams found")
      else Ok(AspectRatio(streams[0].width, streams[0].height))
  }

  /** The object-store prefix for a label: the `switch` of the upload handler. */
  function Prefix(aspectRatio: string): (prefix: string)
    ensures prefix == "landscape" <==> aspectRatio == Landscape
    ensures prefix == "portrait" <==> aspectRatio == Portrait
    ensures prefix == "other" <==> aspectRatio != Landscape && aspectRatio != Portrait
    ensures '/' !in prefix
  {
    if aspectRatio == Landscape then "landscape"
    else if aspectRatio == Portrait then "portrait"
    else "other"
  }

  /**
   * The path ffmpeg writes the fast-start copy to: a different file in the
   * same directory as the input, since the added suffix holds no `/`.
   */
  function FastStartOutputPath(filePath: string): (outputPath: string)
    ensures |outputPath| > |filePath| && outputPath[..|filePath|] == filePath
    ensures '/' !in outputPath[|filePath|..]
  {
    filePath + ".processing"
  }

  /** The position of the first `c` in `s`, if any. */
  function IndexOf(s: string, c: char): (r: Option<nat>)
    ensures r.None? <==> c !in s
    ensures r.Some? ==> r.value < |s| && s[r.value] == c && c !in s[..r.value]
  {
    if |s| == 0 then None
    else if s[0] == c then Some(0)
    else match IndexOf(s[1..], c)
      case None => None
      case Some(k) =>
        assert s[..k + 1] == [s[0]] + s[1..][..k];
        Some(k + 1)
  }

  /** A key split at its first `/` into its leading segment and the rest. */
  function SplitKey(key: string): (r: Option<(string, string)>)
  {
    match IndexOf(key, '/')
    case None => None
    case Some(k) => Some((key[..k], key[k + 1..]))
  }

  /** The key of a URL built for `distribution`, if it is one. */
  function KeyOfVideoUrl(distribution: string, url: string): (r: Option<string>)
  {
    var host := "https://" + distribution + "/";
    if |host| <= |url| && url[..|host|] == host then Some(url[|host|..]) else None
  }

  /** The object key `prefix/assetPath`; `SplitStorageKey` reads both parts back. */
  function StorageKey(prefix: string, assetPath: string): string
  {
    prefix + "/" + assetPath
  }

  /** The public URL of a key behind the CDN distribution host; `KeyOfVideoUrlRoundTrip` strips the host off again. */
  function VideoUrl(distribution: string, key: string): string
  {
    "https://" + distribution + "/" + key
  }

  /** |a| < 1/100 exactly when 100 * t < c, where t = |a| * c for a positive c. */
  lemma ScaleTolerance(a: real, c: real, t: real)
    requires c > 0.0 && t == Abs(a) * c
    ensures Abs(a) < Epsilon <==> 100.0 * t < c
  {
    var x := Abs(a);
    if x < Epsilon {
      assert 100.0 * x < 1.0;
      assert (100.0 * x) * c < 1.0 * c;
    } else {
      assert 100.0 * x >= 1.0;
      assert (100.0 * x) * c >= 1.0 * c;
    }
  }

  lemma AbsProduct(x: real, y: real)
    ensures Abs(x) * Abs(y) == Abs(x * y)
  {
    if x < 0.0 && y < 0.0 {
      assert x * y == (-x) * (-y);
    } else if x < 0.0 {
      assert -(x * y) == (-x) * y;
    } else if y < 0.0 {
      assert -(x * y) == x * (-y);
    }
  }

  lemma DifferenceTimes(w: real, h: real, p: real, q: real)
    requires h != 0.0 && q != 0.0
    ensures (w / h - p / q) * (q * h) == q * w - p * h
  {
    assert (w / h) * h == w;
    assert (p / q) * q == p;
    calc {
      (w / h - p / q) * (q * h);
      ((w / h) * h) * q - ((p / q) * q) * h;
      q * w - p * h;
    }
  }

  /** w/h lies within 1/100 of p/q exactly when 100 * |q*w - p*h| < q * |h|, in exact reals. */
  lemma RatioTolerance(w: real, h: real, p: real, q: real)
    requires h != 0.0 && q > 0.0
    ensures Abs(w / h - p / q) < Epsilon <==> 100.0 * Abs(q * w - p * h) < q * Abs(h)
  {
    var a := w / h - p / q;
    DifferenceTimes(w, h, p, q);
    AbsProduct(a, q * h);
    AbsProduct(q, h);
    assert Abs(q) == q;
    var c := q * Abs(h);
    assert c == Abs(q * h);
    ScaleTolerance(a, c, Abs(q * w - p * h));
  }

  /** The same test stated on the integer width and height, for the two target ratios. */
  lemma ToleranceAsIntegers(w: int, h: int, p: int, q: int)
    requires h != 0
    requires (p == 16 && q == 9) || (p == 9 && q == 16)
    ensures Abs(w as real / h as real - p as real / q as real) < Epsilon
            <==> 100 * IntAbs(q * w - p * h) < q * IntAbs(h)
  {
    RatioTolerance(w as real, h as real, p as real, q as real);
    assert (q * w - p * h) as real == q as real * w as real - p as real * h as real;
    assert Abs((q * w - p * h) as real) == IntAbs(q * w - p * h) as real;
    assert Abs(h as real) == IntAbs(h) as real;
    assert (q * IntAbs(h)) as real == q as real * IntAbs(h) as real;
  }

  /**
   * The classifier, stated on integers: "16:9" when 100 * |9w - 16h| < 9|h|,
   * otherwise "9:16" when 100 * |16w - 9h| < 16|h|, otherwise "other"; a zero
   * height always gives "other".
   */
  lemma AspectRatioByIntegers(w: int, h: int)
    ensures h == 0 ==> AspectRatio(w, h) == OtherRatio
    ensures h != 0 ==>
      (AspectRatio(w, h) == Landscape <==> 100 * IntAbs(9 * w - 16 * h) < 9 * IntAbs(h))
    ensures h != 0 ==>
      (AspectRatio(w, h) == Portrait <==>
        !(100 * IntAbs(9 * w - 16 * h) < 9 * IntAbs(h)) && 100 * IntAbs(16 * w - 9 * h) < 16 * IntAbs(h))
  {
    if h != 0 {
      ToleranceAsIntegers(w, h, 16, 9);
      ToleranceAsIntegers(w, h, 9, 16);
    }
  }

  /** Every exact multiple of 16x9 is landscape and of 9x16 portrait, hence the prefix. */
  lemma ScaledResolutions(k: int)
    requires k != 0
    ensures AspectRatio(16 * k, 9 * k) == Landscape && Prefix(AspectRatio(16 * k, 9 * k)) == "landscape"
    ensures AspectRatio(9 * k, 16 * k) == Portrait && Prefix(AspectRatio(9 * k, 16 * k)) == "portrait"
    ensures AspectRatio(k, k) == OtherRatio && Prefix(AspectRatio(k, k)) == "other"
  {
    AspectRatioByIntegers(16 * k, 9 * k);
    AspectRatioByIntegers(9 * k, 16 * k);
    AspectRatioByIntegers(k, k);
  }

  /** The usual resolutions: 1920x1080 is landscape, 1080x1920 portrait, 1x1 and 0x0 other. */
  lemma StandardResolutions()
    ensures Prefix(AspectRatio(1920, 1080)) == "landscape"
    ensures Prefix(AspectRatio(1080, 1920)) == "portrait"
    ensures Prefix(AspectRatio(1, 1)) == "other"
    ensures Prefix(AspectRatio(0, 0)) == "other"
  {
    ScaledResolutions(120);
    ScaledResolutions(1);
  }

  /** A key starts with its prefix segment: splitting it at its first `/` gives both parts back. */
  lemma {:induction false} SplitStorageKey(prefix: string, assetPath: string)
    requires '/' !in prefix
    ensures SplitKey(StorageKey(prefix, assetPath)) == Some((prefix, assetPath))
  {
    var key := StorageKey(prefix, assetPath);
    assert key[|prefix|] == '/';
    assert key[..|prefix|] == prefix;
    assert key[|prefix| + 1..] == assetPath;
  }

  /** The URL determines its key: stripping the `https://host/` part gives it back. */
  lemma KeyOfVideoUrlRoundTrip(distribution: string, key: string)
    ensures KeyOfVideoUrl(distribution, VideoUrl(distribution, key)) == Some(key)
  {
    var host := "https://" + distribution + "/";
    assert VideoUrl(distribution, key) == host + key;
  }

  /**
   * Where a classified upload is published: the URL names the key, and the
   * key's first segment is the prefix of the dimensions' label.
   */
  lemma PublishedLocation(distribution: string, width: int, height: int, assetPath: string)
    ensures var key := StorageKey(Prefix(AspectRatio(width, height)), assetPath);
            KeyOfVideoUrl(distribution, VideoUrl(distribution, key)) == Some(key) &&
            SplitKey(key) == Some((Prefix(AspectRatio(width, height)), assetPath))
  {
    var prefix := Prefix(AspectRatio(width, height));
    SplitStorageKey(prefix, assetPath);
    KeyOfVideoUrlRoundTrip(distribution, StorageKey(prefix, assetPath));
  }
}
