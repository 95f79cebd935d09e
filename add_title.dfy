/** The decision logic of the nav-bar composition: the truncation of the texts
    drawn on the bar, the layout of the composed canvas, and the choice of image
    encoder by file extension. */
module AddTitle {

  import opened Base
  import Strings

  /** The longest title and URL drawn unchanged, in bytes. */
  const TitleLimit := 36
  const UrlLimit := 176

  /** A text longer than `limit` bytes cut to its first `limit - 1` bytes; a
      shorter one as it is. */
  function Truncated(s: seq<byte>, limit: nat): seq<byte>
    requires limit >= 1
  {
    if |s| > limit then s[..limit - 1] else s
  }

  /** The texts `addNavBar` draws: the title and the URL, each reassigned when
      too long. Both are Go strings, so their lengths count bytes. */
  method TruncateNav(title: seq<byte>, url: seq<byte>) returns (t: seq<byte>, u: seq<byte>)
    ensures t == Truncated(title, TitleLimit) && u == Truncated(url, UrlLimit)
  {
    t, u := title, url;
    if |t| > TitleLimit {
      t := t[..TitleLimit - 1];
    }
    if |u| > UrlLimit {
      u := u[..UrlLimit - 1];
    }
  }

  /** A truncated text is a prefix of the text and fits the limit; it is the text
      itself exactly when that already fits, else exactly one byte shorter than
      the limit. */
  lemma TruncatedIsBoundedPrefix(s: seq<byte>, limit: nat)
    requires limit >= 1
    ensures Strings.IsPrefix(Truncated(s, limit), s)
    ensures |Truncated(s, limit)| <= limit
    ensures Truncated(s, limit) == s <==> |s| <= limit
    ensures |s| > limit ==> |Truncated(s, limit)| == limit - 1
  {
  }

  /** Truncating again changes nothing. */
  lemma TruncatedIdempotent(s: seq<byte>, limit: nat)
    requires limit >= 1
    ensures Truncated(Truncated(s, limit), limit) == Truncated(s, limit)
  {
  }

  /** The two texts on the bar after `TruncateNav`. */
  lemma NavTextsFit(title: seq<byte>, url: seq<byte>)
    ensures |Truncated(title, TitleLimit)| <= TitleLimit && |Truncated(url, UrlLimit)| <= UrlLimit
    ensures Strings.IsPrefix(Truncated(title, TitleLimit), title) && Strings.IsPrefix(Truncated(url, UrlLimit), url)
  {
    TruncatedIsBoundedPrefix(title, TitleLimit);
    TruncatedIsBoundedPrefix(url, UrlLimit);
  }

  /** An axis-aligned rectangle `[x0, x1) x [y0, y1)`, as `image.Rectangle`. */
  datatype Rect = Rect(x0: int, y0: int, x1: int, y1: int) {
    function Dx(): int { x1 - x0 }
    function Dy(): int { y1 - y0 }
    predicate Has(x: int, y: int) { x0 <= x < x1 && y0 <= y < y1 }
  }

  /** Where the composition draws: the canvas, the bar at its top (the bar
      image resized to the screenshot's width, `navHeight` high), and the
      screenshot's bounds moved down by the bar's height. */
  datatype Layout = Layout(canvas: Rect, nav: Rect, shot: Rect)

  function Compose(shotWidth: nat, shotHeight: nat, navHeight: nat): (l: Layout)
    ensures l.canvas.x0 == 0 && l.canvas.y0 == 0 && l.canvas.x1 == shotWidth
    ensures l.nav.y0 == 0 && l.nav.y1 == navHeight && l.nav.x1 == shotWidth
    ensures l.shot.y0 == l.nav.y1 && l.shot.y1 == l.canvas.y1
  {
    var shot := Rect(0, 0, shotWidth, shotHeight);
    var nav := Rect(0, 0, shotWidth, navHeight);
    Layout(Rect(0, 0, shot.Dx(), shot.Dy() + nav.Dy()), nav,
           Rect(shot.x0, shot.y0 + nav.Dy(), shot.x1, shot.y1 + nav.Dy()))
  }

  /** The canvas is as wide as the screenshot and as high as screenshot and bar
      together; every point of it is covered by exactly one of the two, and
      nothing is drawn outside it. */
  lemma ComposeTiles(shotWidth: nat, shotHeight: nat, navHeight: nat)
    ensures var l := Compose(shotWidth, shotHeight, navHeight);
      l.canvas.Dx() == shotWidth && l.canvas.Dy() == shotHeight + navHeight
      && l.shot.Dx() == shotWidth && l.shot.Dy() == shotHeight
      && (forall x, y :: l.canvas.Has(x, y) <==> (l.nav.Has(x, y) || l.shot.Has(x, y)))
      && (forall x, y :: !(l.nav.Has(x, y) && l.shot.Has(x, y)))
  {
  }

  /** `filepath.Ext` with `/` as the separator, scanning the first `n` characters
      from the end (the ones after them, already scanned, hold neither a dot nor
      a separator): the suffix from the last dot, unless a separator comes first. */
  function ExtWithin(path: string, n: nat): (ext: string)
    requires n <= |path|
    requires forall i :: n <= i < |path| ==> path[i] != '/' && path[i] != '.'
    ensures ext == [] || (ext[0] == '.' && |ext| <= |path| && ext == path[|path| - |ext|..])
    ensures forall i :: 1 <= i < |ext| ==> ext[i] != '/' && ext[i] != '.'
    decreases n
  {
    if n == 0 || path[n - 1] == '/' then []
    else if path[n - 1] == '.' then path[n - 1..]
    else ExtWithin(path, n - 1)
  }

  /** `filepath.Ext(path)`: the extension, dot included, or empty. */
  function Ext(path: string): (ext: string)
    ensures ext == [] || (ext[0] == '.' && |ext| <= |path| && ext == path[|path| - |ext|..])
    ensures forall i :: 1 <= i < |ext| ==> ext[i] != '/' && ext[i] != '.'
  {
    ExtWithin(path, |path|)
  }

  /** A path ending in a dot and a word without dots or separators has that
      extension, whatever comes before. */
  lemma ExtOfSuffix(p: string, word: string)
    requires forall i :: 0 <= i < |word| ==> word[i] != '/' && word[i] != '.'
    ensures Ext(p + "." + word) == "." + word
  {
    var path := p + "." + word;
    var n := |p| + 1;
    assert path[n - 1] == '.';
    assert path[n - 1..] == "." + word;
    assert forall i :: n <= i < |path| ==> path[i] == word[i - n];
    ExtScan(path, |path|, n);
  }

  /** Scanning from `n` down to `m` passes over letters only, so the result is
      that of scanning from `m`. */
  lemma {:induction false} ExtScan(path: string, n: nat, m: nat)
    requires m <= n <= |path|
    requires forall i :: m <= i < |path| ==> path[i] != '/' && path[i] != '.'
    ensures ExtWithin(path, n) == ExtWithin(path, m)
    decreases n - m
  {
    if n > m {
      ExtScan(path, n - 1, m);
    }
  }

  /** The encoders `saveImageWithFormat` chooses between. */
  datatype ImageFormat = Jpeg(quality: int) | Png

  /** `saveImageWithFormat`'s choice for `path`: JPEG at quality 100 for an
      extension that lower-cases to `.jpeg` or `.jpg`, PNG for `.png`, else the
      error naming the extension as written. */
  function SaveFormat(path: string): (r: Result<ImageFormat>)
    ensures r.Ok? <==> Strings.ToLower(Ext(path)) in [".jpeg", ".jpg", ".png"]
    ensures r == Ok(Png) <==> Strings.ToLower(Ext(path)) == ".png"
    ensures r.Ok? && r.value.Jpeg? ==> r.value.quality == 100
    ensures r.Err? ==> r.error.Text() == "unsupported file format: " + Ext(path)
  {
    var ext := Ext(path);
    var low := Strings.ToLower(ext);
    if low == ".jpeg" || low == ".jpg" then Ok(Jpeg(100))
    else if low == ".png" then Ok(Png)
    else Err(Error("unsupported file format: " + ext))
  }

  /** The choice depends only on the lower-cased extension. */
  lemma SaveFormatIgnoresCase(p: string, q: string)
    requires Strings.ToLower(Ext(p)) == Strings.ToLower(Ext(q))
    ensures SaveFormat(p).Ok? == SaveFormat(q).Ok?
    ensures SaveFormat(p).Ok? ==> SaveFormat(p) == SaveFormat(q)
  {
  }

  /** The bar image is written to a temporary file named after the pattern
      `chrome_proxy_*.jpg`, so it is always encoded as JPEG at quality 100 and
      the unsupported-format error cannot arise there. */
  lemma TempFileIsJpeg(dir: string, random: string)
    ensures SaveFormat(dir + "/chrome_proxy_" + random + ".jpg") == Ok(Jpeg(100))
  {
    var p := dir + "/chrome_proxy_" + random;
    assert dir + "/chrome_proxy_" + random + ".jpg" == p + "." + "jpg";
    ExtOfSuffix(p, "jpg");
    assert "." + "jpg" == ".jpg";
  }

  /** An upper-case extension is matched too. */
  lemma UpperCaseJpeg(p: string)
    ensures SaveFormat(p + ".JPEG") == Ok(Jpeg(100))
  {
    assert p + ".JPEG" == p + "." + "JPEG";
    ExtOfSuffix(p, "JPEG");
    assert "." + "JPEG" == ".JPEG";
    var low := Strings.ToLower(".JPEG");
    assert low == ".jpeg";
  }

  /** Mixed case selects PNG. */
  lemma MixedCasePng(p: string)
    ensures SaveFormat(p + ".Png") == Ok(Png)
  {
    assert p + ".Png" == p + "." + "Png";
    ExtOfSuffix(p, "Png");
    assert "." + "Png" == ".Png";
    var low := Strings.ToLower(".Png");
    assert low == ".png";
  }

  /** An unknown extension is reported as written, not lower-cased. */
  lemma UnknownKeepsCase(p: string)
    ensures SaveFormat(p + ".GIF") == Err(Error("unsupported file format: .GIF"))
  {
    assert p + ".GIF" == p + "." + "GIF";
    ExtOfSuffix(p, "GIF");
    assert "." + "GIF" == ".GIF";
    var low := Strings.ToLower(".GIF");
    assert low == ".gif";
  }
}
