/**
 * How the editor takes a data URL apart into base64 payload and mime type, in its two
 * places: urlToBase64, for an image already on the page or generated by the model, and
 * the upload dialog's FileReader callback.
 *
 * Both take the payload as the second comma-separated field of the URL (undefined when
 * there is no comma). urlToBase64 reads the mime type with the lazy `/:(.*?);/` in the
 * first field and falls back to image/png; the upload dialog reads it with the greedy
 * `/data:(.*);base64,/` in the whole URL and falls back to image/jpeg. An empty capture
 * is falsy, so it falls back too. In both patterns `.` matches anything but a line
 * terminator.
 */
module DataUrls {
  import opened Results
  import opened Strings

  /** The characters `.` does not match in a regular expression. */
  predicate IsLineTerminator(c: char) {
    c == '\n' || c == '\r' || c == '\U{2028}' || c == '\U{2029}'
  }

  /** The position of the first comma at or after `i`, or |s| when there is none. */
  function NextComma(s: string, i: nat): (c: nat)
    requires i <= |s|
    ensures i <= c <= |s|
    ensures forall k | i <= k < c :: s[k] != ','
    ensures c < |s| ==> s[c] == ','
    decreases |s| - i
  {
    if i == |s| || s[i] == ',' then i else NextComma(s, i + 1)
  }

  /** The first two fields of `s.split(',')`: the text up to the first comma, and the next field if there is one. */
  function CommaFields(s: string): (r: (string, Option<string>))
    ensures ',' !in r.0
    ensures r.1.None? <==> ',' !in s
    ensures r.1.None? ==> r.0 == s
    ensures r.1.Some? ==> ',' !in r.1.value && StartsWith(s, r.0 + "," + r.1.value)
    ensures r.1.Some? ==> |r.0 + "," + r.1.value| == |s| || s[|r.0 + "," + r.1.value|] == ','
  {
    var c := NextComma(s, 0);
    if c == |s| then
      (s, None)
    else
      var d := NextComma(s, c + 1);
      assert s[..c] + "," + s[c + 1..d] == s[..d];
      (s[..c], Some(s[c + 1..d]))
  }

  /** The first comma at or after `i` is at `c` when `c` is a comma (or the end) and none comes before. */
  lemma {:induction false} NextCommaAt(s: string, i: nat, c: nat)
    requires i <= c <= |s|
    requires forall k | i <= k < c :: s[k] != ','
    requires c < |s| ==> s[c] == ','
    ensures NextComma(s, i) == c
    decreases c - i
  {
    if i < c {
      NextCommaAt(s, i + 1, c);
    }
  }

  // ---------------------------------------------------------------------------
  // urlToBase64: /:(.*?);/ on the first field, defaulting to image/png

  /** The first `;` at or after `i` that is reached without crossing a line terminator. */
  function SemicolonAhead(s: string, i: nat): (r: Option<nat>)
    ensures r.Some? ==> i <= r.value < |s| && s[r.value] == ';'
    ensures r.Some? ==> forall k | i <= k < r.value :: s[k] != ';' && !IsLineTerminator(s[k])
    ensures r.None? ==> forall q | i <= q < |s| && s[q] == ';' :: exists k | i <= k < q :: IsLineTerminator(s[k])
    decreases |s| - i
  {
    if i >= |s| then None
    else if s[i] == ';' then Some(i)
    else if IsLineTerminator(s[i]) then None
    else SemicolonAhead(s, i + 1)
  }

  /** The capture of `/:(.*?);/` searched from position `p` on: the leftmost `:` from which a `;` is reached. */
  function LazyCapture(s: string, p: nat): (r: Option<string>)
    ensures r.Some? ==> forall k | 0 <= k < |r.value| :: r.value[k] != ';' && !IsLineTerminator(r.value[k])
    ensures (forall k | p <= k < |s| :: s[k] != ':') ==> r.None?
    decreases |s| - p
  {
    if p >= |s| then None
    else if s[p] == ':' then
      match SemicolonAhead(s, p + 1)
      case Some(q) => Some(s[p + 1..q])
      case None => LazyCapture(s, p + 1)
    else LazyCapture(s, p + 1)
  }

  /** `header.match(/:(.*?);/)?.[1] || 'image/png'` */
  function MimeOrPng(header: string): string {
    match LazyCapture(header, 0)
    case Some(m) => if m != "" then m else "image/png"
    case None => "image/png"
  }

  /** The payload and mime type of an image. */
  datatype EncodedImage = EncodedImage(base64: Option<string>, mimeType: string)

  /**
   * The data-URL branch of urlToBase64. Any other URL takes the branch that loads the
   * image through a canvas, which is not modelled: None.
   */
  function DataUrlImage(url: string): (r: Option<EncodedImage>)
    ensures r.Some? <==> StartsWith(url, "data:")
    ensures r.Some? ==> r.value.base64 == CommaFields(url).1
  {
    if StartsWith(url, "data:") then
      var parts := CommaFields(url);
      Some(EncodedImage(parts.1, MimeOrPng(parts.0)))
    else None
  }

  // ---------------------------------------------------------------------------
  // The upload dialog: /data:(.*);base64,/ on the whole URL, defaulting to image/jpeg

  const Base64Marker: string := ";base64,"

  /** The first line terminator at or after `i`, or |s|. */
  function LineEnd(s: string, i: nat): (e: nat)
    ensures e >= i || e == |s|
    ensures e <= |s| || e == i
    ensures forall k | i <= k < e && k < |s| :: !IsLineTerminator(s[k])
    ensures e < |s| ==> IsLineTerminator(s[e])
    decreases |s| - i
  {
    if i >= |s| then i
    else if IsLineTerminator(s[i]) then i
    else LineEnd(s, i + 1)
  }

  /** The last occurrence of `pat` in `s` that starts at or after `lo` and ends at or before `hi`. */
  function LastWithin(s: string, pat: string, lo: nat, hi: nat): (r: Option<nat>)
    ensures r.Some? ==> lo <= r.value && r.value + |pat| <= hi && OccursAt(s, pat, r.value)
    ensures r.Some? ==> forall q | r.value < q && q + |pat| <= hi :: !OccursAt(s, pat, q)
    ensures r.None? ==> forall q | lo <= q && q + |pat| <= hi :: !OccursAt(s, pat, q)
    decreases hi
  {
    if hi < lo + |pat| then None
    else if OccursAt(s, pat, hi - |pat|) then Some(hi - |pat|)
    else LastWithin(s, pat, lo, hi - 1)
  }

  /**
   * The capture of `/data:(.*);base64,/` searched from position `p` on: at the leftmost
   * "data:" from which the pattern matches, everything up to the last ";base64," on the
   * same line.
   */
  function GreedyCapture(s: string, p: nat): (r: Option<string>)
    ensures r.Some? ==> forall k | 0 <= k < |r.value| :: !IsLineTerminator(r.value[k])
    ensures (forall k | p <= k < |s| :: !OccursAt(s, "data:", k)) ==> r.None?
    decreases |s| - p
  {
    if p + 5 > |s| then None
    else if OccursAt(s, "data:", p) then
      match LastWithin(s, Base64Marker, p + 5, LineEnd(s, p + 5))
      case Some(q) => Some(s[p + 5..q])
      case None => GreedyCapture(s, p + 1)
    else GreedyCapture(s, p + 1)
  }

  /** What the upload dialog keeps of the FileReader's data URL. */
  function UploadedImage(dataUrl: string): (r: EncodedImage)
    ensures r.base64 == CommaFields(dataUrl).1
  {
    var mimeType := GreedyCapture(dataUrl, 0);
    EncodedImage(CommaFields(dataUrl).1,
      if mimeType.Some? && mimeType.value != "" then mimeType.value else "image/jpeg")
  }

  // ---------------------------------------------------------------------------
  // Round trips

  /** The data URL of a base64 payload with the given media type. */
  function Base64DataUrl(mime: string, payload: string): string {
    "data:" + mime + Base64Marker + payload
  }

  /** A media type that survives both patterns: no comma, semicolon or line terminator. */
  predicate PlainMime(mime: string) {
    forall k | 0 <= k < |mime| :: mime[k] != ',' && mime[k] != ';' && !IsLineTerminator(mime[k])
  }

  /** The comma in ";base64," is the URL's first, and a payload without commas is the second field. */
  lemma FieldsOfBase64Url(mime: string, payload: string)
    requires ',' !in mime && ',' !in payload
    ensures CommaFields(Base64DataUrl(mime, payload)) == ("data:" + mime + ";base64", Some(payload))
  {
    var url := Base64DataUrl(mime, payload);
    var c := 5 + |mime| + 7;
    assert url[c] == ',';
    forall k | 0 <= k < c ensures url[k] != ',' {
      if 5 <= k < 5 + |mime| {
        assert url[k] == mime[k - 5];
      }
    }
    forall k | c + 1 <= k < |url| ensures url[k] != ',' {
      assert url[k] == payload[k - c - 1];
    }
    NextCommaAt(url, 0, c);
    NextCommaAt(url, c + 1, |url|);
    assert NextComma(url, 0) == c && NextComma(url, c + 1) == |url|;
    assert url[..c] == "data:" + mime + ";base64";
    assert url[c + 1..|url|] == payload;
  }

  /** urlToBase64 gives back the payload and the media type it was built from (image/png when empty). */
  lemma DataUrlRoundTrip(mime: string, payload: string)
    requires PlainMime(mime) && ',' !in payload
    ensures DataUrlImage(Base64DataUrl(mime, payload))
      == Some(EncodedImage(Some(payload), if mime == "" then "image/png" else mime))
  {
    assert ',' !in mime by {
      forall k | 0 <= k < |mime| ensures mime[k] != ',' { }
    }
    FieldsOfBase64Url(mime, payload);
    var url := Base64DataUrl(mime, payload);
    assert url[..5] == "data:";
    var header := "data:" + mime + ";base64";
    assert header[4] == ':';
    forall k | 5 <= k < 5 + |mime| ensures header[k] != ';' && !IsLineTerminator(header[k]) {
      assert header[k] == mime[k - 5];
    }
    assert header[5 + |mime|] == ';';
    assert SemicolonAhead(header, 5) == Some(5 + |mime|) by {
      SemicolonAheadFirst(header, 5, 5 + |mime|);
    }
    assert forall k | 0 <= k < 4 :: header[k] != ':';
    LazyCaptureSkips(header, 0, 4);
    assert header[5..5 + |mime|] == mime;
  }

  /** The first reachable `;` is the one with no `;` and no line terminator before it. */
  lemma {:induction false} SemicolonAheadFirst(s: string, i: nat, q: nat)
    requires i <= q < |s| && s[q] == ';'
    requires forall k | i <= k < q :: s[k] != ';' && !IsLineTerminator(s[k])
    ensures SemicolonAhead(s, i) == Some(q)
    decreases q - i
  {
    if i < q {
      SemicolonAheadFirst(s, i + 1, q);
    }
  }

  /** The line runs on at least to `t` when there is no line terminator before it. */
  lemma {:induction false} LineEndBeyond(s: string, i: nat, t: nat)
    requires i <= t <= |s|
    requires forall k | i <= k < t :: !IsLineTerminator(s[k])
    ensures t <= LineEnd(s, i) <= |s|
    decreases t - i
  {
    if i < t {
      LineEndBeyond(s, i + 1, t);
    }
  }

  /** The lazy search passes over positions without a `:`. */
  lemma {:induction false} LazyCaptureSkips(s: string, p: nat, t: nat)
    requires p <= t <= |s|
    requires forall k | p <= k < t :: s[k] != ':'
    ensures LazyCapture(s, p) == LazyCapture(s, t)
    decreases t - p
  {
    if p < t {
      LazyCaptureSkips(s, p + 1, t);
    }
  }

  /** In a base64 data URL whose type has no line terminator, the last marker on the first line is its own. */
  lemma MarkerIsLastOnLine(mime: string, payload: string)
    requires ',' !in payload
    requires forall k | 0 <= k < |mime| :: !IsLineTerminator(mime[k])
    ensures LastWithin(Base64DataUrl(mime, payload), Base64Marker, 5, LineEnd(Base64DataUrl(mime, payload), 5))
      == Some(5 + |mime|)
  {
    var url := Base64DataUrl(mime, payload);
    var q := 5 + |mime|;
    assert OccursAt(url, Base64Marker, q) by { assert url[q..q + 8] == Base64Marker; }
    forall k | 5 <= k < q + 8 ensures !IsLineTerminator(url[k]) {
      if k < q {
        assert url[k] == mime[k - 5];
      }
    }
    LineEndBeyond(url, 5, q + 8);
    var e := LineEnd(url, 5);
    forall q' | q < q' && q' + 8 <= e ensures !OccursAt(url, Base64Marker, q') {
      assert url[q' + 7] == payload[q' + 7 - (q + 8)];
      assert url[q'..q' + 8][7] == url[q' + 7];
    }
  }

  /** A base64 data URL starts with "data:" and then its media type. */
  lemma UrlStartsWithType(mime: string, payload: string)
    ensures OccursAt(Base64DataUrl(mime, payload), "data:", 0)
    ensures Base64DataUrl(mime, payload)[5..5 + |mime|] == mime
  {
    var url := Base64DataUrl(mime, payload);
    assert url[..5] == "data:";
    forall k | 0 <= k < |mime| ensures url[5..5 + |mime|][k] == mime[k] {
      assert url[5 + k] == mime[k];
    }
  }

  /** At a "data:" from which a marker is found on the same line, the capture ends at the last such marker. */
  lemma GreedyCaptureAt(s: string, p: nat, q: nat)
    requires OccursAt(s, "data:", p)
    requires LastWithin(s, Base64Marker, p + 5, LineEnd(s, p + 5)) == Some(q)
    ensures GreedyCapture(s, p) == Some(s[p + 5..q])
  {
  }

  /** The upload dialog gives back the payload and the media type it was built from (image/jpeg when empty). */
  lemma UploadRoundTrip(mime: string, payload: string)
    requires ',' !in mime && ',' !in payload
    requires forall k | 0 <= k < |mime| :: !IsLineTerminator(mime[k])
    ensures UploadedImage(Base64DataUrl(mime, payload))
      == EncodedImage(Some(payload), if mime == "" then "image/jpeg" else mime)
  {
    FieldsOfBase64Url(mime, payload);
    MarkerIsLastOnLine(mime, payload);
    UrlStartsWithType(mime, payload);
    GreedyCaptureAt(Base64DataUrl(mime, payload), 0, 5 + |mime|);
  }

  /**
   * The two places disagree on a data URL without a media type: urlToBase64 calls it
   * image/png, the upload dialog image/jpeg.
   */
  lemma DefaultsDiffer(payload: string)
    requires ',' !in payload
    ensures DataUrlImage(Base64DataUrl("", payload)).value.mimeType == "image/png"
    ensures UploadedImage(Base64DataUrl("", payload)).mimeType == "image/jpeg"
  {
    DataUrlRoundTrip("", payload);
    UploadRoundTrip("", payload);
  }

  /** The URL the editor builds for a generated or edited image (`data:image/png;base64,...`). */
  function PngDataUrl(base64: string): string {
    "data:image/png;base64," + base64
  }

  /** A generated image's URL is read back as its own payload and image/png. */
  lemma GeneratedImageReadBack(base64: string)
    requires ',' !in base64
    ensures DataUrlImage(PngDataUrl(base64)) == Some(EncodedImage(Some(base64), "image/png"))
  {
    assert PngDataUrl(base64) == Base64DataUrl("image/png", base64);
    DataUrlRoundTrip("image/png", base64);
  }
}
