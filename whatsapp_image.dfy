/**
 * The WhatsApp image description of
 * functions/communication/viewAndDescribeWhatsAppImage.ts: look the media up,
 * download it, upload it to the image host, rewrite the hosted URL to a
 * scaled-down rendition, ask the vision model what the image shows, and
 * answer the upload's metadata with the analysis, or `{success: false,
 * error}` for any failure on the way.
 *
 * The media lookup, the download, the upload and the vision model are
 * oracles; the scaled-down URL is a `split` on `/upload/` followed by a
 * template, modelled with JavaScript's `split` semantics.
 */
module WhatsAppImage {

  import opened Common

  const UploadMarker := "/upload/"
  const ScaleDown := "w_500,q_auto:low/"
  const NoAnalysis := "No analysis available"
  const UploadFailedMessage := "Cloudinary upload failed"
  const InvalidUploadMessage := "Upload result is invalid"

  /** `d` occurs in `s` at index `i`. */
  predicate OccursAt(s: string, d: string, i: int) {
    0 <= i && i + |d| <= |s| && s[i..i + |d|] == d
  }

  /** Dropping the first character shifts every occurrence one place to the left. */
  lemma ShiftOccurrences(s: string, d: string)
    requires |s| > 0
    ensures forall j :: 1 <= j ==> (OccursAt(s, d, j) <==> OccursAt(s[1..], d, j - 1))
  {
    forall j | 1 <= j ensures OccursAt(s, d, j) <==> OccursAt(s[1..], d, j - 1) {
      if j + |d| <= |s| {
        assert s[1..][j - 1..j - 1 + |d|] == s[j..j + |d|];
      }
    }
  }

  /** The index of the first occurrence of `d` in `s`, if any. */
  function FirstIndex(s: string, d: string): (r: Option<nat>)
    ensures r.Some? ==> OccursAt(s, d, r.value) && forall j :: 0 <= j < r.value ==> !OccursAt(s, d, j)
    ensures r.None? ==> forall j :: 0 <= j ==> !OccursAt(s, d, j)
    decreases |s|
  {
    if |s| < |d| then None
    else if s[..|d|] == d then Some(0)
    else
      ShiftOccurrences(s, d);
      match FirstIndex(s[1..], d)
      case None => None
      case Some(j) => Some(j + 1)
  }

  /** `s.split(d)` for a non-empty separator: the pieces between the occurrences of `d`, left to right. */
  function Split(s: string, d: string): (parts: seq<string>)
    requires |d| > 0
    ensures |parts| >= 1
    decreases |s|
  {
    match FirstIndex(s, d)
    case None => [s]
    case Some(i) => [s[..i]] + Split(s[i + |d|..], d)
  }

  /** `parts.join(d)`. */
  function Join(parts: seq<string>, d: string): string
    decreases |parts|
  {
    if parts == [] then "" else if |parts| == 1 then parts[0] else parts[0] + d + Join(parts[1..], d)
  }

  /** Split at the first occurrence. */
  lemma SplitFirst(s: string, d: string, i: nat)
    requires |d| > 0 && FirstIndex(s, d) == Some(i)
    ensures Split(s, d) == [s[..i]] + Split(s[i + |d|..], d)
  {
  }

  lemma JoinCons(a: string, tail: seq<string>, d: string)
    requires |tail| >= 1
    ensures Join([a] + tail, d) == a + d + Join(tail, d)
  {
    assert ([a] + tail)[1..] == tail;
  }

  /** Cutting out an occurrence and putting it back gives the string back. */
  lemma Reassemble(s: string, d: string, i: nat)
    requires OccursAt(s, d, i)
    ensures s[..i] + d + s[i + |d|..] == s
  {
    var t := s[..i] + d + s[i + |d|..];
    assert |t| == |s|;
    forall k | 0 <= k < |s| ensures t[k] == s[k] {
      if i <= k < i + |d| {
        assert d[k - i] == s[i..i + |d|][k - i];
      }
    }
  }

  /** Splitting loses nothing: joining the pieces with the separator gives the string back. */
  lemma {:induction false} SplitJoin(s: string, d: string)
    requires |d| > 0
    ensures Join(Split(s, d), d) == s
    decreases |s|
  {
    var first := FirstIndex(s, d);
    if first.Some? {
      var i := first.value;
      var rest := s[i + |d|..];
      SplitJoin(rest, d);
      SplitFirst(s, d, i);
      JoinCons(s[..i], Split(rest, d), d);
      Reassemble(s, d, i);
    }
  }

  /** No piece of a split contains the separator. */
  lemma {:induction false} SplitPiecesAreFree(s: string, d: string)
    requires |d| > 0
    ensures forall k, j :: 0 <= k < |Split(s, d)| && 0 <= j ==> !OccursAt(Split(s, d)[k], d, j)
    decreases |s|
  {
    var first := FirstIndex(s, d);
    if first.Some? {
      var i := first.value;
      var rest := s[i + |d|..];
      SplitPiecesAreFree(rest, d);
      SplitFirst(s, d, i);
      var parts := [s[..i]] + Split(rest, d);
      forall j | 0 <= j ensures !OccursAt(s[..i], d, j) {
        if OccursAt(s[..i], d, j) {
          assert s[..i][j..j + |d|] == s[j..j + |d|];
          assert OccursAt(s, d, j);
        }
      }
      forall k, j | 0 <= k < |parts| && 0 <= j ensures !OccursAt(parts[k], d, j) {
        if k > 0 {
          assert parts[k] == Split(rest, d)[k - 1];
        }
      }
    }
  }

  /** scaleDownUrlTransform: `${parts[0]}/upload/w_500,q_auto:low/${parts[1]}`. */
  function ScaleDownUrlTransform(url: string): string {
    var parts := Split(url, UploadMarker);
    parts[0] + UploadMarker + ScaleDown + (if |parts| > 1 then parts[1] else "undefined")
  }

  /**
   * The scaling step goes right after the first `/upload/` and the text before
   * it is kept; what follows is the text up to the next `/upload/`, so
   * whatever follows a second `/upload/` is dropped. Without any `/upload/`
   * the URL gets the step and `undefined` appended.
   */
  lemma ScaleDownFacts(url: string)
    ensures FirstIndex(url, UploadMarker).None? ==>
              ScaleDownUrlTransform(url) == url + UploadMarker + ScaleDown + "undefined"
    ensures FirstIndex(url, UploadMarker).Some? ==>
              var i := FirstIndex(url, UploadMarker).value;
              var after := url[i + |UploadMarker|..];
              ScaleDownUrlTransform(url) == url[..i] + UploadMarker + ScaleDown +
                (match FirstIndex(after, UploadMarker) case None => after case Some(j) => after[..j])
  {
    match FirstIndex(url, UploadMarker)
    case None =>
    case Some(i) =>
      var after := url[i + |UploadMarker|..];
      assert Split(url, UploadMarker) == [url[..i]] + Split(after, UploadMarker);
  }

  /** A URL with a single `/upload/` gets the scaling step inserted right after it and nothing else changes. */
  lemma ScaleDownSingleMarker(url: string, i: nat)
    requires OccursAt(url, UploadMarker, i)
    requires forall j :: 0 <= j && j != i ==> !OccursAt(url, UploadMarker, j)
    ensures ScaleDownUrlTransform(url) == url[..i + |UploadMarker|] + ScaleDown + url[i + |UploadMarker|..]
  {
    var first := FirstIndex(url, UploadMarker);
    assert first == Some(i);
    var after := url[i + |UploadMarker|..];
    var next := FirstIndex(after, UploadMarker);
    if next.Some? {
      var j := next.value;
      assert url[i + |UploadMarker| + j..i + |UploadMarker| + j + |UploadMarker|] == after[j..j + |UploadMarker|];
      assert OccursAt(url, UploadMarker, i + |UploadMarker| + j);
      assert false;
    }
    SplitFirst(url, UploadMarker, i);
    assert Split(after, UploadMarker) == [after];
    assert url[..i + |UploadMarker|] == url[..i] + UploadMarker;
  }

  /** `quality = 'low'`: the destructuring default applies only to an absent quality. */
  function Quality(quality: Option<string>): (r: string)
    ensures quality.None? ==> r == "low"
    ensures quality.Some? ==> r == quality.value
  {
    quality.GetOr("low")
  }

  /** The `detail` sent to the vision model. */
  function Detail(quality: Option<string>): (r: string)
    ensures r == "high" <==> quality == Some("high")
    ensures r != "high" ==> r == "low"
  {
    if Quality(quality) == "high" then "high" else "low"
  }

  /** The analysis text: an absent or empty answer becomes `No analysis available`. */
  function Analysis(content: Option<string>): (r: string)
    ensures r != ""
    ensures Truthy(content) ==> r == content.value
    ensures !Truthy(content) ==> r == NoAnalysis
  {
    OrElse(content, NoAnalysis)
  }

  /** What the image host reports about an upload. */
  datatype Upload = Upload(url: Option<string>, format: Value, width: Value, height: Value, bytes: Value, publicId: Value)

  /** How the upload promise settles. */
  datatype UploadReply =
    | HostError                  // the upload callback reported an error
    | StreamError(message: string) // piping the download into the upload failed
    | Uploaded(result: Option<Upload>)

  /** The function's answer. */
  datatype Reply =
    | Described(source: string, kind: string, mediaId: string, format: Value, width: Value, height: Value,
                fileSize: Value, analysis: string)
    | Failed(error: string)

  /** The oracles the function talks to. */
  datatype Services = Services(
    lookUp: string -> Result<string>,                // media id to media URL
    download: string -> Result<seq<bv8>>,             // media URL to its bytes
    upload: seq<bv8> -> UploadReply,                  // bytes to the host's report
    vision: (string, string) -> Result<Option<string>>) // scaled URL and detail to the answer's content

  /** viewAndDescribeWhatsAppImage. */
  function ViewAndDescribe(mediaId: string, quality: Option<string>, io: Services): Reply {
    match io.lookUp(mediaId)
    case Err(e) => Failed(e)
    case Ok(mediaUrl) =>
      match io.download(mediaUrl)
      case Err(e) => Failed(e)
      case Ok(bytes) =>
        match io.upload(bytes)
        case HostError => Failed(UploadFailedMessage)
        case StreamError(e) => Failed(e)
        case Uploaded(result) =>
          if result.None? || !Truthy(result.value.url) then Failed(InvalidUploadMessage)
          else
            var up := result.value;
            match io.vision(ScaleDownUrlTransform(up.url.value), Detail(quality))
            case Err(e) => Failed(e)
            case Ok(content) =>
              Described("whatsapp", "image_upload", mediaId, up.format, up.width, up.height, up.bytes, Analysis(content))
  }

  /**
   * A description comes only from a successful upload with a URL: the vision
   * model saw the scaled-down URL with the detail the quality asks for, the
   * analysis is its answer or the fallback, and the metadata is the upload's.
   * An upload without a URL fails with `Upload result is invalid`, and an
   * error from the host's callback with `Cloudinary upload failed`.
   */
  lemma ViewAndDescribeFacts(mediaId: string, quality: Option<string>, io: Services)
    ensures var r := ViewAndDescribe(mediaId, quality, io);
            r.Described? ==>
              && io.lookUp(mediaId).Ok? && io.download(io.lookUp(mediaId).value).Ok?
              && var up := io.upload(io.download(io.lookUp(mediaId).value).value);
              && up.Uploaded? && up.result.Some? && Truthy(up.result.value.url)
              && var sent := io.vision(ScaleDownUrlTransform(up.result.value.url.value), Detail(quality));
              && sent.Ok?
              && r == Described("whatsapp", "image_upload", mediaId, up.result.value.format, up.result.value.width,
                                up.result.value.height, up.result.value.bytes, Analysis(sent.value))
              && r.analysis != ""
    ensures var r := ViewAndDescribe(mediaId, quality, io);
            io.lookUp(mediaId).Ok? && io.download(io.lookUp(mediaId).value).Ok? ==>
              var up := io.upload(io.download(io.lookUp(mediaId).value).value);
              && (up.HostError? ==> r == Failed(UploadFailedMessage))
              && (up.Uploaded? && (up.result.None? || !Truthy(up.result.value.url)) ==> r == Failed(InvalidUploadMessage))
  {
  }
}
