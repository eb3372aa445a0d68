/**
 * The pure checks that `cogs/audio.py` applies to candidate audio before it plays or stores it:
 * the file-size ceiling, the ".mp3"/".wav" extension test, the remote-URL pattern
 * `^https?://[\w!?/+\-_~=;.,*&@#$%()'\[\]]+$`, the HTTP status and body-length checks, and the
 * `split(".")[-1]` file-type derivation.
 */
module Validation {
  import opened Wrappers

  /** `FILESIZE_LIMIT = 25 * 10 ** 6`: the largest accepted file, in bytes. */
  const FilesizeLimit: nat := 25 * 1000000

  /** Why a candidate audio source was refused. */
  datatype SourceError =
    | UnsupportedExtension    // the file name does not end in ".mp3" or ".wav"
    | SizeLimitExceeded       // more than FilesizeLimit bytes
    | NoAttachmentOnMessage   // the referenced message carries no file
    | TagNotFound             // no tag of that name in this guild
    | NoSourceGiven           // nothing usable was supplied with the command
    | FetchFailed             // the remote server answered outside 200..299

  /** A file uploaded with a chat message: its name, its size in bytes and where it is served. */
  datatype Attachment = Attachment(filename: string, size: nat, url: string)

  predicate StartsWith(s: string, prefix: string) {
    |prefix| <= |s| && s[..|prefix|] == prefix
  }

  predicate EndsWith(s: string, suffix: string) {
    |suffix| <= |s| && s[|s| - |suffix|..] == suffix
  }

  /** `filename.endswith((".mp3", ".wav"))`, which is case-sensitive. */
  predicate HasAudioExtension(filename: string) {
    EndsWith(filename, ".mp3") || EndsWith(filename, ".wav")
  }

  /**
   * The attachment test shared by play and tag add: the extension is checked first, then the
   * size, and a size equal to the limit passes.
   */
  function CheckAttachment(a: Attachment): (r: Result<Attachment, SourceError>)
    ensures r.Ok? <==> HasAudioExtension(a.filename) && a.size <= FilesizeLimit
    ensures r.Ok? ==> r.value == a
    ensures r == Err(UnsupportedExtension) <==> !HasAudioExtension(a.filename)
    ensures r == Err(SizeLimitExceeded) <==> HasAudioExtension(a.filename) && a.size > FilesizeLimit
  {
    if !HasAudioExtension(a.filename) then Err(UnsupportedExtension)
    else if a.size > FilesizeLimit then Err(SizeLimitExceeded)
    else Ok(a)
  }

  /** The extension test does not fold case: "clip.MP3" is refused whatever its size. */
  lemma UpperCaseExtensionRefused(size: nat, url: string)
    ensures CheckAttachment(Attachment("clip.MP3", size, url)) == Err(UnsupportedExtension)
  {
    assert "clip.MP3"[4..] == ".MP3";
  }

  // ---------------------------------------------------------------------------------------
  // The remote-URL pattern

  /**
   * Python's `\w`, restricted to ASCII: letters, digits and the underscore.
   */
  predicate IsWordChar(c: char) {
    ('a' <= c <= 'z') || ('A' <= c <= 'Z') || ('0' <= c <= '9') || c == '_'
  }

  /** A character of the class `[\w!?/+\-_~=;.,*&@#$%()'\[\]]`. */
  predicate IsUrlChar(c: char) {
    IsWordChar(c) || c in "!?/+-_~=;.,*&@#$%()'[]"
  }

  predicate AllUrlChars(s: string) {
    forall i :: 0 <= i < |s| ==> IsUrlChar(s[i])
  }

  /**
   * How many characters `^https?://` consumes: 8 for "https://", 7 for "http://",
   * 0 when the URL starts with neither.
   */
  function SchemeLength(url: string): (k: nat)
    ensures k == 0 <==> !StartsWith(url, "http://") && !StartsWith(url, "https://")
    ensures k == 7 ==> StartsWith(url, "http://")
    ensures k == 8 ==> StartsWith(url, "https://")
    ensures k == 0 || k == 7 || k == 8
  {
    if StartsWith(url, "https://") then 8 else if StartsWith(url, "http://") then 7 else 0
  }

  /**
   * `[...]+$` on what follows the scheme: one or more allowed characters up to the end, where
   * Python's `$` also matches just before a single newline that ends the string.
   */
  predicate BodyMatches(body: string) {
    || (|body| >= 1 && AllUrlChars(body))
    || (|body| >= 2 && body[|body| - 1] == '\n' && AllUrlChars(body[..|body| - 1]))
  }

  /** `url_compiled.match(url)` is truthy. */
  predicate UrlMatches(url: string) {
    var k := SchemeLength(url);
    k > 0 && BodyMatches(url[k..])
  }

  /**
   * The pattern accepts exactly "http://" or "https://" followed by a body the character class
   * (and the `$` anchor) accepts: the optional "s" never makes the scheme ambiguous.
   */
  lemma UrlMatchesIff(url: string)
    ensures UrlMatches(url) <==>
      exists body :: (url == "http://" + body || url == "https://" + body) && BodyMatches(body)
  {
    if UrlMatches(url) {
      var k := SchemeLength(url);
      var body := url[k..];
      assert url == url[..k] + body;
      assert url == "http://" + body || url == "https://" + body;
    }
    if exists body :: (url == "http://" + body || url == "https://" + body) && BodyMatches(body) {
      var body :| (url == "http://" + body || url == "https://" + body) && BodyMatches(body);
      if url == "https://" + body {
        assert url[..8] == "https://";
        assert url[8..] == body;
      } else {
        assert url[..7] == "http://";
        assert url[4] == ':';
        assert url[7..] == body;
      }
    }
  }

  /**
   * ':' is outside the character class, so a URL with a ':' anywhere after its scheme (a port
   * after the host, say) is refused, whichever scheme and whatever port.
   */
  lemma UrlWithPortRefused(url: string, i: nat)
    requires 0 < SchemeLength(url) <= i < |url| && url[i] == ':'
    ensures !UrlMatches(url)
  {
    var k := SchemeLength(url);
    var body := url[k..];
    var j := i - k;
    assert body[j] == ':' && !IsUrlChar(body[j]);
    assert !AllUrlChars(body);
    if |body| >= 2 && body[|body| - 1] == '\n' {
      var init := body[..|body| - 1];
      assert j < |init| && init[j] == ':';
      assert !AllUrlChars(init);
    }
    assert !BodyMatches(body);
  }

  /** For instance, "http://example.com:8080/a.mp3" is refused. */
  lemma HttpUrlWithPortRefused()
    ensures !UrlMatches("http://example.com:8080/a.mp3")
  {
    var url := "http://example.com:8080/a.mp3";
    assert url[..7] == "http://";
    assert url[4] == ':';
    assert url[18] == ':';
    UrlWithPortRefused(url, 18);
  }

  // ---------------------------------------------------------------------------------------
  // The remote fetch

  /** `200 <= response.status <= 299`. */
  predicate StatusIsSuccess(status: int) {
    200 <= status <= 299
  }

  /**
   * The two checks on a fetched URL, in order: a status outside 200..299 is a failed fetch;
   * otherwise a body longer than the limit is refused.
   */
  function CheckResponse(status: int, bodyLength: nat): (r: Option<SourceError>)
    ensures r == None <==> StatusIsSuccess(status) && bodyLength <= FilesizeLimit
    ensures r == Some(FetchFailed) <==> !StatusIsSuccess(status)
    ensures r == Some(SizeLimitExceeded) <==> StatusIsSuccess(status) && bodyLength > FilesizeLimit
  {
    if !StatusIsSuccess(status) then Some(FetchFailed)
    else if bodyLength > FilesizeLimit then Some(SizeLimitExceeded)
    else None
  }

  // ---------------------------------------------------------------------------------------
  // File types derived from URLs

  /**
   * `s.split(".")[-1]`: the text after the last '.', or all of `s` when it has no '.'.
   */
  function LastDotSegment(s: string): (r: string)
    ensures '.' !in r
    ensures |r| <= |s| && r == s[|s| - |r|..]
    ensures |r| < |s| ==> s[|s| - |r| - 1] == '.'
    decreases |s|
  {
    if s == [] || s[|s| - 1] == '.' then ""
    else LastDotSegment(s[..|s| - 1]) + [s[|s| - 1]]
  }

  /**
   * The three properties of LastDotSegment's contract determine it: any dot-free suffix that
   * is all of `s` or follows a '.' is the last dot segment.
   */
  lemma {:induction false} LastDotSegmentUnique(s: string, r: string)
    requires '.' !in r && |r| <= |s| && r == s[|s| - |r|..]
    requires |r| < |s| ==> s[|s| - |r| - 1] == '.'
    ensures r == LastDotSegment(s)
    decreases |s|
  {
    var n := |s|;
    if n == 0 {
      assert r == [];
    } else if s[n - 1] == '.' {
      SuffixKeepsLast(s, r);
      assert r == [];
    } else {
      var init, rest := DropLastChar(s, r);
      LastDotSegmentUnique(init, rest);
    }
  }

  /** A non-empty suffix of `s` contains the last character of `s`. */
  lemma SuffixKeepsLast(s: string, r: string)
    requires |s| > 0 && |r| <= |s| && r == s[|s| - |r|..]
    ensures |r| > 0 ==> s[|s| - 1] in r
  {
    if |r| > 0 {
      assert r[|r| - 1] == s[|s| - 1];
    }
  }

  /** One step of LastDotSegmentUnique: strip the common last character of `s` and `r`. */
  lemma DropLastChar(s: string, r: string) returns (init: string, rest: string)
    requires '.' !in r && |r| <= |s| && r == s[|s| - |r|..]
    requires |r| < |s| ==> s[|s| - |r| - 1] == '.'
    requires |s| > 0 && s[|s| - 1] != '.'
    ensures init == s[..|s| - 1] && |r| > 0 && r == rest + [s[|s| - 1]]
    ensures '.' !in rest && |rest| <= |init| && rest == init[|init| - |rest|..]
    ensures |rest| < |init| ==> init[|init| - |rest| - 1] == '.'
  {
    var n := |s|;
    assert |r| > 0;
    var m := |r| - 1;
    rest, init := r[..m], s[..n - 1];
    assert r[m] == s[n - 1];
    assert r == rest + [s[n - 1]];
    assert forall i :: 0 <= i < m ==> rest[i] == r[i];
    assert rest == init[|init| - m..];
    assert m < |init| ==> init[|init| - m - 1] == s[n - |r| - 1];
  }

  /** The last dot segment is all of `s`, or `s` ends with a '.' and that segment. */
  lemma LastDotSegmentFollowsDot(s: string)
    ensures EndsWith(s, LastDotSegment(s))
    ensures EndsWith(s, "." + LastDotSegment(s)) || LastDotSegment(s) == s
  {
    var t := LastDotSegment(s);
    if |t| < |s| {
      assert s[|s| - |t| - 1..] == [s[|s| - |t| - 1]] + s[|s| - |t|..];
    }
  }

  /** A name ending in ".mp3" or ".wav" has "mp3" or "wav" as its last dot segment. */
  lemma AudioExtensionSegment(s: string) returns (ext: string)
    requires HasAudioExtension(s)
    ensures ext == LastDotSegment(s)
    ensures ext == (if EndsWith(s, ".mp3") then "mp3" else "wav")
  {
    ext := if EndsWith(s, ".mp3") then "mp3" else "wav";
    var n := |s|;
    assert s[n - 4..] == "." + ext;
    assert s[n - 3..] == ext by { assert s[n - 3..] == s[n - 4..][1..]; }
    assert s[n - 4] == s[n - 4..][0];
    LastDotSegmentUnique(s, ext);
  }

  /**
   * Joining a stem and a dot-free extension with "." gives a name that starts with the stem and
   * the dot, ends with the dot and the extension, and has that extension as its last dot segment.
   */
  lemma DotJoin(stem: string, ext: string)
    requires '.' !in ext
    ensures StartsWith(stem + "." + ext, stem + ".")
    ensures EndsWith(stem + "." + ext, "." + ext)
    ensures LastDotSegment(stem + "." + ext) == ext
  {
    var s := stem + "." + ext;
    assert s == (stem + ".") + ext;
    assert s[..|stem| + 1] == stem + ".";
    assert s == stem + ("." + ext);
    assert s[|s| - |ext| - 1..] == "." + ext;
    assert s[|s| - |ext|..] == ext;
    assert s[|s| - |ext| - 1] == '.';
    LastDotSegmentUnique(s, ext);
  }

  /**
   * `f"{uuid4()}.{url.split('.')[-1]}"`: the name under which fetched bytes are re-uploaded.
   * The identifier is a parameter; it keeps the URL's file type as its own last dot segment.
   */
  function ReuploadFilename(id: string, url: string): (name: string)
    ensures StartsWith(name, id + ".")
    ensures EndsWith(name, "." + LastDotSegment(url))
    ensures LastDotSegment(name) == LastDotSegment(url)
    ensures |name| == |id| + 1 + |LastDotSegment(url)|
  {
    var ext := LastDotSegment(url);
    DotJoin(id, ext);
    id + "." + ext
  }
}
