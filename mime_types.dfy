/**
 * The two pure derivations of the recorder element: the mime type of the
 * output recording (`_computeMimeType`) and the options a MediaRecorder is
 * built from (`_computeRecorder`).
 *
 * The derived mime type is an essence such as `video/webm`, optionally
 * followed by `;codecs=<value>`. `ParseMimeType` splits a mime type at its
 * first `;` into essence and codecs value, and `Format` joins them again;
 * `ParseMimeType` undoes `Format`, and the derived type is proved to split back
 * into its parts. Neither checks the RFC 2045 token and quoting syntax.
 */
module MimeTypes {
  import opened Wrappers

  /** What the element reads of a MediaStream: its identity and its number of video tracks. */
  datatype Stream = Stream(id: nat, videoTracks: nat)

  /** The codecs parameter the element appends, `;codecs=`. */
  const CODECS_PARAM: string := ";codecs="

  /** A mime type taken apart: the `type/subtype` essence and the optional codecs value. */
  datatype MimeParts = MimeParts(essence: string, codecs: Option<string>)

  predicate IsVideoType(t: string) {
    |t| >= 6 && t[..6] == "video/"
  }

  predicate IsWebm(t: string) {
    |t| >= 5 && t[|t| - 5..] == "/webm"
  }

  /** JavaScript truthiness of the `codecs` property: set and not the empty string. */
  predicate Truthy(codecs: Option<string>) {
    codecs.Some? && codecs.value != ""
  }

  /**
   * The candidate type chosen by precedence: `video/mpeg` when mpeg is
   * preferred, else `video/webm` when the stream has a video track, else
   * `audio/webm`.
   */
  function Essence(stream: Stream, mpeg: bool): (r: string)
    ensures IsVideoType(r) <==> mpeg || stream.videoTracks > 0
    ensures IsWebm(r) <==> !mpeg
    ensures |r| > 0 && ';' !in r
  {
    if mpeg then "video/mpeg"
    else if stream.videoTracks > 0 then "video/webm"
    else
      assert "audio/webm"[..6][0] != "video/"[0];
      "audio/webm"
  }

  /**
   * `_computeMimeType(stream, mpeg, codecs)`: absent without a stream;
   * otherwise the essence, with `;codecs=<codecs>` appended when `codecs` is
   * truthy. The `candidate || ''` fallback of the source never applies, since
   * the candidate is never empty.
   */
  function ComputeMimeType(stream: Option<Stream>, mpeg: bool, codecs: Option<string>): (r: Option<string>)
    ensures r.None? <==> stream.None?
    ensures r.Some? ==> |r.value| > 0
    ensures r.Some? ==> (';' in r.value <==> Truthy(codecs))
  {
    match stream
    case None => None
    case Some(s) =>
      var candidate := Essence(s, mpeg);
      if Truthy(codecs) then Some(candidate + CODECS_PARAM + codecs.value) else Some(candidate)
  }

  /** Writes a mime type from its parts. */
  function Format(p: MimeParts): string {
    match p.codecs
    case None => p.essence
    case Some(c) => p.essence + CODECS_PARAM + c
  }

  /** The position of the first `c` in `s`, if any. */
  function IndexOf(s: string, c: char): (r: Option<nat>)
    ensures r.Some? ==> r.value < |s| && s[r.value] == c && c !in s[..r.value]
    ensures r.None? ==> c !in s
  {
    if s == [] then None
    else if s[0] == c then Some(0)
    else
      match IndexOf(s[1..], c)
      case None => None
      case Some(i) =>
        assert s[..i + 1] == [s[0]] + s[1..][..i];
        Some(i + 1)
  }

  /**
   * Splits a mime type at its first `;`: the essence is what precedes it, and
   * what follows must be `;codecs=` and the codecs value, taken as it is.
   */
  function ParseMimeType(m: string): (r: Option<MimeParts>)
    ensures r.Some? ==> Format(r.value) == m && ';' !in r.value.essence
  {
    match IndexOf(m, ';')
    case None => Some(MimeParts(m, None))
    case Some(i) =>
      if CODECS_PARAM <= m[i..] then
        assert m == m[..i] + CODECS_PARAM + m[i + |CODECS_PARAM|..];
        Some(MimeParts(m[..i], Some(m[i + |CODECS_PARAM|..])))
      else None
  }

  /** When `c` does not occur in `a`, the first `c` of `a + b` is the first `c` of `b`, shifted. */
  lemma {:induction false} IndexOfAfter(a: string, b: string, c: char)
    requires c !in a
    ensures IndexOf(a + b, c) == match IndexOf(b, c) case None => None case Some(j) => Some(|a| + j)
  {
    if a == [] {
      assert a + b == b;
    } else {
      assert (a + b)[0] == a[0];
      assert (a + b)[1..] == a[1..] + b;
      IndexOfAfter(a[1..], b, c);
    }
  }

  /** Parsing undoes formatting for every essence without a `;`. */
  lemma ParseFormat(p: MimeParts)
    requires ';' !in p.essence
    ensures ParseMimeType(Format(p)) == Some(p)
  {
    match p.codecs
    case None =>
    case Some(v) =>
      var m := p.essence + CODECS_PARAM + v;
      assert m == p.essence + (CODECS_PARAM + v);
      IndexOfAfter(p.essence, CODECS_PARAM + v, ';');
      assert m[|p.essence|..] == CODECS_PARAM + v;
      assert m[..|p.essence|] == p.essence;
  }

  /**
   * The derived mime type reads back as the precedence-chosen essence and,
   * exactly when `codecs` is truthy, that codecs value.
   */
  lemma MimeTypeRoundTrip(stream: Stream, mpeg: bool, codecs: Option<string>)
    ensures ParseMimeType(ComputeMimeType(Some(stream), mpeg, codecs).value)
         == Some(MimeParts(Essence(stream, mpeg), if Truthy(codecs) then codecs else None))
  {
    var p := MimeParts(Essence(stream, mpeg), if Truthy(codecs) then codecs else None);
    assert ComputeMimeType(Some(stream), mpeg, codecs).value == Format(p);
    ParseFormat(p);
  }

  /** The options a MediaRecorder is constructed with. */
  datatype RecorderOptions = RecorderOptions(stream: Option<Stream>, mimeType: string)

  /**
   * `_computeRecorder(stream, mimeType)`: a recorder is built only when there
   * is a mime type, and it is bound to that stream and that type. The source
   * does not check the stream itself.
   */
  function ComputeRecorder(stream: Option<Stream>, mimeType: Option<string>): (r: Option<RecorderOptions>)
    ensures r.Some? <==> mimeType.Some?
    ensures r.Some? ==> r.value.stream == stream && r.value.mimeType == mimeType.value
  {
    match mimeType
    case None => None
    case Some(t) => Some(RecorderOptions(stream, t))
  }

  /** Chained as the element chains them, a recorder exists exactly when a stream does. */
  lemma RecorderPresentIffStream(stream: Option<Stream>, mpeg: bool, codecs: Option<string>)
    ensures ComputeRecorder(stream, ComputeMimeType(stream, mpeg, codecs)).Some? <==> stream.Some?
  {
  }
}
