/** The development-only dump of a recording to a temporary file: the host parses the
    data URL the renderer sends, picks an extension from its MIME type, and writes the
    payload to `<temp>/whisper_temp_<ms>.<ext>`. The clock, the temporary directory and
    the file write are parameters; the renderer's bridge call is the last function. */
module AudioDump {
  import opened Wrappers
  import opened JsString

  const InvalidDataUrl := "Invalid data URL"
  const Marker := ";base64,"
  const DefaultExtension := "webm"
  const TempPrefix := "whisper_temp_"

  /** What `^data:(.*);base64,(.*)$` captures. */
  datatype DataUrl = DataUrl(mime: string, payload: string)

  /** `.` matches every character of `s`. */
  predicate NoLineBreak(s: string) {
    forall i :: 0 <= i < |s| ==> !IsLineTerminator(s[i])
  }

  /** One way for the pattern to match `s` with these two groups. */
  predicate Splits(s: string, mime: string, payload: string) {
    s == "data:" + mime + Marker + payload && NoLineBreak(mime) && NoLineBreak(payload)
  }

  /** The largest index in [lo, hi] where `sub` occurs, if any. */
  function LastOccurrence(s: string, sub: string, lo: nat, hi: int): (r: Option<nat>)
    decreases hi - lo
    ensures r.Some? ==> lo <= r.value <= hi && OccursAt(s, sub, r.value)
    ensures r.Some? ==> forall j :: r.value < j <= hi ==> !OccursAt(s, sub, j)
    ensures r.None? ==> forall j :: lo <= j <= hi ==> !OccursAt(s, sub, j)
  {
    if hi < lo then None
    else if OccursAt(s, sub, hi) then Some(hi)
    else LastOccurrence(s, sub, lo, hi - 1)
  }

  /** The regular expression, run by hand: the prefix "data:", no line terminator
      anywhere (neither `.` nor the literal parts match one, and `$` without the `m`
      flag is only the end of input), and a ";base64," after the prefix. The first group
      is greedy, so the last such marker is the one that separates the groups. */
  function ParseDataUrl(s: string): Result<DataUrl> {
    if !StartsWith(s, "data:") || !NoLineBreak(s) then Err(InvalidDataUrl)
    else match LastOccurrence(s, Marker, 5, |s| - |Marker|)
      case None => Err(InvalidDataUrl)
      case Some(k) => Ok(DataUrl(s[5..k], s[k + |Marker|..]))
  }

  /** Whatever the parse returns is a way for the pattern to match. */
  lemma ParseSound(s: string)
    ensures ParseDataUrl(s).Ok? ==> Splits(s, ParseDataUrl(s).value.mime, ParseDataUrl(s).value.payload)
  {
    if StartsWith(s, "data:") && NoLineBreak(s) {
      var last := LastOccurrence(s, Marker, 5, |s| - |Marker|);
      if last.Some? {
        var k := last.value;
        assert s == s[..5] + s[5..k] + s[k..k + |Marker|] + s[k + |Marker|..];
      }
    }
  }

  /** The pattern matches only when the parse succeeds, and then the parse's first group
      is the longest one possible. Together with `ParseSound`: the parse fails exactly
      when no way to match exists. */
  lemma ParseGreedy(s: string, mime: string, payload: string)
    requires Splits(s, mime, payload)
    ensures ParseDataUrl(s).Ok?
    ensures |mime| <= |ParseDataUrl(s).value.mime|
  {
    var k0 := 5 + |mime|;
    assert s[..5] == "data:";
    assert s[k0..k0 + |Marker|] == Marker;
    assert OccursAt(s, Marker, k0);
    forall i | 0 <= i < |s|
      ensures !IsLineTerminator(s[i])
    {
      if i >= 5 && i < k0 {
        assert s[i] == mime[i - 5];
      } else if i >= k0 + |Marker| {
        assert s[i] == payload[i - k0 - |Marker|];
      }
    }
  }

  /** Failing fast: a line terminator anywhere makes the input invalid. */
  lemma LineBreakRejected(s: string, i: nat)
    requires i < |s| && IsLineTerminator(s[i])
    ensures ParseDataUrl(s) == Err(InvalidDataUrl)
  {
  }

  /** After the marker that ends the MIME type, a payload without ";base64," holds no
      other marker: the marker's own tail has no ';'. */
  lemma NoLaterMarker(s: string, mime: string, payload: string, k: int)
    requires s == "data:" + mime + Marker + payload
    requires !Contains(payload, Marker)
    requires 5 + |mime| < k
    ensures !OccursAt(s, Marker, k)
  {
    var k0 := 5 + |mime|;
    if k < k0 + |Marker| {
      assert s[k] == Marker[k - k0] != ';';
      if k + |Marker| <= |s| {
        assert s[k..k + |Marker|][0] == s[k];
      }
    } else if OccursAt(s, Marker, k) {
      var j := k - k0 - |Marker|;
      assert payload[j..j + |Marker|] == s[k..k + |Marker|];
      assert OccursAt(payload, Marker, j);
    }
  }

  /** The parse recovers both parts of a data URL whose payload holds no ";base64,". */
  lemma ParseRoundTrip(mime: string, payload: string)
    requires NoLineBreak(mime) && NoLineBreak(payload)
    requires !Contains(payload, Marker)
    ensures ParseDataUrl("data:" + mime + Marker + payload) == Ok(DataUrl(mime, payload))
  {
    var s := "data:" + mime + Marker + payload;
    var k0 := 5 + |mime|;
    ParseGreedy(s, mime, payload);
    var k := LastOccurrence(s, Marker, 5, |s| - |Marker|).value;
    if k > k0 {
      NoLaterMarker(s, mime, payload, k);
    }
    assert s[5..k0] == mime;
    assert s[k0 + |Marker|..] == payload;
  }

  /** `mimeType.split('/')[1] || 'webm'`. */
  function Extension(mime: string): (ext: string)
    ensures ext != ""
  {
    match SplitPiece(mime, '/', 1)
    case Some(piece) => if piece != "" then piece else DefaultExtension
    case None => DefaultExtension
  }

  /** The extension is the subtype, up to the next '/' if there is one. */
  lemma ExtensionOfSubtype(kind: string, subtype: string, rest: string)
    requires '/' !in kind && '/' !in subtype && subtype != ""
    requires rest == "" || rest[0] == '/'
    ensures Extension(kind + "/" + subtype + rest) == subtype
  {
    assert kind + "/" + subtype + rest == kind + ['/'] + (subtype + rest);
    SplitCons(kind, '/', subtype + rest);
    if rest == "" {
      assert subtype + rest == subtype;
      SplitNone(subtype, '/');
    } else {
      assert subtype + rest == subtype + ['/'] + rest[1..];
      SplitCons(subtype, '/', rest[1..]);
    }
  }

  /** Without a subtype the extension is "webm". */
  lemma ExtensionDefault(kind: string)
    requires '/' !in kind
    ensures Extension(kind) == DefaultExtension
    ensures Extension(kind + "/") == DefaultExtension
  {
    SplitNone(kind, '/');
    assert kind + "/" == kind + ['/'] + "";
    SplitCons(kind, '/', "");
    SplitNone("", '/');
  }

  /** `whisper_temp_${Date.now()}.${ext}`. */
  function FileName(now: nat, ext: string): string {
    TempPrefix + NatToString(now) + "." + ext
  }

  /** The file name carries the time stamp in decimal between the prefix and the
      extension, so two different times give two different names. */
  lemma FileNameParts(now: nat, ext: string)
    ensures var name := FileName(now, ext);
      && StartsWith(name, TempPrefix)
      && name[|name| - |ext| - 1..] == "." + ext
      && name[|TempPrefix|..|name| - |ext| - 1] == NatToString(now)
  {
    var name := FileName(now, ext);
    assert name[..|TempPrefix|] == TempPrefix;
    assert name[|name| - |ext| - 1..] == "." + ext;
    assert name[|TempPrefix|..|name| - |ext| - 1] == NatToString(now);
  }

  lemma FileNameInjective(a: nat, b: nat, ext: string)
    requires FileName(a, ext) == FileName(b, ext)
    ensures a == b
  {
    FileNameParts(a, ext);
    FileNameParts(b, ext);
    assert NatToString(a) == NatToString(b);
  }

  /** `path.join(tempDir, fileName)` for a directory already in normal form. */
  function TempPath(tempDir: string, name: string): string {
    tempDir + "/" + name
  }

  /** A write of the payload (still base64 text; its decoding is left out) to a path. */
  datatype FileWrite = FileWrite(path: string, base64: string)

  /** What the handler did: the write it asked for, if any, and how it ended
      (`Ok(None)` for `null`, `Err` for a rejection). */
  datatype Dump = Dump(written: Option<FileWrite>, result: Result<Option<string>>)

  /** `saveWhisperAudio` in the audio module and the 'save-whisper-audio' handler,
      given the environment, the time, the temporary directory and how the write ends. */
  function SaveAudio(isDev: bool, dataUrl: string, tempDir: string, now: nat, writeError: Option<string>): Dump {
    if !isDev then Dump(None, Ok(None))
    else match ParseDataUrl(dataUrl)
      case Err(message) => Dump(None, Err(message))
      case Ok(url) =>
        var path := TempPath(tempDir, FileName(now, Extension(url.mime)));
        Dump(Some(FileWrite(path, url.payload)),
             if writeError.Some? then Err(writeError.value) else Ok(Some(path)))
  }

  /** Outside development nothing is written and the answer is `null`; an unmatched
      input is rejected before any write; otherwise the payload goes to the temporary
      file, and the path answered is the path written. */
  lemma SaveAudioProperties(isDev: bool, dataUrl: string, tempDir: string, now: nat, writeError: Option<string>)
    ensures var d := SaveAudio(isDev, dataUrl, tempDir, now, writeError);
      && (!isDev ==> d == Dump(None, Ok(None)))
      && (isDev && ParseDataUrl(dataUrl).Err? ==> d == Dump(None, Err(InvalidDataUrl)))
      && (d.written.Some? ==>
            && isDev && ParseDataUrl(dataUrl).Ok?
            && d.written.value.base64 == ParseDataUrl(dataUrl).value.payload
            && d.written.value.path
               == tempDir + "/" + TempPrefix + NatToString(now) + "." + Extension(ParseDataUrl(dataUrl).value.mime))
      && (d.result.Ok? && d.result.value.Some? ==> d.written.Some? && d.result.value.value == d.written.value.path)
      && (d.written.Some? && writeError.Some? ==> d.result == Err(writeError.value))
  {
  }

  /** How the renderer's bridge call ends: with a value, or never, because the reader's
      `onload` is all the promise waits for. */
  datatype Settled<T> = Resolved(value: T) | Pending

  /** `saveWhisperAudio` in the renderer's Whisper service: `null` without the bridge or
      on any rejection; otherwise the host's answer. `read` is the data URL, or `None`
      when the reader never loads. */
  function SaveFromRenderer(bridge: bool, read: Option<string>, host: Result<Option<string>>): (r: Settled<Option<string>>)
    ensures !bridge ==> r == Resolved(None)
    ensures bridge && read.None? ==> r == Pending
    ensures bridge && read.Some? && host.Err? ==> r == Resolved(None)
    ensures bridge && read.Some? && host.Ok? ==> r == Resolved(host.value)
  {
    if !bridge then Resolved(None)
    else if read.None? then Pending
    else match host
      case Err(_) => Resolved(None)
      case Ok(path) => Resolved(path)
  }

  /** End to end: the renderer sees a path only in development, only for a matching
      data URL, and only the one the host wrote to; every failure reaches it as `null`. */
  lemma RendererSeesWrittenPath(bridge: bool, dataUrl: string, isDev: bool, tempDir: string, now: nat,
                                writeError: Option<string>)
    requires bridge
    ensures var d := SaveAudio(isDev, dataUrl, tempDir, now, writeError);
      var r := SaveFromRenderer(bridge, Some(dataUrl), d.result);
      && r.Resolved?
      && (r.value.Some? <==> isDev && ParseDataUrl(dataUrl).Ok? && writeError.None?)
      && (r.value.Some? ==> d.written.Some? && r.value.value == d.written.value.path)
  {
  }
}
