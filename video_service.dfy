/**
 * The decision and bookkeeping logic of lib/video-service.ts around the
 * transcoder: the resolution table, the subtitle position mapping, the
 * storage keys derived from bucket-prefixed references, and the temporary
 * files that `extractClip`, `generateSubtitles` and `burnSubtitles` create
 * and remove.  Storage and the transcoder are replaced by the outcomes they
 * report; the temporary directory is the set of paths that exist in it.
 */
module VideoService {
  import opened Wrappers
  import opened Text
  import opened Subtitles

  const VideosBucket: string := "videos"
  const ClipsBucket: string := "clips"
  const SubtitlesBucket: string := "subtitles"

  // ---------------------------------------------------------------------------
  // RESOLUTIONS

  datatype Dimensions = Dimensions(width: nat, height: nat, name: string)

  /** The default `resolution` argument of `extractClip`. */
  const DefaultResolution: string := "720p"

  /** `RESOLUTIONS[key] || RESOLUTIONS['720p']`: the three known keys, and 720p for any other. */
  function Resolution(key: string): (d: Dimensions)
    ensures 16 * d.width == 9 * d.height && d.width < d.height
    ensures key in {"720p", "1080p", "4K"} ==> d.name == key
    ensures key !in {"720p", "1080p", "4K"} ==> d.name == DefaultResolution
  {
    if key == "1080p" then Dimensions(1080, 1920, "1080p")
    else if key == "4K" then Dimensions(2160, 3840, "4K")
    else Dimensions(720, 1280, "720p")
  }

  /** The `size` argument given to the encoder: `${width}x${height}`. */
  function SizeArg(d: Dimensions): string {
    NatToString(d.width) + "x" + NatToString(d.height)
  }

  /** The size argument names exactly the width and the height of the chosen resolution. */
  lemma SizeArgReadsBack(key: string)
    ensures var p := Split(SizeArg(Resolution(key)), 'x');
      && |p| == 2 && IsField(p[0]) && IsField(p[1])
      && ParseDigits(p[0]) == Resolution(key).width
      && ParseDigits(p[1]) == Resolution(key).height
  {
    var d := Resolution(key);
    DigitsHaveNoSeparator(NatToString(d.width), 'x');
    DigitsHaveNoSeparator(NatToString(d.height), 'x');
    SplitField(NatToString(d.width), 'x', NatToString(d.height));
    SplitNoSep(NatToString(d.height), 'x');
    ParseNatToString(d.width);
    ParseNatToString(d.height);
  }

  /** The table itself: 720x1280, 1080x1920 and 2160x3840, and the 720p fallback. */
  lemma ResolutionTable(key: string)
    ensures SizeArg(Resolution("720p")) == "720x1280"
    ensures SizeArg(Resolution("1080p")) == "1080x1920"
    ensures SizeArg(Resolution("4K")) == "2160x3840"
    ensures key !in {"720p", "1080p", "4K"} ==> SizeArg(Resolution(key)) == "720x1280"
  {
    Size720();
    Size1080();
    Size4K();
  }

  lemma Size720()
    ensures SizeArg(Dimensions(720, 1280, "720p")) == "720x1280"
  {
    Decimal(720, 72, 7, 2, 0);
    Decimal(1280, 128, 12, 8, 0);
  }

  lemma Size1080()
    ensures SizeArg(Dimensions(1080, 1920, "1080p")) == "1080x1920"
  {
    Decimal(1080, 108, 10, 8, 0);
    Decimal(1920, 192, 19, 2, 0);
  }

  lemma Size4K()
    ensures SizeArg(Dimensions(2160, 3840, "4K")) == "2160x3840"
  {
    Decimal(2160, 216, 21, 6, 0);
    Decimal(3840, 384, 38, 4, 0);
  }

  /** The decimal rendering of `n = 100 * h + 10 * t + u`, one step at a time. */
  lemma Decimal(n: nat, n10: nat, h: nat, t: nat, u: nat)
    requires t < 10 && u < 10 && n10 == 10 * h + t && n == 10 * n10 + u && n10 >= 10
    ensures NatToString(n) == NatToString(h) + [DigitChar(t), DigitChar(u)]
  {
    assert n / 10 == n10 && n % 10 == u;
    assert n10 / 10 == h && n10 % 10 == t;
    assert NatToString(n) == NatToString(n10) + [DigitChar(u)];
  }

  // ---------------------------------------------------------------------------
  // burnSubtitles: position and filter

  /** The `y` expression chosen for a subtitle position; anything but `top` and `middle` is the bottom. */
  function PositionValue(position: string): (y: string)
    ensures y == "50" <==> position == "top"
    ensures y == "(h-th)/2" <==> position == "middle"
    ensures y == "(h-th-50)" <==> position != "top" && position != "middle"
  {
    if position == "top" then "50"
    else if position == "middle" then "(h-th)/2"
    else "(h-th-50)"
  }

  /** The fixed style tail of the subtitle filter. */
  const StyleTail: string := "Alignment=2,MarginV=20'"

  /** The `-vf` argument that burns the subtitles in: it takes no position. */
  function BurnFilter(subtitlesPath: string, fontFamily: string, fontSize: int, textColor: string, backgroundColor: string): (f: string)
    ensures |f| >= |StyleTail| && f[|f| - |StyleTail|..] == StyleTail
  {
    var head := "subtitles=" + subtitlesPath + ":force_style='FontName=" + fontFamily + ",FontSize="
      + IntToString(fontSize) + ",PrimaryColour=" + textColor + ",BackColour=" + backgroundColor + ",";
    assert (head + StyleTail)[|head|..] == StyleTail;
    head + StyleTail
  }

  // ---------------------------------------------------------------------------
  // Storage keys

  /** `ref.replace(`${bucket}/`, '')`: the first occurrence of the bucket prefix is removed, wherever it is. */
  function StorageKey(ref: string, bucket: string): (key: string)
    ensures !Includes(ref, bucket + "/") ==> key == ref
    ensures Includes(ref, bucket + "/") ==> |key| == |ref| - |bucket| - 1
  {
    ReplaceFirst(ref, bucket + "/", "")
  }

  /** A reference that starts with the bucket prefix yields the rest of it. */
  lemma StorageKeyStripsPrefix(bucket: string, rest: string)
    ensures StorageKey(bucket + "/" + rest, bucket) == rest
  {
    var pat := bucket + "/";
    var s := pat + rest;
    assert s[0..|pat|] == pat;
    assert OccursAt(s, pat, 0);
    assert IndexOf(s, pat) == Some(0);
  }

  /** A reference without the prefix is used as the key unchanged. */
  lemma StorageKeyWithoutPrefix(ref: string, bucket: string)
    requires !Includes(ref, bucket + "/")
    ensures StorageKey(ref, bucket) == ref
  {
  }

  /**
   * Stripping is not anchored at the start: the first occurrence of the
   * bucket prefix is cut out wherever it is, with what comes before it kept.
   */
  lemma StorageKeyCutsFirstOccurrence(pre: string, bucket: string, rest: string)
    requires forall j :: 0 <= j < |pre| ==> !OccursAt(pre + bucket + "/" + rest, bucket + "/", j)
    ensures StorageKey(pre + bucket + "/" + rest, bucket) == pre + rest
  {
    var pat := bucket + "/";
    var s := pre + bucket + "/" + rest;
    assert s == pre + pat + rest;
    assert s[|pre|..|pre| + |pat|] == pat;
    assert OccursAt(s, pat, |pre|);
    assert IndexOf(s, pat) == Some(|pre|);
    assert s[..|pre|] == pre && s[|pre| + |pat|..] == rest;
  }

  /** For instance `archive/videos/a.mp4` gives the key `archive/a.mp4` in the videos bucket. */
  lemma StorageKeyNotAnchored()
    ensures StorageKey("archive/videos/a.mp4", VideosBucket) == "archive/a.mp4"
  {
    var pre, rest := "archive/", "a.mp4";
    var s := pre + VideosBucket + "/" + rest;
    var pat := VideosBucket + "/";
    assert s == "archive/videos/a.mp4" && pat == "videos/";
    forall j | 0 <= j < |pre| ensures !OccursAt(s, pat, j) {
      if j == 5 {
        Mismatch(s, pat, j, 1);
      } else {
        Mismatch(s, pat, j, 0);
      }
    }
    StorageKeyCutsFirstOccurrence(pre, VideosBucket, rest);
    assert pre + rest == "archive/a.mp4";
  }

  /** One differing character rules an occurrence out. */
  lemma Mismatch(s: string, pat: string, j: nat, k: nat)
    requires k < |pat| && (j + |pat| > |s| || s[j + k] != pat[k])
    ensures !OccursAt(s, pat, j)
  {
    if j + |pat| <= |s| {
      assert s[j..j + |pat|][k] == s[j + k];
    }
  }

  lemma StorageKeyRoundTrip(ref: string, bucket: string)
    requires |ref| >= |bucket| + 1 && ref[..|bucket| + 1] == bucket + "/"
    ensures bucket + "/" + StorageKey(ref, bucket) == ref
  {
    var rest := ref[|bucket| + 1..];
    assert ref == bucket + "/" + rest;
    StorageKeyStripsPrefix(bucket, rest);
  }

  // ---------------------------------------------------------------------------
  // Temporary files

  /** The temporary directory: the set of paths currently on disk under `root`. */
  class TempDir {
    const root: string
    var files: set<string>

    constructor(root: string)
      ensures this.root == root && files == {}
    {
      this.root := root;
      files := {};
    }

    /** `path.join(TMP_DIR, name)`. */
    function PathOf(name: string): string {
      root + "/" + name
    }

    /** `fs.writeFileSync`: the file exists afterwards. */
    method Write(path: string)
      modifies this
      ensures files == old(files) + {path}
    {
      files := files + {path};
    }

    /** `fs.unlinkSync`, which throws on a missing file, so the file must exist. */
    method Unlink(path: string)
      requires path in files
      modifies this
      ensures files == old(files) - {path}
    {
      files := files - {path};
    }

    /** `if (fs.existsSync(p)) fs.unlinkSync(p)`. */
    method UnlinkIfExists(path: string)
      modifies this
      ensures files == old(files) - {path}
    {
      if path in files {
        Unlink(path);
      }
    }
  }

  /** `${prefix}-${uuid}.${extension}`. */
  function TempName(prefix: string, id: string, extension: string): string {
    prefix + "-" + id + "." + extension
  }

  /** Files named with different prefixes never coincide, whatever the identifiers. */
  lemma DistinctTempPaths(tmp: TempDir, a: string, b: string, x: string, y: string, ea: string, eb: string)
    requires a != b && |a| > 0 && |b| > 0 && a[0] != b[0]
    ensures tmp.PathOf(TempName(a, x, ea)) != tmp.PathOf(TempName(b, y, eb))
  {
    var k := |tmp.root| + 1;
    assert tmp.PathOf(TempName(a, x, ea))[k] == a[0];
    assert tmp.PathOf(TempName(b, y, eb))[k] == b[0];
  }

  /** What the transcoder reports: it finished, or it failed, possibly after creating its output. */
  datatype TranscodeOutcome = Finished | Failed(wroteOutput: bool)

  /** Why a pipeline step rejected. */
  datatype Failure = DownloadFailed | TranscodeFailed | UploadFailed

  /** The encoder invocation `extractClip` builds. */
  datatype Transcode = Transcode(input: string, startMs: int, durationMs: int, size: string, options: seq<string>, output: string)

  const WatermarkOption: string := "-vf drawtext=text='Clippie':fontcolor=white:fontsize=24:alpha=0.7:x=10:y=10"

  /** The output options: H.264, preset fast, CRF 22, and the drawtext watermark when asked for. */
  function EncodeOptions(watermark: bool): (o: seq<string>)
    ensures |o| == if watermark then 4 else 3
    ensures o[..3] == ["-c:v libx264", "-preset fast", "-crf 22"]
    ensures WatermarkOption in o <==> watermark
  {
    ["-c:v libx264", "-preset fast", "-crf 22"] + (if watermark then [WatermarkOption] else [])
  }

  /**
   * `extractClip`: download the video, write it to a temporary input file,
   * transcode the window `[start, end)` into a temporary output file and
   * upload that under `clips/`.  Both temporary files are gone after a
   * successful upload, after a failed download and after a transcoder
   * error; a failed upload rejects from inside the transcoder's callback,
   * past the clean-up, and leaves both files behind.
   */
  method ExtractClip(
    tmp: TempDir, videoUrl: string, startMs: int, endMs: int, resolution: string, watermark: bool,
    outputFormat: string, inputId: string, outputId: string,
    downloaded: bool, transcode: TranscodeOutcome, uploaded: bool)
    returns (key: string, job: Option<Transcode>, result: Result<string, Failure>)
    modifies tmp
    ensures key == StorageKey(videoUrl, VideosBucket)
    ensures var input, output := tmp.PathOf(TempName("input", inputId, "mp4")), tmp.PathOf(TempName("output", outputId, outputFormat));
      && (!downloaded ==> result == Err(DownloadFailed) && job == None && tmp.files == old(tmp.files) - {input, output})
      && (downloaded ==> job == Some(Transcode(input, startMs, endMs - startMs, SizeArg(Resolution(resolution)), EncodeOptions(watermark), output)))
      && (downloaded && transcode.Failed? ==> result == Err(TranscodeFailed) && tmp.files == old(tmp.files) - {input, output})
      && (downloaded && transcode.Finished? && !uploaded ==> result == Err(UploadFailed) && tmp.files == old(tmp.files) + {input, output})
      && (downloaded && transcode.Finished? && uploaded ==>
            result == Ok("clips/" + TempName("output", outputId, outputFormat)) && tmp.files == old(tmp.files) - {input, output})
  {
    var inputName := TempName("input", inputId, "mp4");
    var outputName := TempName("output", outputId, outputFormat);
    var input := tmp.PathOf(inputName);
    var output := tmp.PathOf(outputName);
    key := StorageKey(videoUrl, VideosBucket);
    if !downloaded {
      // the outer catch
      tmp.UnlinkIfExists(input);
      tmp.UnlinkIfExists(output);
      return key, None, Err(DownloadFailed);
    }
    tmp.Write(input);
    var targetRes := Resolution(resolution);
    job := Some(Transcode(input, startMs, endMs - startMs, SizeArg(targetRes), EncodeOptions(watermark), output));
    match transcode {
      case Failed(wroteOutput) =>
        if wroteOutput {
          tmp.Write(output);
        }
        tmp.UnlinkIfExists(input);
        tmp.UnlinkIfExists(output);
        result := Err(TranscodeFailed);
      case Finished =>
        tmp.Write(output);
        if !uploaded {
          result := Err(UploadFailed);
        } else {
          var clipPath := "clips/" + outputName;
          DistinctTempPaths(tmp, "input", "output", inputId, outputId, "mp4", outputFormat);
          tmp.Unlink(input);
          tmp.Unlink(output);
          result := Ok(clipPath);
        }
    }
  }

  /**
   * `generateSubtitles`: build the SRT text, write it to a temporary file,
   * upload it under `subtitles/`; the temporary file is removed whether the
   * upload succeeds or fails.
   */
  method GenerateSubtitles(tmp: TempDir, transcription: string, durationMs: int, id: string, uploaded: bool)
    returns (content: string, result: Result<string, Failure>)
    modifies tmp
    ensures content == Srt(transcription, durationMs)
    ensures result == if uploaded then Ok("subtitles/" + TempName("subtitles", id, "srt")) else Err(UploadFailed)
    ensures tmp.files == old(tmp.files) - {tmp.PathOf(TempName("subtitles", id, "srt"))}
  {
    var words := Words(transcription);
    var lines := BuildLines(words);
    content := BuildSrt(lines, durationMs);
    var filename := TempName("subtitles", id, "srt");
    var path := tmp.PathOf(filename);
    tmp.Write(path);
    if uploaded {
      var uploadPath := "subtitles/" + filename;
      tmp.Unlink(path);
      result := Ok(uploadPath);
    } else {
      tmp.UnlinkIfExists(path);
      result := Err(UploadFailed);
    }
  }

  /**
   * `burnSubtitles`: download the clip and the subtitles, write both to
   * temporary files, burn the subtitles in and upload the result under
   * `clips/`.  The position is mapped to a `y` value that the filter never
   * uses.  Clean-up follows `extractClip`: all three files are removed
   * except when the upload fails, which leaves all three behind.
   */
  method BurnSubtitles(
    tmp: TempDir, clipUrl: string, subtitlesUrl: string, fontFamily: string, fontSize: int,
    textColor: string, backgroundColor: string, position: string, outputFormat: string,
    inputId: string, subtitlesId: string, outputId: string,
    clipDownloaded: bool, subtitlesDownloaded: bool, transcode: TranscodeOutcome, uploaded: bool)
    returns (clipKey: string, subtitlesKey: Option<string>, filter: Option<string>, result: Result<string, Failure>)
    modifies tmp
    ensures clipKey == StorageKey(clipUrl, ClipsBucket)
    ensures clipDownloaded <==> subtitlesKey == Some(StorageKey(subtitlesUrl, SubtitlesBucket))
    ensures var input, subs, output := tmp.PathOf(TempName("input", inputId, outputFormat)),
        tmp.PathOf(TempName("subtitles", subtitlesId, "srt")), tmp.PathOf(TempName("output", outputId, outputFormat));
      && (!(clipDownloaded && subtitlesDownloaded) ==>
            result == Err(DownloadFailed) && filter == None && tmp.files == old(tmp.files) - {input, subs, output})
      && (clipDownloaded && subtitlesDownloaded ==>
            filter == Some(BurnFilter(subs, fontFamily, fontSize, textColor, backgroundColor)))
      && (clipDownloaded && subtitlesDownloaded && transcode.Failed? ==>
            result == Err(TranscodeFailed) && tmp.files == old(tmp.files) - {input, subs, output})
      && (clipDownloaded && subtitlesDownloaded && transcode.Finished? && !uploaded ==>
            result == Err(UploadFailed) && tmp.files == old(tmp.files) + {input, subs, output})
      && (clipDownloaded && subtitlesDownloaded && transcode.Finished? && uploaded ==>
            result == Ok("clips/" + TempName("output", outputId, outputFormat))
            && tmp.files == old(tmp.files) - {input, subs, output})
  {
    var outputName := TempName("output", outputId, outputFormat);
    var input := tmp.PathOf(TempName("input", inputId, outputFormat));
    var subs := tmp.PathOf(TempName("subtitles", subtitlesId, "srt"));
    var output := tmp.PathOf(outputName);
    clipKey := StorageKey(clipUrl, ClipsBucket);
    subtitlesKey := None;
    filter := None;
    if clipDownloaded {
      subtitlesKey := Some(StorageKey(subtitlesUrl, SubtitlesBucket));
    }
    if !(clipDownloaded && subtitlesDownloaded) {
      // the outer catch
      tmp.UnlinkIfExists(input);
      tmp.UnlinkIfExists(subs);
      tmp.UnlinkIfExists(output);
      result := Err(DownloadFailed);
      return;
    }
    tmp.Write(input);
    tmp.Write(subs);
    var positionValue := PositionValue(position);
    filter := Some(BurnFilter(subs, fontFamily, fontSize, textColor, backgroundColor));
    match transcode {
      case Failed(wroteOutput) =>
        if wroteOutput {
          tmp.Write(output);
        }
        tmp.UnlinkIfExists(input);
        tmp.UnlinkIfExists(subs);
        tmp.UnlinkIfExists(output);
        result := Err(TranscodeFailed);
      case Finished =>
        tmp.Write(output);
        if !uploaded {
          result := Err(UploadFailed);
        } else {
          DistinctTempPaths(tmp, "input", "subtitles", inputId, subtitlesId, outputFormat, "srt");
          DistinctTempPaths(tmp, "input", "output", inputId, outputId, outputFormat, outputFormat);
          DistinctTempPaths(tmp, "subtitles", "output", subtitlesId, outputId, "srt", outputFormat);
          tmp.Unlink(input);
          tmp.Unlink(subs);
          tmp.Unlink(output);
          result := Ok("clips/" + outputName);
        }
    }
  }
}
