/**
 * The yt-dlp command line that `btnDownload_Click` builds for one link from
 * the format box's selected index: index 0 downloads the best video and
 * audio merged into mp4, index 1 extracts the audio as mp3, and any other
 * index leaves the argument string empty.
 */
module Arguments {
  import opened Wrappers
  import opened Strings

  /** The file-name template handed to `-o`, inside the download directory. */
  const TitleTemplate: string := "%(title)s.%(ext)s"

  /** The format box's entries. */
  const VideoIndex: int := 0
  const AudioIndex: int := 1

  const VideoFormat: string := "-f \"bv*+ba/best\""
  const MergeMp4: string := "--merge-output-format mp4"
  const MergeFlag: string := "--merge-output-format"
  const AudioFormat: string := "-f bestaudio"
  const ExtractMp3: string := "--extract-audio --audio-format mp3 --audio-quality 0"
  const ExtractFlag: string := "--extract-audio"

  /** The value wrapped in double quotes, with nothing escaped. */
  function Quoted(s: string): (q: string)
    ensures |q| == |s| + 2 && q[0] == '"' && q[|q| - 1] == '"'
    ensures q[1..|q| - 1] == s
  {
    "\"" + s + "\""
  }

  /** The part both templates share: the ffmpeg directory, the output template and the link, each quoted. */
  function Tail(url: string, ffmpegDir: string, outputTemplate: string): string
  {
    "--ffmpeg-location " + Quoted(ffmpegDir) + " " + "-o " + Quoted(outputTemplate) + " " + Quoted(url)
  }

  /**
   * The `args` string of one download: empty exactly when the index is
   * neither entry of the format box.
   */
  function BuildArgs(index: int, url: string, ffmpegDir: string, outputTemplate: string): (args: string)
    ensures args == "" <==> index != VideoIndex && index != AudioIndex
  {
    if index == VideoIndex then
      VideoFormat + " " + MergeMp4 + " " + Tail(url, ffmpegDir, outputTemplate)
    else if index == AudioIndex then
      AudioFormat + " " + ExtractMp3 + " " + Tail(url, ffmpegDir, outputTemplate)
    else
      ""
  }

  /** Quoting a value adds no occurrence of a pattern that has no double quote in it. */
  lemma QuotedNotContains(s: string, p: string)
    requires '"' !in p && |p| > 1 && !Contains(s, p)
    ensures !Contains(Quoted(s), p)
  {
    ShortNotContains("\"", p);
    NotContainsConcat("\"", s, p);
    NotContainsConcat("\"" + s, "\"", p);
  }

  /** Appending a piece that starts after a space or a quote adds no occurrence of such a pattern. */
  lemma NotContainsAppend(acc: string, piece: string, p: string)
    requires acc != [] && (acc[|acc| - 1] == ' ' || acc[|acc| - 1] == '"')
    requires ' ' !in p && '"' !in p
    requires !Contains(acc, p) && !Contains(piece, p)
    ensures !Contains(acc + piece, p)
  {
    NotContainsConcat(acc, piece, p);
  }

  /**
   * The video template holds the merged-format request and the mp4
   * container flag and ends with the shared tail.
   */
  lemma VideoArguments(url: string, ffmpegDir: string, outputTemplate: string)
    ensures var args := BuildArgs(VideoIndex, url, ffmpegDir, outputTemplate);
      && Contains(args, VideoFormat)
      && Contains(args, MergeMp4)
      && args[|args| - |Tail(url, ffmpegDir, outputTemplate)|..] == Tail(url, ffmpegDir, outputTemplate)
  {
    var args := BuildArgs(VideoIndex, url, ffmpegDir, outputTemplate);
    var head := VideoFormat + " " + MergeMp4 + " ";
    assert args == head + Tail(url, ffmpegDir, outputTemplate);
    assert args[..|head|] == head;
    assert head[..|VideoFormat|] == VideoFormat;
    assert head[|VideoFormat| + 1..|VideoFormat| + 1 + |MergeMp4|] == MergeMp4;
    OccursAtWitness(args, VideoFormat, 0);
    OccursAtWitness(args, MergeMp4, |VideoFormat| + 1);
  }

  /**
   * The video template holds no audio-extraction flag unless the ffmpeg
   * directory, the output template or the link brings one in.
   */
  lemma VideoLacksExtractFlag(url: string, ffmpegDir: string, outputTemplate: string)
    requires !Contains(url, ExtractFlag) && !Contains(ffmpegDir, ExtractFlag) && !Contains(outputTemplate, ExtractFlag)
    ensures !Contains(BuildArgs(VideoIndex, url, ffmpegDir, outputTemplate), ExtractFlag)
  {
    var head := VideoFormat + " " + MergeMp4 + " ";
    VideoHeadLacksExtractFlag();
    MissingCharNotContains("--ffmpeg-location ", ExtractFlag, 'x');
    var full := AppendTail(head, url, ffmpegDir, outputTemplate, ExtractFlag);
    assert full == BuildArgs(VideoIndex, url, ffmpegDir, outputTemplate);
  }

  lemma VideoHeadLacksExtractFlag()
    ensures !Contains(VideoFormat + " " + MergeMp4 + " ", ExtractFlag)
  {
    var front, back := VideoFormat + " ", MergeMp4 + " ";
    VideoFormatLacksExtractFlag();
    MissingCharNotContains(back, ExtractFlag, 'x');
    NotContainsAppend(front, back, ExtractFlag);
  }

  lemma VideoFormatLacksExtractFlag()
    ensures !Contains(VideoFormat + " ", ExtractFlag)
  {
    var p := ExtractFlag;
    ShortNotContains("-f ", p);
    ShortNotContains(Quoted("bv*+ba/best"), p);
    NotContainsAppend("-f ", Quoted("bv*+ba/best"), p);
    var acc := "-f " + Quoted("bv*+ba/best");
    ShortNotContains(" ", p);
    NotContainsAppend(acc, " ", p);
    assert acc + " " == VideoFormat + " ";
  }

  /**
   * The audio template requests the best audio stream and mp3 extraction at
   * the top quality and ends with the shared tail.
   */
  lemma AudioArguments(url: string, ffmpegDir: string, outputTemplate: string)
    ensures var args := BuildArgs(AudioIndex, url, ffmpegDir, outputTemplate);
      && Contains(args, AudioFormat)
      && Contains(args, ExtractMp3)
      && args[|args| - |Tail(url, ffmpegDir, outputTemplate)|..] == Tail(url, ffmpegDir, outputTemplate)
  {
    var args := BuildArgs(AudioIndex, url, ffmpegDir, outputTemplate);
    var head := AudioFormat + " " + ExtractMp3 + " ";
    assert args == head + Tail(url, ffmpegDir, outputTemplate);
    assert args[..|head|] == head;
    assert head[..|AudioFormat|] == AudioFormat;
    assert head[|AudioFormat| + 1..|AudioFormat| + 1 + |ExtractMp3|] == ExtractMp3;
    OccursAtWitness(args, AudioFormat, 0);
    OccursAtWitness(args, ExtractMp3, |AudioFormat| + 1);
  }

  /**
   * The audio template holds no merge flag unless the ffmpeg directory, the
   * output template or the link brings one in.
   */
  lemma AudioLacksMergeFlag(url: string, ffmpegDir: string, outputTemplate: string)
    requires !Contains(url, MergeFlag) && !Contains(ffmpegDir, MergeFlag) && !Contains(outputTemplate, MergeFlag)
    ensures !Contains(BuildArgs(AudioIndex, url, ffmpegDir, outputTemplate), MergeFlag)
  {
    var head := AudioFormat + " " + ExtractMp3 + " ";
    AudioHeadLacksMergeFlag();
    ShortNotContains("--ffmpeg-location ", MergeFlag);
    var full := AppendTail(head, url, ffmpegDir, outputTemplate, MergeFlag);
    assert full == BuildArgs(AudioIndex, url, ffmpegDir, outputTemplate);
  }

  lemma AudioHeadLacksMergeFlag()
    ensures !Contains(AudioFormat + " " + ExtractMp3 + " ", MergeFlag)
  {
    var p := MergeFlag;
    var format := AudioFormat + " ";
    assert |format| < |p|;
    ShortNotContains(format, p);
    var extract := ExtractMp3 + " ";
    ExtractPiecesLackMergeFlag();
    NotContainsAppend(format, extract, p);
    assert format + extract == AudioFormat + " " + ExtractMp3 + " ";
  }

  lemma ExtractPiecesLackMergeFlag()
    ensures !Contains(ExtractMp3 + " ", MergeFlag)
  {
    var front, back := "--extract-audio --audio-format ", "mp3 --audio-quality 0 ";
    ExtractFrontLacksMergeFlag();
    ExtractBackLacksMergeFlag();
    NotContainsAppend(front, back, MergeFlag);
    assert front + back == ExtractMp3 + " ";
  }

  lemma ExtractFrontLacksMergeFlag()
    ensures !Contains("--extract-audio --audio-format ", MergeFlag)
  {
    var p := MergeFlag;
    ShortNotContains("--extract-audio ", p);
    ShortNotContains("--audio-format ", p);
    NotContainsAppend("--extract-audio ", "--audio-format ", p);
    assert "--extract-audio " + "--audio-format " == "--extract-audio --audio-format ";
  }

  lemma ExtractBackLacksMergeFlag()
    ensures !Contains("mp3 --audio-quality 0 ", MergeFlag)
  {
    var p := MergeFlag;
    ShortNotContains("mp3 ", p);
    ShortNotContains("--audio-quality ", p);
    NotContainsAppend("mp3 ", "--audio-quality ", p);
    assert "mp3 " + "--audio-quality " == "mp3 --audio-quality ";
    ShortNotContains("0 ", p);
    NotContainsAppend("mp3 --audio-quality ", "0 ", p);
    assert "mp3 --audio-quality " + "0 " == "mp3 --audio-quality 0 ";
  }

  /** Extends `acc`, which ends in a space, by the shared tail without creating an occurrence of `p`. */
  lemma AppendTail(acc: string, url: string, ffmpegDir: string, outputTemplate: string, p: string)
    returns (full: string)
    requires acc != [] && acc[|acc| - 1] == ' '
    requires ' ' !in p && '"' !in p && |p| > 3
    requires !Contains(acc, p) && !Contains("--ffmpeg-location ", p)
    requires !Contains(url, p) && !Contains(ffmpegDir, p) && !Contains(outputTemplate, p)
    ensures full == acc + Tail(url, ffmpegDir, outputTemplate)
    ensures !Contains(full, p)
  {
    full := acc;
    NotContainsAppend(full, "--ffmpeg-location ", p);
    full := full + "--ffmpeg-location ";
    QuotedNotContains(ffmpegDir, p);
    NotContainsAppend(full, Quoted(ffmpegDir), p);
    full := full + Quoted(ffmpegDir);
    ShortNotContains(" ", p);
    NotContainsAppend(full, " ", p);
    full := full + " ";
    ShortNotContains("-o ", p);
    NotContainsAppend(full, "-o ", p);
    full := full + "-o ";
    QuotedNotContains(outputTemplate, p);
    NotContainsAppend(full, Quoted(outputTemplate), p);
    full := full + Quoted(outputTemplate);
    NotContainsAppend(full, " ", p);
    full := full + " ";
    QuotedNotContains(url, p);
    NotContainsAppend(full, Quoted(url), p);
    full := full + Quoted(url);
  }

  /** The position of the last double quote before `hi`. */
  function LastQuoteBefore(s: string, hi: nat): (r: Option<nat>)
    requires hi <= |s|
    ensures r.Some? ==> r.value < hi && s[r.value] == '"'
    ensures r.Some? ==> forall m :: r.value < m < hi ==> s[m] != '"'
    ensures r.None? ==> forall m :: 0 <= m < hi ==> s[m] != '"'
    decreases hi
  {
    if hi == 0 then None
    else if s[hi - 1] == '"' then Some(hi - 1)
    else LastQuoteBefore(s, hi - 1)
  }

  /** The last argument of a command line that ends in a quoted value, read back without its quotes. */
  function LastQuotedArgument(args: string): Option<string>
  {
    if |args| < 2 || args[|args| - 1] != '"' then None
    else
      match LastQuoteBefore(args, |args| - 1)
      case None => None
      case Some(i) => Some(args[i + 1..|args| - 1])
  }

  /** A quoted value without quotes inside is read back as the last argument of whatever precedes it. */
  lemma QuotedReadsBack(front: string, value: string)
    requires '"' !in value
    ensures LastQuotedArgument(front + Quoted(value)) == Some(value)
  {
    var args := front + Quoted(value);
    var n := |front|;
    assert args[n] == '"' && args[|args| - 1] == '"';
    forall m | n < m < |args| - 1
      ensures args[m] != '"'
    {
      assert args[m] == value[m - n - 1];
    }
    assert LastQuoteBefore(args, |args| - 1) == Some(n);
    assert args[n + 1..|args| - 1] == value;
  }

  /**
   * The link is the command line's last argument: it reads back unchanged
   * from either template, provided it holds no double quote (nothing is
   * escaped).
   */
  lemma LinkReadsBack(index: int, url: string, ffmpegDir: string, outputTemplate: string)
    requires index == VideoIndex || index == AudioIndex
    requires '"' !in url
    ensures LastQuotedArgument(BuildArgs(index, url, ffmpegDir, outputTemplate)) == Some(url)
  {
    var head := if index == VideoIndex then VideoFormat + " " + MergeMp4 + " " else AudioFormat + " " + ExtractMp3 + " ";
    var rest := "--ffmpeg-location " + Quoted(ffmpegDir) + " " + "-o " + Quoted(outputTemplate) + " ";
    assert Tail(url, ffmpegDir, outputTemplate) == rest + Quoted(url);
    assert BuildArgs(index, url, ffmpegDir, outputTemplate) == head + (rest + Quoted(url));
    assert head + (rest + Quoted(url)) == (head + rest) + Quoted(url);
    QuotedReadsBack(head + rest, url);
  }
}
