/**
 * The main window's event handlers: the update check run at start-up, the
 * download button's batch, the runner that feeds a process's output lines
 * to the handlers, and the log.
 *
 * The observable state is the log (one entry per `AppendLog` call), the
 * progress bar's value in tenths, the list of processes started and the
 * message boxes shown. The functions below give each handler's effect on
 * that state as a value; the class MainWindow holds the same state in
 * fields and its methods are proved to have exactly those effects.
 *
 * A process is abstract: what it prints is given as one sequence of lines,
 * each tagged with the stream it came on, in the order the handlers
 * receive them. Any interleaving of the two streams is such a sequence.
 */
module Window {
  import opened Wrappers
  import Progress
  import UrlList
  import Paths
  import Arguments

  datatype Stream = Stdout | Stderr

  /** One `DataReceivedEventArgs.Data` value and the stream it arrived on. */
  datatype OutputLine = OutputLine(stream: Stream, text: string)

  /**
   * Which pair of handlers a process gets: the download runner's, whose
   * stdout handler reads progress, or the update check's, whose does not.
   */
  datatype Hooks = DownloadHooks | UpdateHooks

  /** A started process: the executable and its argument string. */
  datatype Invocation = Invocation(fileName: string, arguments: string)

  /** A `MessageBox.Show` call: its text and its caption. */
  datatype Warning = Warning(message: string, caption: string)

  /** How `Process.Start` ends for the update check: the process runs and prints, or it throws. */
  datatype Launch = Started(output: seq<OutputLine>) | StartFailed(message: string)

  /** The window's observable state. */
  datatype Ui = Ui(log: seq<string>, progress: nat, invocations: seq<Invocation>, warnings: seq<Warning>)

  /** The paths set in the constructor. */
  datatype Config = Config(ytDlpPath: string, ffmpegPath: string, downloadPath: string)

  const ErrorPrefix: string := "[ERROR] "
  const DownloadingPrefix: string := "> Downloading: "
  const BatchComplete: string := "✅ 모든 다운로드가 완료되었습니다."
  const UpdateChecking: string := "[yt-dlp Checking for updates...]"
  const UpdateComplete: string := "✅ yt-dlp update check complete."
  const UpdateFailedPrefix: string := "[ERROR] Failed to run yt-dlp update: "
  const UpdateArguments: string := "-U"

  const NoLinksWarning: Warning := Warning("다운로드할 링크를 입력하세요.", "")
  const NoYtDlpWarning: Warning := Warning("yt-dlp.exe가 실행 폴더에 없습니다.", "")
  const NoFfmpegWarning: Warning := Warning("ffmpeg.exe가 실행 폴더에 없습니다.", "")
  const UpdateNoYtDlpWarning: Warning := Warning("yt-dlp.exe 파일이 없습니다. 스크립트 폴더에 넣어주세요.", "파일 없음")

  /**
   * The paths the constructor derives from the application's base
   * directory: the two tools and the download folder sit side by side in
   * that directory.
   */
  function ConfigFor(toolPath: string): (c: Config)
    ensures c.ytDlpPath == Paths.DirectoryPrefix(toolPath) + "yt-dlp.exe"
    ensures c.ffmpegPath == Paths.DirectoryPrefix(toolPath) + "ffmpeg.exe"
    ensures c.downloadPath == Paths.DirectoryPrefix(toolPath) + "download"
  {
    Paths.CombineRelative(toolPath, "yt-dlp.exe");
    Paths.CombineRelative(toolPath, "ffmpeg.exe");
    Paths.CombineRelative(toolPath, "download");
    Config(
      Paths.Combine(toolPath, "yt-dlp.exe"),
      Paths.Combine(toolPath, "ffmpeg.exe"),
      Paths.Combine(toolPath, "download"))
  }

  /**
   * The directory handed to `--ffmpeg-location`: the base directory without
   * its trailing separator, or, for a drive's root directory, the root with
   * its separator.
   */
  lemma FfmpegLocation(toolPath: string)
    ensures Paths.RootLength(toolPath) < |toolPath| && toolPath[|toolPath| - 1] != Paths.VolumeSeparator ==>
      Paths.DirectoryName(ConfigFor(toolPath).ffmpegPath) ==
        Some(if Paths.IsSeparator(toolPath[|toolPath| - 1]) then toolPath[..|toolPath| - 1] else toolPath)
    ensures |toolPath| == 3 && !Paths.IsSeparator(toolPath[0]) && toolPath[1] == Paths.VolumeSeparator && Paths.IsSeparator(toolPath[2]) ==>
      Paths.DirectoryName(ConfigFor(toolPath).ffmpegPath) == Some(toolPath)
  {
    var name := "ffmpeg.exe";
    assert Paths.HasNoSeparator(name) && !Paths.IsRooted(name);
    if Paths.RootLength(toolPath) < |toolPath| && toolPath[|toolPath| - 1] != Paths.VolumeSeparator {
      Paths.DirectoryNameOfCombine(toolPath, name);
    }
    if |toolPath| == 3 && !Paths.IsSeparator(toolPath[0]) && toolPath[1] == Paths.VolumeSeparator && Paths.IsSeparator(toolPath[2]) {
      Paths.DirectoryNameAtDriveRoot(toolPath, name);
    }
  }

  // ---------------------------------------------------------------------
  // The handlers' effects, as functions of the state
  // ---------------------------------------------------------------------

  /** `AppendLog(message)`. */
  function Logged(ui: Ui, message: string): Ui
  {
    ui.(log := ui.log + [message])
  }

  /**
   * One line delivered to a handler: its entry is logged; the download
   * runner's progress bar moves to the line's reading when it has one, the
   * update check's never moves; nothing is started and no message box is
   * shown.
   */
  function HandleLine(ui: Ui, hooks: Hooks, line: OutputLine): (r: Ui)
    ensures r.log == ui.log + Entry(line)
    ensures r.invocations == ui.invocations && r.warnings == ui.warnings
    ensures hooks == DownloadHooks ==> r.progress == Reading(line).GetOr(ui.progress)
    ensures hooks == UpdateHooks ==> r.progress == ui.progress
  {
    if line.text == "" then ui
    else if line.stream == Stderr then Logged(ui, ErrorPrefix + line.text)
    else if hooks == UpdateHooks then Logged(ui, line.text)
    else
      match Progress.Extract(line.text)
      case Some(v) => Logged(ui, line.text).(progress := v)
      case None => Logged(ui, line.text)
  }

  /** The lines of `output` delivered one after the other. */
  function Feed(ui: Ui, hooks: Hooks, output: seq<OutputLine>): (r: Ui)
    ensures r.invocations == ui.invocations && r.warnings == ui.warnings
    ensures ui.progress <= Progress.Full ==> r.progress <= Progress.Full
    decreases |output|
  {
    if output == [] then ui
    else HandleLine(Feed(ui, hooks, output[..|output| - 1]), hooks, output[|output| - 1])
  }

  /** A process started with the given handlers, which then receive its output. */
  function Launched(ui: Ui, hooks: Hooks, fileName: string, arguments: string, output: seq<OutputLine>): Ui
  {
    Feed(ui.(invocations := ui.invocations + [Invocation(fileName, arguments)]), hooks, output)
  }

  /**
   * The output template: file names made from the title and the extension,
   * inside the `download` directory next to the application.
   */
  lemma OutputTemplate(toolPath: string)
    ensures Paths.Combine(ConfigFor(toolPath).downloadPath, Arguments.TitleTemplate) ==
      Paths.DirectoryPrefix(toolPath) + "download" + [Paths.DirectorySeparator] + Arguments.TitleTemplate
  {
    var download := ConfigFor(toolPath).downloadPath;
    assert download[|download| - 1] == 'd';
    assert !Paths.IsRooted(Arguments.TitleTemplate);
    Paths.CombineRelative(download, Arguments.TitleTemplate);
  }

  /**
   * The argument string of the job for `url` when the format box shows
   * `index`. A `null` directory name interpolates as the empty string.
   */
  function JobArguments(config: Config, index: int, url: string): (args: string)
    ensures args == "" <==> index != Arguments.VideoIndex && index != Arguments.AudioIndex
  {
    Arguments.BuildArgs(
      index, url,
      Paths.DirectoryName(config.ffmpegPath).GetOr(""),
      Paths.Combine(config.downloadPath, Arguments.TitleTemplate))
  }

  /** The last quoted argument of a job is its link, for either format. */
  lemma JobLinkReadsBack(config: Config, index: int, url: string)
    requires index == Arguments.VideoIndex || index == Arguments.AudioIndex
    requires '"' !in url
    ensures Arguments.LastQuotedArgument(JobArguments(config, index, url)) == Some(url)
  {
    Arguments.LinkReadsBack(
      index, url,
      Paths.DirectoryName(config.ffmpegPath).GetOr(""),
      Paths.Combine(config.downloadPath, Arguments.TitleTemplate));
  }

  /** What the `n`th job's process prints; a job beyond the given outputs prints nothing. */
  function JobOutput(outputs: seq<seq<OutputLine>>, n: nat): seq<OutputLine>
  {
    if n < |outputs| then outputs[n] else []
  }

  /**
   * The argument string of the `n`th job of a batch. The format box is read
   * anew on every pass of the loop, and the user may change it while an
   * earlier job runs, so `selection(n)` is the index it shows when the
   * `n`th job starts.
   */
  function ArgumentsFor(config: Config, selection: nat -> int): (nat, string) -> string
  {
    (n: nat, url: string) => JobArguments(config, selection(n), url)
  }

  /**
   * One pass of the download loop: the "Downloading" line, then yt-dlp on
   * the link, started once with the given arguments; no message box.
   */
  function RunJob(ui: Ui, ytDlpPath: string, arguments: string, url: string, output: seq<OutputLine>): (r: Ui)
    ensures r.invocations == ui.invocations + [Invocation(ytDlpPath, arguments)]
    ensures r.warnings == ui.warnings
    ensures ui.progress <= Progress.Full ==> r.progress <= Progress.Full
  {
    Launched(Logged(ui, DownloadingPrefix + url), DownloadHooks, ytDlpPath, arguments, output)
  }

  /** The first `n` passes of the download loop: `n` processes started, no message box. */
  function RunJobs(ui: Ui, ytDlpPath: string, argumentsFor: (nat, string) -> string, urls: seq<string>,
                   outputs: seq<seq<OutputLine>>, n: nat): (r: Ui)
    requires n <= |urls|
    ensures |r.invocations| == |ui.invocations| + n && r.invocations[..|ui.invocations|] == ui.invocations
    ensures r.warnings == ui.warnings
    ensures ui.progress <= Progress.Full ==> r.progress <= Progress.Full
    decreases n
  {
    if n == 0 then ui
    else
      var url := urls[n - 1];
      var before := RunJobs(ui, ytDlpPath, argumentsFor, urls, outputs, n - 1);
      assert (before.invocations + [Invocation(ytDlpPath, argumentsFor(n - 1, url))])[..|ui.invocations|]
        == before.invocations[..|ui.invocations|];
      RunJob(before, ytDlpPath, argumentsFor(n - 1, url), url, JobOutput(outputs, n - 1))
  }

  /**
   * `btnDownload_Click`: the three checks in order, each aborting with a
   * message box; then every link in order; then the completion line and
   * the progress bar back to 0. A rejected batch shows one message box and
   * does nothing else; an accepted one shows none.
   */
  function Batch(ui: Ui, config: Config, text: string, selection: nat -> int, ytDlpExists: bool, ffmpegExists: bool,
                 outputs: seq<seq<OutputLine>>): (r: Ui)
    ensures r.warnings == ui.warnings || (|r.warnings| == |ui.warnings| + 1 && r.warnings[..|ui.warnings|] == ui.warnings)
    ensures r.warnings != ui.warnings ==> r.log == ui.log && r.invocations == ui.invocations && r.progress == ui.progress
    ensures r.warnings == ui.warnings ==> r.progress == 0 && r.log != [] && r.log[|r.log| - 1] == BatchComplete
    ensures ui.progress <= Progress.Full ==> r.progress <= Progress.Full
  {
    if UrlList.Trim(text) == "" then ui.(warnings := ui.warnings + [NoLinksWarning])
    else if !ytDlpExists then ui.(warnings := ui.warnings + [NoYtDlpWarning])
    else if !ffmpegExists then ui.(warnings := ui.warnings + [NoFfmpegWarning])
    else
      var urls := UrlList.SplitUrls(text);
      Logged(RunJobs(ui, config.ytDlpPath, ArgumentsFor(config, selection), urls, outputs, |urls|), BatchComplete).(progress := 0)
  }

  /**
   * `CheckForYtDlpUpdates`: a message box when yt-dlp is missing; otherwise
   * the notice, then `yt-dlp -U` with its output forwarded and the
   * completion line, or the error line when the process cannot start. At
   * most one process is started, and the progress bar never moves.
   */
  function UpdateCheck(ui: Ui, config: Config, ytDlpExists: bool, launch: Launch): (r: Ui)
    ensures r.progress == ui.progress
    ensures r.invocations == ui.invocations || r.invocations == ui.invocations + [Invocation(config.ytDlpPath, UpdateArguments)]
    ensures r.warnings != ui.warnings <==> !ytDlpExists
  {
    if !ytDlpExists then ui.(warnings := ui.warnings + [UpdateNoYtDlpWarning])
    else
      var announced := Logged(ui, UpdateChecking);
      match launch
      case StartFailed(message) => Logged(announced, UpdateFailedPrefix + message)
      case Started(output) =>
        var started := announced.(invocations := announced.invocations + [Invocation(config.ytDlpPath, UpdateArguments)]);
        UpdateFeedKeepsProgress(started, output);
        Logged(Feed(started, UpdateHooks, output), UpdateComplete)
  }

  // ---------------------------------------------------------------------
  // Reference definitions and the lemmas that connect them to the handlers
  // ---------------------------------------------------------------------

  /** What one line adds to the log: nothing when empty, the line itself from stdout, the line tagged from stderr. */
  function Entry(line: OutputLine): seq<string>
  {
    if line.text == "" then []
    else if line.stream == Stderr then [ErrorPrefix + line.text]
    else [line.text]
  }

  /** The log entries a whole output produces, line by line. */
  function Entries(output: seq<OutputLine>): seq<string>
    decreases |output|
  {
    if output == [] then [] else Entry(output[0]) + Entries(output[1..])
  }

  /** The progress value a line carries: only stdout lines carry one. */
  function Reading(line: OutputLine): Option<nat>
  {
    if line.stream == Stdout then Progress.Extract(line.text) else None
  }

  /** The reading of the most recent line that carries one. */
  function LastReading(output: seq<OutputLine>): Option<nat>
    decreases |output|
  {
    if output == [] then None
    else
      match Reading(output[|output| - 1])
      case Some(v) => Some(v)
      case None => LastReading(output[..|output| - 1])
  }

  lemma {:induction false} EntriesAppend(output: seq<OutputLine>, line: OutputLine)
    ensures Entries(output + [line]) == Entries(output) + Entry(line)
    decreases |output|
  {
    if output == [] {
      assert [] + [line] == [line];
    } else {
      assert (output + [line])[1..] == output[1..] + [line];
      EntriesAppend(output[1..], line);
    }
  }

  /** Delivering a whole output appends exactly its entries to the log. */
  lemma {:induction false} FeedLog(ui: Ui, hooks: Hooks, output: seq<OutputLine>)
    ensures Feed(ui, hooks, output).log == ui.log + Entries(output)
    decreases |output|
  {
    if output != [] {
      var init, last := output[..|output| - 1], output[|output| - 1];
      assert output == init + [last];
      FeedLog(ui, hooks, init);
      EntriesAppend(init, last);
    }
  }

  /**
   * After the download runner's output the progress bar shows the reading
   * of the most recent stdout line that has one, or what it showed before
   * when no line has one.
   */
  lemma {:induction false} FeedProgress(ui: Ui, output: seq<OutputLine>)
    ensures Feed(ui, DownloadHooks, output).progress == LastReading(output).GetOr(ui.progress)
    decreases |output|
  {
    if output != [] {
      var init, last := output[..|output| - 1], output[|output| - 1];
      FeedProgress(ui, init);
    }
  }

  /** The update check's handlers never move the progress bar. */
  lemma {:induction false} UpdateFeedKeepsProgress(ui: Ui, output: seq<OutputLine>)
    ensures Feed(ui, UpdateHooks, output).progress == ui.progress
    decreases |output|
  {
    if output != [] {
      UpdateFeedKeepsProgress(ui, output[..|output| - 1]);
    }
  }

  /** Lines from stderr carry no reading, so an output seen only on stderr leaves the progress bar alone. */
  lemma {:induction false} StderrCarriesNoReading(output: seq<OutputLine>)
    requires forall k :: 0 <= k < |output| ==> output[k].stream == Stderr
    ensures LastReading(output) == None
    decreases |output|
  {
    if output != [] {
      StderrCarriesNoReading(output[..|output| - 1]);
    }
  }

  /** No log entry a process produces is empty. */
  lemma {:induction false} EntriesNonEmpty(output: seq<OutputLine>)
    ensures "" !in Entries(output)
    decreases |output|
  {
    if output != [] {
      EntriesNonEmpty(output[1..]);
    }
  }

  /** The log lines of one job: its "Downloading" line, then its process's entries. */
  function JobLog(url: string, output: seq<OutputLine>): seq<string>
  {
    [DownloadingPrefix + url] + Entries(output)
  }

  /** The log lines of the first `n` jobs: each job's "Downloading" line followed by its process's entries. */
  function JobsLog(urls: seq<string>, outputs: seq<seq<OutputLine>>, n: nat): seq<string>
    requires n <= |urls|
    decreases n
  {
    if n == 0 then []
    else JobsLog(urls, outputs, n - 1) + JobLog(urls[n - 1], JobOutput(outputs, n - 1))
  }

  /** The processes the first `n` jobs start: yt-dlp once per link, in order, with that link's arguments. */
  function JobsInvocations(ytDlpPath: string, argumentsFor: (nat, string) -> string, urls: seq<string>, n: nat): (r: seq<Invocation>)
    requires n <= |urls|
    ensures |r| == n
    ensures forall k :: 0 <= k < n ==> r[k] == Invocation(ytDlpPath, argumentsFor(k, urls[k]))
    decreases n
  {
    if n == 0 then []
    else JobsInvocations(ytDlpPath, argumentsFor, urls, n - 1) + [Invocation(ytDlpPath, argumentsFor(n - 1, urls[n - 1]))]
  }

  /** One job appends its "Downloading" line and its process's entries. */
  lemma RunJobEffect(ui: Ui, ytDlpPath: string, arguments: string, url: string, output: seq<OutputLine>)
    ensures RunJob(ui, ytDlpPath, arguments, url, output).log == ui.log + JobLog(url, output)
  {
    var announced := Logged(ui, DownloadingPrefix + url);
    FeedLog(announced.(invocations := announced.invocations + [Invocation(ytDlpPath, arguments)]), DownloadHooks, output);
  }

  /** Two appends in a row append their concatenation. */
  lemma AppendTwice<T>(start: seq<T>, middle: seq<T>, final: seq<T>, first: seq<T>, second: seq<T>)
    requires middle == start + first && final == middle + second
    ensures final == start + (first + second)
  {
  }

  /** The first `n` jobs append their log lines: each "Downloading" line followed by that job's entries. */
  lemma {:induction false} RunJobsLog(ui: Ui, ytDlpPath: string, argumentsFor: (nat, string) -> string, urls: seq<string>,
                                      outputs: seq<seq<OutputLine>>, n: nat)
    requires n <= |urls|
    ensures RunJobs(ui, ytDlpPath, argumentsFor, urls, outputs, n).log == ui.log + JobsLog(urls, outputs, n)
    decreases n
  {
    if n > 0 {
      RunJobsLog(ui, ytDlpPath, argumentsFor, urls, outputs, n - 1);
      var before := RunJobs(ui, ytDlpPath, argumentsFor, urls, outputs, n - 1);
      var url, output := urls[n - 1], JobOutput(outputs, n - 1);
      RunJobEffect(before, ytDlpPath, argumentsFor(n - 1, url), url, output);
      AppendTwice(ui.log, before.log, RunJobs(ui, ytDlpPath, argumentsFor, urls, outputs, n).log,
                  JobsLog(urls, outputs, n - 1), JobLog(url, output));
    }
  }

  /** The first `n` jobs start one yt-dlp process each, in link order, and show no message box. */
  lemma {:induction false} RunJobsInvocations(ui: Ui, ytDlpPath: string, argumentsFor: (nat, string) -> string, urls: seq<string>,
                                              outputs: seq<seq<OutputLine>>, n: nat)
    requires n <= |urls|
    ensures RunJobs(ui, ytDlpPath, argumentsFor, urls, outputs, n).invocations
      == ui.invocations + JobsInvocations(ytDlpPath, argumentsFor, urls, n)
    ensures RunJobs(ui, ytDlpPath, argumentsFor, urls, outputs, n).warnings == ui.warnings
    decreases n
  {
    if n > 0 {
      RunJobsInvocations(ui, ytDlpPath, argumentsFor, urls, outputs, n - 1);
      var before := RunJobs(ui, ytDlpPath, argumentsFor, urls, outputs, n - 1);
      var url, output := urls[n - 1], JobOutput(outputs, n - 1);
      RunJobEffect(before, ytDlpPath, argumentsFor(n - 1, url), url, output);
      AppendTwice(ui.invocations, before.invocations, RunJobs(ui, ytDlpPath, argumentsFor, urls, outputs, n).invocations,
                  JobsInvocations(ytDlpPath, argumentsFor, urls, n - 1), [Invocation(ytDlpPath, argumentsFor(n - 1, url))]);
    }
  }

  /** The log of the first `m` jobs is the start of the log of the first `n`. */
  lemma {:induction false} JobsLogPrefix(urls: seq<string>, outputs: seq<seq<OutputLine>>, m: nat, n: nat)
    requires m <= n <= |urls|
    ensures |JobsLog(urls, outputs, m)| <= |JobsLog(urls, outputs, n)|
    ensures JobsLog(urls, outputs, n)[..|JobsLog(urls, outputs, m)|] == JobsLog(urls, outputs, m)
    decreases n - m
  {
    if m < n {
      JobsLogPrefix(urls, outputs, m, n - 1);
      var a, b := JobsLog(urls, outputs, m), JobsLog(urls, outputs, n - 1);
      assert JobsLog(urls, outputs, n)[..|b|] == b;
      assert b[..|a|] == a;
    }
  }

  /**
   * Every job is announced: in the batch's log, job `k`'s "Downloading" line
   * comes right after the lines of the jobs before it, so the announcements
   * appear in input order, each before its own process's output.
   */
  lemma DownloadingLineBeforeEachJob(urls: seq<string>, outputs: seq<seq<OutputLine>>, k: nat)
    requires k < |urls|
    ensures |JobsLog(urls, outputs, k)| < |JobsLog(urls, outputs, k + 1)| <= |JobsLog(urls, outputs, |urls|)|
    ensures JobsLog(urls, outputs, |urls|)[|JobsLog(urls, outputs, k)|] == DownloadingPrefix + urls[k]
    ensures JobsLog(urls, outputs, |urls|)[|JobsLog(urls, outputs, k)| + 1..|JobsLog(urls, outputs, k + 1)|]
      == Entries(JobOutput(outputs, k))
  {
    JobsLogPrefix(urls, outputs, k + 1, |urls|);
    var full, upTo := JobsLog(urls, outputs, |urls|), JobsLog(urls, outputs, k + 1);
    var before := JobsLog(urls, outputs, k);
    assert upTo == before + [DownloadingPrefix + urls[k]] + Entries(JobOutput(outputs, k));
    assert full[|before|] == upTo[|before|];
    assert full[|before| + 1..|upTo|] == upTo[|before| + 1..];
  }

  /**
   * A batch stopped by a check: nothing is logged, nothing is started, the
   * progress bar is untouched, and exactly one message box is shown — the
   * empty-input one first, then the missing-yt-dlp one, then the
   * missing-ffmpeg one.
   */
  lemma BatchRejected(ui: Ui, config: Config, text: string, selection: nat -> int, ytDlpExists: bool, ffmpegExists: bool,
                      outputs: seq<seq<OutputLine>>)
    requires UrlList.Trim(text) == "" || !ytDlpExists || !ffmpegExists
    ensures var r := Batch(ui, config, text, selection, ytDlpExists, ffmpegExists, outputs);
      && r.log == ui.log && r.invocations == ui.invocations && r.progress == ui.progress
      && r.warnings == ui.warnings + [
           if UrlList.Trim(text) == "" then NoLinksWarning
           else if !ytDlpExists then NoYtDlpWarning
           else NoFfmpegWarning]
  {
  }

  /**
   * A batch that passes the checks: one yt-dlp process per link of the
   * split input, in order, with that link's arguments; each job's lines
   * after its "Downloading" line; then the completion line; the progress
   * bar at 0; no message box.
   */
  lemma BatchRuns(ui: Ui, config: Config, text: string, selection: nat -> int, outputs: seq<seq<OutputLine>>)
    requires UrlList.Trim(text) != ""
    ensures var urls := UrlList.SplitUrls(text);
      var r := Batch(ui, config, text, selection, true, true, outputs);
      && |urls| >= 1
      && r.invocations == ui.invocations + JobsInvocations(config.ytDlpPath, ArgumentsFor(config, selection), urls, |urls|)
      && r.log == ui.log + JobsLog(urls, outputs, |urls|) + [BatchComplete]
      && r.progress == 0
      && r.warnings == ui.warnings
  {
    var urls := UrlList.SplitUrls(text);
    UrlList.NonBlankInputHasUrls(text);
    RunJobsLog(ui, config.ytDlpPath, ArgumentsFor(config, selection), urls, outputs, |urls|);
    RunJobsInvocations(ui, config.ytDlpPath, ArgumentsFor(config, selection), urls, outputs, |urls|);
  }

  lemma TwoJobs(ytDlpPath: string, argumentsFor: (nat, string) -> string, first: string, second: string)
    ensures JobsInvocations(ytDlpPath, argumentsFor, [first, second], 2)
      == [Invocation(ytDlpPath, argumentsFor(0, first)), Invocation(ytDlpPath, argumentsFor(1, second))]
  {
    var jobs := JobsInvocations(ytDlpPath, argumentsFor, [first, second], 2);
    assert jobs == [jobs[0], jobs[1]];
  }

  /** A text holding two links, with both tools present: two yt-dlp runs, the first link first, then the completion line and progress 0. */
  lemma TwoLinkBatch(ui: Ui, config: Config, text: string, selection: nat -> int, outputs: seq<seq<OutputLine>>, first: string, second: string)
    requires UrlList.Trim(text) != "" && UrlList.SplitUrls(text) == [first, second]
    ensures var r := Batch(ui, config, text, selection, true, true, outputs);
      && r.invocations == ui.invocations + [
           Invocation(config.ytDlpPath, JobArguments(config, selection(0), first)),
           Invocation(config.ytDlpPath, JobArguments(config, selection(1), second))]
      && r.log[|r.log| - 1] == BatchComplete
      && r.progress == 0
  {
    BatchRuns(ui, config, text, selection, outputs);
    TwoJobs(config.ytDlpPath, ArgumentsFor(config, selection), first, second);
  }

  /** The links "a" and "b" on two lines. */
  lemma ExampleTwoLinks(ui: Ui, config: Config, selection: nat -> int, outputs: seq<seq<OutputLine>>)
    ensures var r := Batch(ui, config, "a\r\nb", selection, true, true, outputs);
      && r.invocations == ui.invocations + [
           Invocation(config.ytDlpPath, JobArguments(config, selection(0), "a")),
           Invocation(config.ytDlpPath, JobArguments(config, selection(1), "b"))]
      && r.log[|r.log| - 1] == BatchComplete
      && r.progress == 0
  {
    UrlList.TrimKeepsTwoLinks();
    UrlList.ExampleTwoLinks();
    TwoLinkBatch(ui, config, "a\r\nb", selection, outputs, "a", "b");
  }

  /**
   * The update check: a missing yt-dlp shows a message box and does nothing
   * else; otherwise the notice is logged, and either yt-dlp runs once with
   * exactly `-U`, its lines are logged and the completion line follows, or
   * the start fails and one error line follows with no completion line.
   * The progress bar never moves.
   */
  lemma UpdateCheckEffect(ui: Ui, config: Config, ytDlpExists: bool, launch: Launch)
    ensures var r := UpdateCheck(ui, config, ytDlpExists, launch);
      && r.progress == ui.progress
      && (!ytDlpExists ==>
            r.log == ui.log && r.invocations == ui.invocations && r.warnings == ui.warnings + [UpdateNoYtDlpWarning])
      && (ytDlpExists && launch.StartFailed? ==>
            && r.log == ui.log + [UpdateChecking, UpdateFailedPrefix + launch.message]
            && r.invocations == ui.invocations && r.warnings == ui.warnings)
      && (ytDlpExists && launch.Started? ==>
            && r.log == ui.log + [UpdateChecking] + Entries(launch.output) + [UpdateComplete]
            && r.invocations == ui.invocations + [Invocation(config.ytDlpPath, "-U")]
            && r.warnings == ui.warnings)
  {
    if ytDlpExists && launch.Started? {
      var announced := Logged(ui, UpdateChecking);
      var started := announced.(invocations := announced.invocations + [Invocation(config.ytDlpPath, UpdateArguments)]);
      FeedLog(started, UpdateHooks, launch.output);
      UpdateFeedKeepsProgress(started, launch.output);
    }
  }

  // ---------------------------------------------------------------------
  // The window itself
  // ---------------------------------------------------------------------

  class MainWindow {
    const config: Config
    var log: seq<string>
    var progress: nat
    var invocations: seq<Invocation>
    var warnings: seq<Warning>

    function State(): Ui
      reads this
    {
      Ui(log, progress, invocations, warnings)
    }

    /** The progress bar stays within its range. */
    ghost predicate Valid()
      reads this
    {
      progress <= Progress.Full
    }

    /** `MainWindow()`: the paths from the base directory, an empty log, then the update check. */
    constructor (toolPath: string, ytDlpExists: bool, launch: Launch)
      ensures config == ConfigFor(toolPath)
      ensures Valid()
      ensures State() == UpdateCheck(Ui([], 0, [], []), config, ytDlpExists, launch)
    {
      config := ConfigFor(toolPath);
      log, progress, invocations, warnings := [], 0, [], [];
      new;
      ghost var start := State();
      assert start == Ui([], 0, [], []);
      CheckForUpdates(ytDlpExists, launch);
      assert State() == UpdateCheck(start, config, ytDlpExists, launch);
    }

    method AppendLog(message: string)
      modifies this
      ensures State() == Logged(old(State()), message)
    {
      log := log + [message];
    }

    /** The download runner's `OutputDataReceived` handler. */
    method OnDownloadOutput(data: string)
      requires Valid()
      modifies this
      ensures Valid()
      ensures State() == HandleLine(old(State()), DownloadHooks, OutputLine(Stdout, data))
    {
      if data == "" {
        return;
      }
      AppendLog(data);
      var reading := Progress.Extract(data);
      if reading.Some? {
        progress := reading.value;
      }
    }

    /** The update check's `OutputDataReceived` handler. */
    method OnUpdateOutput(data: string)
      modifies this
      ensures State() == HandleLine(old(State()), UpdateHooks, OutputLine(Stdout, data))
    {
      if data != "" {
        AppendLog(data);
      }
    }

    /** The `ErrorDataReceived` handler, the same for both processes. */
    method OnErrorOutput(hooks: Hooks, data: string)
      modifies this
      ensures State() == HandleLine(old(State()), hooks, OutputLine(Stderr, data))
    {
      if data != "" {
        AppendLog(ErrorPrefix + data);
      }
    }

    /** The redirected streams: every line reaches the handler for its stream, in arrival order. */
    method Pump(hooks: Hooks, output: seq<OutputLine>)
      requires Valid()
      modifies this
      ensures Valid()
      ensures State() == Feed(old(State()), hooks, output)
    {
      for n := 0 to |output|
        invariant Valid()
        invariant State() == Feed(old(State()), hooks, output[..n])
      {
        var line := output[n];
        if line.stream == Stderr {
          OnErrorOutput(hooks, line.text);
        } else if hooks == DownloadHooks {
          OnDownloadOutput(line.text);
        } else {
          OnUpdateOutput(line.text);
        }
        assert output[..n + 1][..n] == output[..n];
      }
      assert output[..|output|] == output;
    }

    /** `RunProcessAsync`: start the process, then hand its output to the download handlers. */
    method RunProcess(fileName: string, arguments: string, output: seq<OutputLine>)
      requires Valid()
      modifies this
      ensures Valid()
      ensures State() == Launched(old(State()), DownloadHooks, fileName, arguments, output)
    {
      invocations := invocations + [Invocation(fileName, arguments)];
      Pump(DownloadHooks, output);
    }

    /**
     * `btnDownload_Click`; `outputs[n]` is what the `n`th job's process
     * prints and `selection(n)` the format box's index when it starts.
     */
    method OnDownloadClick(text: string, selection: nat -> int, ytDlpExists: bool, ffmpegExists: bool,
                           outputs: seq<seq<OutputLine>>)
      requires Valid()
      modifies this
      ensures Valid()
      ensures State() == Batch(old(State()), config, text, selection, ytDlpExists, ffmpegExists, outputs)
    {
      var urls := UrlList.Trim(text);
      if urls == "" {
        warnings := warnings + [NoLinksWarning];
        return;
      }
      if !ytDlpExists {
        warnings := warnings + [NoYtDlpWarning];
        return;
      }
      if !ffmpegExists {
        warnings := warnings + [NoFfmpegWarning];
        return;
      }
      var urlList := UrlList.RemoveEmpty(UrlList.Split(urls, UrlList.NewLine));
      assert urlList == UrlList.SplitUrls(text);
      for n := 0 to |urlList|
        invariant Valid()
        invariant State() == RunJobs(old(State()), config.ytDlpPath, ArgumentsFor(config, selection), urlList, outputs, n)
      {
        ghost var before := State();
        var url := urlList[n];
        AppendLog(DownloadingPrefix + url);
        var args := JobArguments(config, selection(n), url);
        RunProcess(config.ytDlpPath, args, JobOutput(outputs, n));
        assert State() == RunJob(before, config.ytDlpPath, args, url, JobOutput(outputs, n));
      }
      AppendLog(BatchComplete);
      progress := 0;
    }

    /** `CheckForYtDlpUpdates`. */
    method CheckForUpdates(ytDlpExists: bool, launch: Launch)
      requires Valid()
      modifies this
      ensures Valid()
      ensures State() == UpdateCheck(old(State()), config, ytDlpExists, launch)
    {
      if !ytDlpExists {
        warnings := warnings + [UpdateNoYtDlpWarning];
        return;
      }
      AppendLog(UpdateChecking);
      match launch
      case StartFailed(message) =>
        AppendLog(UpdateFailedPrefix + message);
      case Started(output) =>
        invocations := invocations + [Invocation(config.ytDlpPath, UpdateArguments)];
        Pump(UpdateHooks, output);
        AppendLog(UpdateComplete);
    }
  }
}
