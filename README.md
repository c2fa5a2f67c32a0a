# YouTube Downloader GUI — a verified model of the main window

The application is a small WPF front end for yt-dlp. Its one window
(`MainWindow`) keeps three paths next to the executable: `yt-dlp.exe`,
`ffmpeg.exe`, and a `download` directory. The window does four things:

- **Update check.** At start-up it checks yt-dlp for updates by running
  `yt-dlp -U`.
- **Download batch.** When the download button is pressed it checks the
  input and the two tools, in that order. It then runs yt-dlp once per
  link in the text box, with an argument string chosen by the format box
  (0 = video merged to mp4, 1 = mp3 audio).
- **Output handling.** Every line a process prints is forwarded to the log.
  Lines from stderr are tagged `[ERROR] `. On the download runner's stdout,
  the first percentage on a line, written with one to three digits, a
  point and one more digit (`7.5%`, `45.2%`, `100.0%`), moves the progress
  bar, capped at 100.
- **Completion.** After the last link the window logs a completion line and
  resets the progress bar to 0.

This project models that behaviour and proves it, in seven modules:

- `Wrappers` holds the `Option` type, and `Strings` the substring relation
  (`OccursAt`, `Contains`) that the link list and the argument builder
  share.
- `Progress` is the percentage extractor. It models the leftmost match of
  `(\d{1,3}\.\d)%`, with the greedy three-then-two-then-one digit
  backtracking of the regex engine, and the cap at 100. Values are
  fixed-point tenths, so 45.2% is 452 and the cap is 1000.
- `UrlList` is the link list: `string.Trim()` with the exact .NET
  white-space set, `Split` on `"\r\n"` and the `RemoveEmptyEntries` filter.
- `Paths` holds `Path.Combine` and `Path.GetDirectoryName` under the
  Windows rules of the .NET Framework: both `\` and `/` separate, `:` is
  the volume separator, and a path's root is `C:`, `C:\`, one leading
  separator or a UNC `\\server\share`. `GetDirectoryName` returns `null`
  (here `None`) for a root; in the argument string a `null` interpolates
  as the empty string.
- `Arguments` holds the two yt-dlp command-line templates.
- `Window` is the window as a state machine. Its state is the log (one
  entry per `AppendLog` call), the progress value, the processes started
  and the message boxes shown. Pure functions give the effect of each
  handler. The class `MainWindow` holds the same state in fields, and its
  methods (the constructor, the three line handlers, the output pump,
  `RunProcess`, the download button and the update check) are proved to
  have exactly those effects. The loops are proved with loop invariants.
  The format box is read anew on every pass of the download loop, so a
  batch takes one selected index per job.

A process is abstract. Its output is one sequence of lines, each tagged
with the stream it came on, in the order the handlers receive them. Any
interleaving of stdout and stderr is such a sequence. The existence checks
of `File.Exists` and the outcome of `Process.Start` in the update check are
parameters.

## Model

| member | source | states |
|---|---|---|
| Progress.DecimalValue | YouTubeDownloaderGUI/MainWindow.xaml.cs:173 | the value of a run of k decimal digits is below 10^k; `PaddedReadsBack` and `DecimalValueShift` give its value |
| Progress.DigitChar | YouTubeDownloaderGUI/MainWindow.xaml.cs:173 | the character printed for a digit is a digit and reads back as that digit |
| Progress.Padded | YouTubeDownloaderGUI/MainWindow.xaml.cs:173 | a number below 10^k printed zero-padded is k digit characters |
| Progress.DecimalValueShift | YouTubeDownloaderGUI/MainWindow.xaml.cs:173 | a digit run has the same value wherever it sits in a line |
| Progress.PaddedReadsBack | YouTubeDownloaderGUI/MainWindow.xaml.cs:173 | reading a number printed in k digits gives exactly that number back |
| Progress.DigitsPrintBack | YouTubeDownloaderGUI/MainWindow.xaml.cs:173 | printing the value of any run of k digits in k digits gives that run back, so every k-digit run is the print of exactly one number |
| Progress.Tenths | YouTubeDownloaderGUI/MainWindow.xaml.cs:173 | a matched `ddd.d` reads as at most 999.9; `PaddedPercentAt` states its exact value |
| Progress.PaddedPercentAt | YouTubeDownloaderGUI/MainWindow.xaml.cs:172-173 | a printed `w.t%` with one to three integer digits matches where it is printed and reads as w*10+t tenths |
| Progress.Clamp | YouTubeDownloaderGUI/MainWindow.xaml.cs:175 | `Math.Min(100, v)`: the result is at most 100 and at most v, and is one of the two |
| Progress.MatchAt | YouTubeDownloaderGUI/MainWindow.xaml.cs:172 | at one start position a digit count is found exactly when some count between 1 and 3 lets the pattern match there |
| Progress.FindFrom | YouTubeDownloaderGUI/MainWindow.xaml.cs:172 | the scan returns a match with no match at any earlier position, and returns none only when no later position matches |
| Progress.FindMatch | YouTubeDownloaderGUI/MainWindow.xaml.cs:172 | `Regex.Match` succeeds exactly when the line contains the pattern, and then returns the leftmost match |
| Progress.Extract | YouTubeDownloaderGUI/MainWindow.xaml.cs:172-175 | a line yields a progress value exactly when it contains the pattern, and the value never exceeds 100 |
| Progress.ExtractIsLeftmostClamped | YouTubeDownloaderGUI/MainWindow.xaml.cs:172-175 | the value is v if and only if v is the leftmost match's number capped at 100 |
| Progress.ExtractReadsFirstPercent | YouTubeDownloaderGUI/MainWindow.xaml.cs:172-175 | a line whose first digit starts a printed `w.t%` yields w*10+t tenths capped at 100, whatever follows |
| Progress.ExampleDownloadLine | YouTubeDownloaderGUI/MainWindow.xaml.cs:172-175 | `[download]  45.2%` followed by anything yields 45.2 |
| Progress.ExampleFourDigits | YouTubeDownloaderGUI/MainWindow.xaml.cs:172-175 | in `1234.5%` the match is `234.5` at position 1, giving 100 |
| Progress.ExampleLeftmostWins | YouTubeDownloaderGUI/MainWindow.xaml.cs:172-175 | of `45.2%` and `60.0%` on one line the first gives the value |
| UrlList.Trim | YouTubeDownloaderGUI/MainWindow.xaml.cs:93 | the result is the part of the text between leading and trailing white space, its ends are not white space, and it is empty exactly when the text is all white space |
| UrlList.IndexOf | YouTubeDownloaderGUI/MainWindow.xaml.cs:112 | the leftmost occurrence of the separator at or after a position, or none when there is none |
| UrlList.Split | YouTubeDownloaderGUI/MainWindow.xaml.cs:112 | at least one piece; joining the pieces with the separator gives the text back; no piece contains the separator |
| UrlList.SplitWithoutSeparator | YouTubeDownloaderGUI/MainWindow.xaml.cs:112 | a text that does not contain the separator is a single piece |
| UrlList.RemoveEmpty | YouTubeDownloaderGUI/MainWindow.xaml.cs:112 | no empty piece is kept and every non-empty piece is |
| UrlList.SplitUrls | YouTubeDownloaderGUI/MainWindow.xaml.cs:112 | every link is a non-empty piece of the trimmed text and holds no `\r\n` (a bare `\n` or `\r` can remain) |
| UrlList.RemoveEmptyAppend | YouTubeDownloaderGUI/MainWindow.xaml.cs:112 | the filter distributes over concatenation, so the links keep their input order |
| UrlList.RemoveEmptyCounts | YouTubeDownloaderGUI/MainWindow.xaml.cs:112 | each non-empty piece appears among the links exactly as often as in the split |
| UrlList.NonBlankInputHasUrls | YouTubeDownloaderGUI/MainWindow.xaml.cs:93-112 | input that is not blank after trimming yields at least one link, the first piece of the trimmed text |
| UrlList.ExampleBlankLinesDropped | YouTubeDownloaderGUI/MainWindow.xaml.cs:112 | blank lines and a trailing line break produce no link |
| UrlList.ExampleSpacesKept | YouTubeDownloaderGUI/MainWindow.xaml.cs:112 | a line holding only a space is kept as a link, because lines are not trimmed one by one |
| UrlList.ExampleTwoLinks | YouTubeDownloaderGUI/MainWindow.xaml.cs:112 | two lines give two links in order |
| UrlList.ExampleLoneLineFeedKept | YouTubeDownloaderGUI/MainWindow.xaml.cs:112 | two links separated by a bare line feed stay one link, line feed included |
| Paths.Combine | YouTubeDownloaderGUI/MainWindow.xaml.cs:23-25 | the result is the name, the directory and the name, or the two with `\` between; an empty name gives the directory and a rooted name replaces it; a relative name after a non-empty directory keeps the whole directory as the prefix; `\` is inserted exactly when both are non-empty, the name is relative and the directory ends in neither a separator nor `:` |
| Paths.DirectoryPrefix | YouTubeDownloaderGUI/MainWindow.xaml.cs:23-25 | the directory part of a combined path is the directory, with a separator added exactly when it is non-empty and ends in neither a separator nor `:` |
| Paths.CombineRelative | YouTubeDownloaderGUI/MainWindow.xaml.cs:23-25 | every relative, non-empty name is put after the same directory part |
| Paths.DirectoryName | YouTubeDownloaderGUI/MainWindow.xaml.cs:127 | `null` exactly when the path is no longer than its root; otherwise a prefix of the path, at least the root, ending before the last separator after the root, with no separator after the cut |
| Paths.DirectoryNameOfCombine | YouTubeDownloaderGUI/MainWindow.xaml.cs:127 | for a directory longer than its root and not ending in `:`, the directory of a file combined into it is that directory without any trailing separator |
| Paths.DirectoryNameAtDriveRoot | YouTubeDownloaderGUI/MainWindow.xaml.cs:127 | a file directly under `X:\` has `X:\` itself, separator included, as its directory |
| Paths.ExampleDriveRoot | YouTubeDownloaderGUI/MainWindow.xaml.cs:127 | `ffmpeg.exe` under `C:\` has directory `C:\` |
| Paths.ExampleToolDirectory | YouTubeDownloaderGUI/MainWindow.xaml.cs:127 | `ffmpeg.exe` under `C:\Tools\` has directory `C:\Tools` |
| Paths.ExampleDriveRelative | YouTubeDownloaderGUI/MainWindow.xaml.cs:127 | combining `C:` with `ffmpeg.exe` gives `C:ffmpeg.exe`, whose directory is `C:` |
| Arguments.Quoted | YouTubeDownloaderGUI/MainWindow.xaml.cs:125-129 | a quoted value is the value between two double quotes |
| Arguments.BuildArgs | YouTubeDownloaderGUI/MainWindow.xaml.cs:121-139 | the argument string is empty exactly when the index is neither 0 nor 1 |
| Arguments.VideoArguments | YouTubeDownloaderGUI/MainWindow.xaml.cs:122-130 | index 0 requests `bv*+ba/best` and mp4 merging, and ends with the ffmpeg location, output template and link |
| Arguments.VideoLacksExtractFlag | YouTubeDownloaderGUI/MainWindow.xaml.cs:122-130 | index 0 never asks for audio extraction unless a path or the link itself brings the flag in |
| Arguments.AudioArguments | YouTubeDownloaderGUI/MainWindow.xaml.cs:131-139 | index 1 requests the best audio and mp3 extraction at quality 0, and ends with the same tail |
| Arguments.AudioLacksMergeFlag | YouTubeDownloaderGUI/MainWindow.xaml.cs:131-139 | index 1 never asks for a merge format unless a path or the link brings the flag in |
| Arguments.LinkReadsBack | YouTubeDownloaderGUI/MainWindow.xaml.cs:121-139 | for either template the link is the last argument and reads back unchanged when it has no double quote |
| Window.ConfigFor | YouTubeDownloaderGUI/MainWindow.xaml.cs:22-25 | `yt-dlp.exe`, `ffmpeg.exe` and `download` sit side by side after the same directory part of the base directory |
| Window.FfmpegLocation | YouTubeDownloaderGUI/MainWindow.xaml.cs:127 | the `--ffmpeg-location` directory is the base directory without its trailing separator, or a drive root with its separator |
| Window.OutputTemplate | YouTubeDownloaderGUI/MainWindow.xaml.cs:119 | the output template is the `download` directory next to the application, a separator, and `%(title)s.%(ext)s` |
| Window.JobArguments | YouTubeDownloaderGUI/MainWindow.xaml.cs:119-139 | the job's argument string, built from ffmpeg's directory (`null` read as empty) and the output template, is empty exactly when the format box shows neither entry |
| Window.JobLinkReadsBack | YouTubeDownloaderGUI/MainWindow.xaml.cs:119-139 | for either format a job's last quoted argument is its link, when the link has no double quote |
| Window.HandleLine | YouTubeDownloaderGUI/MainWindow.xaml.cs:164-184 | a line adds its entry to the log (nothing when empty, `[ERROR] ` before stderr text); for downloads the progress bar takes the line's reading when it has one, for the update check it never moves; nothing is started and no message box is shown |
| Window.Feed | YouTubeDownloaderGUI/MainWindow.xaml.cs:164-184 | delivering output starts no process, shows no message box and keeps the progress value within 0..100 |
| Window.FeedLog | YouTubeDownloaderGUI/MainWindow.xaml.cs:164-184 | the log grows by exactly the output's entries, in order |
| Window.FeedProgress | YouTubeDownloaderGUI/MainWindow.xaml.cs:164-178 | after a download's output the progress bar shows the most recent stdout reading, or its old value when there is none |
| Window.UpdateFeedKeepsProgress | YouTubeDownloaderGUI/MainWindow.xaml.cs:59-72 | the update check's handlers never move the progress bar |
| Window.StderrCarriesNoReading | YouTubeDownloaderGUI/MainWindow.xaml.cs:180-184 | output seen only on stderr carries no progress reading |
| Window.EntriesNonEmpty | YouTubeDownloaderGUI/MainWindow.xaml.cs:166 | no log entry produced by a process is empty |
| Window.RunJob | YouTubeDownloaderGUI/MainWindow.xaml.cs:114-141 | one pass starts exactly one yt-dlp process with the given arguments, shows no message box and keeps the progress value within range |
| Window.RunJobs | YouTubeDownloaderGUI/MainWindow.xaml.cs:114-142 | n passes start n processes after the earlier ones, show no message box and keep the progress value within range |
| Window.JobsInvocations | YouTubeDownloaderGUI/MainWindow.xaml.cs:114-142 | the k-th process of a batch is yt-dlp with the arguments for the k-th link and the index selected when it starts |
| Window.RunJobEffect | YouTubeDownloaderGUI/MainWindow.xaml.cs:114-142 | one job logs its `> Downloading:` line and then its process's entries |
| Window.RunJobsLog | YouTubeDownloaderGUI/MainWindow.xaml.cs:114-142 | a batch's log is each job's announcement followed by its output, job after job |
| Window.RunJobsInvocations | YouTubeDownloaderGUI/MainWindow.xaml.cs:114-142 | a batch starts exactly one yt-dlp process per link, in link order, and shows no message box |
| Window.JobsLogPrefix | YouTubeDownloaderGUI/MainWindow.xaml.cs:114-116 | the log of the earlier jobs is never rewritten by later ones |
| Window.DownloadingLineBeforeEachJob | YouTubeDownloaderGUI/MainWindow.xaml.cs:114-116 | job k's announcement directly follows the earlier jobs' lines and directly precedes job k's own output |
| Window.Batch | YouTubeDownloaderGUI/MainWindow.xaml.cs:91-146 | at most one message box is added; a batch that shows one does nothing else; one that shows none ends with the completion line and the progress bar at 0 |
| Window.BatchRejected | YouTubeDownloaderGUI/MainWindow.xaml.cs:93-110 | a failed check logs nothing, starts nothing and shows exactly one message box: empty input, then missing yt-dlp, then missing ffmpeg |
| Window.BatchRuns | YouTubeDownloaderGUI/MainWindow.xaml.cs:112-145 | a batch that passes the checks runs every link, then logs the completion line and sets the progress bar to 0 |
| Window.TwoLinkBatch | YouTubeDownloaderGUI/MainWindow.xaml.cs:112-145 | a text with two links starts yt-dlp twice, first link first, each with the index selected at its start, and ends with the completion line |
| Window.ExampleTwoLinks | YouTubeDownloaderGUI/MainWindow.xaml.cs:112-145 | the batch for `a` and `b` on two lines |
| Window.UpdateCheck | YouTubeDownloaderGUI/MainWindow.xaml.cs:36-89 | the progress bar never moves, at most one process (`yt-dlp -U`) is started, and a message box is shown exactly when yt-dlp is missing |
| Window.UpdateCheckEffect | YouTubeDownloaderGUI/MainWindow.xaml.cs:36-88 | missing yt-dlp shows a message box only; otherwise `-U` runs once with its output logged between the notice and the completion line, or a failed start logs one error line and no completion; progress never moves |
| Window.MainWindow.constructor | YouTubeDownloaderGUI/MainWindow.xaml.cs:17-34 | the paths come from the base directory, and the state is an empty window after the update check |
| Window.MainWindow.AppendLog | YouTubeDownloaderGUI/MainWindow.xaml.cs:193-197 | one entry is appended to the log |
| Window.MainWindow.OnDownloadOutput | YouTubeDownloaderGUI/MainWindow.xaml.cs:164-178 | the download runner's stdout handler has the effect of `HandleLine` and keeps progress within range |
| Window.MainWindow.OnUpdateOutput | YouTubeDownloaderGUI/MainWindow.xaml.cs:59-65 | the update check's stdout handler has the effect of `HandleLine` |
| Window.MainWindow.OnErrorOutput | YouTubeDownloaderGUI/MainWindow.xaml.cs:66-72 | the stderr handler has the effect of `HandleLine` |
| Window.MainWindow.Pump | YouTubeDownloaderGUI/MainWindow.xaml.cs:186-190 | reading the redirected streams has the effect of `Feed` on the whole output |
| Window.MainWindow.RunProcess | YouTubeDownloaderGUI/MainWindow.xaml.cs:148-191 | `RunProcessAsync` records the process and then delivers its output |
| Window.MainWindow.OnDownloadClick | YouTubeDownloaderGUI/MainWindow.xaml.cs:91-146 | the download button has the effect of `Batch`, reading the format box once per link; `Batch`, `BatchRejected` and `BatchRuns` describe that effect |
| Window.MainWindow.CheckForUpdates | YouTubeDownloaderGUI/MainWindow.xaml.cs:36-89 | the update check has the effect of `UpdateCheck`, which `UpdateCheckEffect` describes |

## Left out

- Processes, pipes, `WaitForExit`, `Dispatcher.Invoke` and `async`/`await` are not modelled. A process's output is a given sequence of lines.
- Window.MainWindow.constructor: the update check runs to completion inside the constructor. In the application it is `async void` and may still be running when the user starts a batch. Runs that overlap are not modelled, and neither are two batches at once (the button is never disabled).
- `Directory.CreateDirectory` for the download directory has no observable effect on the state and is left out.
- `MessageBox.Show` is recorded as its text and caption. The buttons and icon are left out.
- Progress.Extract: digits are ASCII only. .NET's `\d` also matches other Unicode decimal digits.
- Progress.Extract: the model assumes `double.TryParse` reads `.` as the decimal point. Under a culture that uses `.` as a group separator the application would read another number.
- Progress: the bar's `double` value is kept as a natural number of tenths. The pattern has exactly one decimal digit, so no precision is lost.
- Paths.Combine: the .NET Framework's check for invalid path characters (an `ArgumentException`) and a `null` argument are not modelled. The rules of .NET Core and of other platforms are not modelled either.
- Paths.DirectoryName: the .NET Framework normalises the result (`/` becomes `\`, repeated separators collapse) and throws for an empty or invalid path; neither is modelled. Device paths (`\\?\`, `\\.\`) are not modelled.
- Paths.DirectoryNameOfCombine: a directory ending in `:` other than a bare drive is not covered; `ExampleDriveRelative` covers `C:`.
- Arguments.LinkReadsBack: a link holding a double quote is pasted into the command line unescaped. The read-back is stated only for links without one.
- Window.JobLinkReadsBack: stated only for links without a double quote, for the same reason.
- A launch failure inside a batch (an exception from `RunProcessAsync`) is not modelled. The source does not catch it. In the update check only a failure of `Process.Start` is modelled.
- Exit codes are ignored, as in the source.
- `ScrollToEnd` has no effect on the state.
- Window.MainWindow.OnDownloadClick: within one pass the two reads of the format box (the `if` and the `else if`) are one value. Nothing awaits between them, so the user cannot change the box in between.
- The log is a sequence of entries, not the text box's contents. An entry's own line breaks are not split.
- A `null` `e.Data` at the end of a stream is the same as an empty line: both are ignored.
