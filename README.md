# SoundCloud downloader: a verified model of its decision logic

This project models a SoundCloud downloader in Dafny. The downloader
is a Python command-line tool with a Tk front end. It
downloads SoundCloud tracks and playlists as MP3 through yt-dlp and
FFmpeg. The model covers the parts of it that decide things:

- **`optional.dfy`**: the `Option` type.
- **`posix_path.dfy`** (module `PosixPath`): `os.path.join`,
  `os.path.dirname` and `os.path.basename` under POSIX rules. It proves
  that `dirname` and `basename` take a `join` apart again.
- **`url_validator.dfy`** (module `UrlValidator`): `is_valid_soundcloud_url`.
  - The recogniser is written by hand over `seq<char>`, for the pattern
    `^https?://(?:www\.)?soundcloud\.com/[\w-]+(?:/(?:sets/)?[\w-]+)*(?:\?.*)?$`
    under `re.match`.
  - `.` does not match a newline, and `$` also matches before one final
    newline.
  - Beside the recogniser is a reference description of the language: the
    renderings of a `UrlShape` record (scheme, `www.`, segments, query,
    final newline). The two are proved equal in both directions.
  - It also proves that the optional `sets/` marker adds nothing, and
    exhibits accepted and rejected example URLs.
- **`downloader.dfy`** (module `Downloader`): the rest of the
  command-line downloader.
  - The machine is an `Env` record: bundle flag, platform, executable and
    script paths, existing paths, and commands on the PATH.
  - Modelled on it: where the bundled FFmpeg binary is looked for;
    `check_dependencies` with its ordered missing list;
    `setup_youtube_dl_options`; and the fail-fast order of
    `download_soundcloud`.
  - The extraction library is a function parameter. It returns one of the
    four outcomes the source distinguishes: `None`, an info record, a
    `DownloadError`, or any other exception.
- **`gui.dfy`** (module `Gui`): the front end.
  - The settings map with its default-key backfill loop, and Python's
    `str.strip`.
  - The window as a class with mutable fields. The window is Idle while
    the Download button is enabled and Downloading while it is disabled.
  - `start_download` rejects with an error box, or starts exactly one
    worker. `download_complete` and `download_error` return to Idle.
  - Reading the configuration file is an oracle. So are the home
    directory, `os.path.exists`, `os.makedirs`, the directory dialog and
    `os.path.abspath`. Message boxes are recorded in `dialogs`, and
    settings writes in `saved`.

Some example URLs are stated as right-nested concatenations of their
pieces, such as `"https://" + ("soundcloud.com/" + "artist")`. They
denote the same strings as the literals in their doc comments.

## Model

| member | source | states |
|---|---|---|
| UrlValidator.IsValidSoundCloudUrl | soundcloud_downloader.py:68-73 | the recogniser itself: strip the scheme, then an optional `www.`, require `soundcloud.com/`, then an acceptable path; `RecogniserMatchesLanguage` proves it accepts exactly the pattern's language |
| UrlValidator.AfterScheme | soundcloud_downloader.py:70 | removes `https://` or `http://` from the front, or refuses; `SchemeRemoved` proves it gives back exactly what follows either scheme |
| UrlValidator.PathOk | soundcloud_downloader.py:70 | the path after the host: `[\w-]+` segments separated by `/`, then an acceptable tail; `ParsePath` and `AcceptsRendering` prove it accepts exactly the renderings of a first segment, later parts and a tail |
| UrlValidator.TailOk | soundcloud_downloader.py:70 | what may follow the path: nothing, or `?` and a newline-free query, then at most one newline; `ParseTail` and `AcceptsRendering` prove it accepts exactly the renderings of such a tail |
| UrlValidator.SegmentLengthIsMaximal | soundcloud_downloader.py:70 | the greedy `[\w-]+` scan covers only segment characters and stops at the first character that is not one |
| UrlValidator.AcceptsRendering | soundcloud_downloader.py:70-71 | every string of the pattern's language (scheme, optional `www.`, host, segments with optional `sets/`, optional newline-free query, optional final newline) is accepted |
| UrlValidator.Parse | soundcloud_downloader.py:70-71 | every accepted URL is the rendering of a well-formed shape, which can be chosen without `sets/` markers |
| UrlValidator.ParsePath | soundcloud_downloader.py:70 | an accepted path splits into a first segment, later `/segment` parts and an acceptable tail, and renders back to itself |
| UrlValidator.ParseTail | soundcloud_downloader.py:70 | an accepted tail is an optional newline-free `?query` followed by at most one newline |
| UrlValidator.RecogniserMatchesLanguage | soundcloud_downloader.py:68-73 | the recogniser accepts a string if and only if the pattern's language contains it |
| UrlValidator.SetMarkerAddsNothing | soundcloud_downloader.py:70 | the language is the same with and without the optional `sets/` marker, because `sets` is itself a segment |
| UrlValidator.RejectsTrailingSlash | soundcloud_downloader.py:70 | a URL without `?` that ends in `/` is rejected |
| UrlValidator.SecurePath | soundcloud_downloader.py:70 | `https://soundcloud.com/<path>` is accepted if and only if its path is acceptable |
| UrlValidator.SecureOtherHost | soundcloud_downloader.py:70 | after `https://`, a host that starts with neither `www.` nor `soundcloud.com/` is rejected |
| UrlValidator.ExampleTrack | soundcloud_downloader.py:70 | `https://soundcloud.com/artist/track-name` is accepted |
| UrlValidator.ExamplePlaylist | soundcloud_downloader.py:70 | `https://soundcloud.com/artist/sets/playlist-name` is accepted |
| UrlValidator.ExampleFinalNewline | soundcloud_downloader.py:70 | one trailing newline after an accepted URL is still accepted, as `$` allows |
| UrlValidator.ExampleTwoNewlines | soundcloud_downloader.py:70 | two trailing newlines are rejected |
| UrlValidator.ExampleTrailingSlash | soundcloud_downloader.py:70 | `https://soundcloud.com/artist/` is rejected |
| UrlValidator.ExampleUpperCaseScheme | soundcloud_downloader.py:70 | `HTTPS://soundcloud.com/artist` is rejected: the scheme is case-sensitive |
| UrlValidator.ExampleUpperCaseHost | soundcloud_downloader.py:70 | `https://SoundCloud.com/artist` is rejected: the host is case-sensitive |
| UrlValidator.ExampleOtherDomain | soundcloud_downloader.py:70 | `https://example.com/artist` is rejected |
| PosixPath.Join | soundcloud_downloader.py:17-25 | `posixpath.join` of two parts; `BaseNameJoin` and `SplitJoin` prove that `basename` and `dirname` take it apart again |
| PosixPath.DirName | soundcloud_downloader.py:106 | `posixpath.dirname`; `DirNameIsDirName` proves the result has no trailing slash unless it is all slashes, and `SplitJoin` that it undoes a join |
| PosixPath.BaseName | soundcloud_downloader.py:82 | `posixpath.basename`, used to state where joined paths point; `BaseNameJoin` proves it returns the component joined |
| PosixPath.BaseNameJoin | soundcloud_downloader.py:82 | `basename` of `join(a, name)` is `name` for any `a`, whenever `name` is one component |
| PosixPath.SplitJoin | soundcloud_downloader.py:104-108 | `dirname` and `basename` of `join(d, name)` give back `d` and `name` when `d` has no trailing slash and `name` is one component |
| PosixPath.JoinIsDirName | soundcloud_downloader.py:23-25 | joining a component gives a path without a trailing slash, which `dirname` can return |
| PosixPath.DirNameIsDirName | soundcloud_downloader.py:17-19 | `dirname` never returns a path with a trailing slash, except one made of slashes only |
| Downloader.FfmpegFileName | soundcloud_downloader.py:16-25 | the binary is `ffmpeg.exe` on Windows and `ffmpeg` on any other platform, and is a single path component |
| Downloader.BundleDir | soundcloud_downloader.py:14-25 | the directory searched (the executable's directory, or `ffmpeg_bin` beside the script) never ends in `/` unless it is all slashes, so `dirname` of the binary's path gives it back |
| Downloader.BundledCandidate | soundcloud_downloader.py:14-25 | the probed path: its `dirname` is the bundle directory and its `basename` the platform's binary name |
| Downloader.GetBundledFfmpegPath | soundcloud_downloader.py:28-30 | the path returned is exactly the probed candidate, and it exists; when nothing is returned, the candidate does not exist |
| Downloader.BundledPathRule | soundcloud_downloader.py:11-30 | the binary is found exactly when the platform's file exists in the bundle directory; the path found is named for the platform and lies in the executable's directory when frozen and in `ffmpeg_bin` beside the script otherwise |
| Downloader.DependenciesSatisfied | soundcloud_downloader.py:32-66 | the verdict of the dependency check: FFmpeg bundled or on the PATH, and AtomicParsley on the PATH when on Darwin; `CheckDependencies` proves the list it builds gives exactly this verdict |
| Downloader.CheckDependencies | soundcloud_downloader.py:32-66 | `FFmpeg` is missing exactly when there is neither a bundled binary nor `ffmpeg` on the PATH; `AtomicParsley` is missing exactly on Darwin without it on the PATH, and comes after `FFmpeg`; nothing else is listed; the result is false exactly when the list is non-empty |
| Downloader.BaseOptions | soundcloud_downloader.py:80-102 | the nine entries always written; `BaseOptionsEntries` proves their keys and the `outtmpl`, postprocessor and `ignoreerrors` values |
| Downloader.DownloadOptions | soundcloud_downloader.py:75-110 | the dictionary returned: the fixed entries, plus `ffmpeg_location` when bundled; `OptionsShape` and `FfmpegLocationHoldsBinary` prove its keys and values |
| Downloader.SetupYoutubeDlOptions | soundcloud_downloader.py:75-110 | the dictionary built step by step is the option mapping |
| Downloader.BaseOptionsEntries | soundcloud_downloader.py:80-102 | the fixed entries have exactly the nine fixed keys, none of them `ffmpeg_location` |
| Downloader.OptionsShape | soundcloud_downloader.py:80-108 | the keys are the nine fixed ones plus `ffmpeg_location` exactly when bundled; there are three postprocessors in the order extract MP3 at `320`, embed thumbnail, write metadata; `ignoreerrors` is on; `outtmpl` joins the download path and the template |
| Downloader.FfmpegLocationHoldsBinary | soundcloud_downloader.py:104-108 | `ffmpeg_location` is present exactly when a bundled binary was found; it is then the bundle directory, and the platform's binary name joined onto it is an existing path |
| Downloader.OutputTemplateInDownloadPath | soundcloud_downloader.py:82 | for every download path the file part of `outtmpl` is the template; when the path has no trailing `/`, its directory part is the download path itself |
| Downloader.ExtractWithOptions | soundcloud_downloader.py:137-165 | the library is called once with the URL and the option mapping, and success means it returned an info record; `None` and both kinds of exception give false |
| Downloader.DownloadSoundCloud | soundcloud_downloader.py:126-165 | an invalid URL stops before the dependency check; a failed check stops before the library; otherwise the library is called once with the option mapping; the result is true exactly when the URL is valid, the dependencies are there and the library returned an info record |
| Gui.DefaultOutputDir | soundcloud_downloader_gui.py:78-80 | the default output directory, `join(home, "Downloads", "SoundCloud")`; `DefaultOutputDirShape` proves its shape |
| Gui.DefaultOutputDirShape | soundcloud_downloader_gui.py:78-80 | the default output directory is `SoundCloud` inside `<home>/Downloads` |
| Gui.Backfilled | soundcloud_downloader_gui.py:87-89 | the backfilled map has the stored keys and the default keys; stored values are kept, and missing keys get their default |
| Gui.Backfill | soundcloud_downloader_gui.py:87-89 | the in-place loop over the default keys yields the backfilled map |
| Gui.LoadSettings | soundcloud_downloader_gui.py:76-94 | loading gives the backfilled parsed object, or the defaults when the file is missing, unreadable or not an object |
| Gui.LoadedSettings | soundcloud_downloader_gui.py:76-94 | what `load_settings` returns for each outcome of reading the file; `LoadedSettingsProperties` proves what it keeps and adds |
| Gui.LoadedSettingsProperties | soundcloud_downloader_gui.py:82-94 | loaded settings contain every default key; a parsed object keeps its values and its extra keys; any failure gives exactly the defaults |
| Gui.BackfillIdempotent | soundcloud_downloader_gui.py:87-89 | backfilling twice is the same as backfilling once |
| Gui.BackfillComplete | soundcloud_downloader_gui.py:87-89 | a map that already has every default key is left unchanged |
| Gui.SaveReloadRoundTrip | soundcloud_downloader_gui.py:82-101 | any settings map holding `output_dir` loads back unchanged once parsed; the window's invariant keeps `output_dir` in every map it saves, so this covers all of them |
| Gui.IsSpace | soundcloud_downloader_gui.py:164 | the characters Python's `str.isspace` holds for, which `strip()` removes |
| Gui.StripLeading | soundcloud_downloader_gui.py:164 | the result is a suffix of the input that does not start with whitespace, and everything removed is whitespace |
| Gui.StripTrailing | soundcloud_downloader_gui.py:164 | the result is a prefix of the input that does not end with whitespace, and everything removed is whitespace |
| Gui.Strip | soundcloud_downloader_gui.py:164 | the stripped URL neither starts nor ends with whitespace and is no longer than the entry |
| Gui.StripIsSlice | soundcloud_downloader_gui.py:164 | the stripped URL is the entry's characters from the first non-whitespace on, unchanged and contiguous; everything before and after that slice is whitespace, so only whitespace at either end is removed |
| Gui.StripEmptyIffAllSpace | soundcloud_downloader_gui.py:164-172 | the stripped URL is empty exactly when the entry holds only whitespace |
| Gui.StripTrimmed | soundcloud_downloader_gui.py:164 | a string without whitespace at either end is its own strip |
| Gui.StripIdempotent | soundcloud_downloader_gui.py:164 | stripping twice is stripping once |
| Gui.StartRejection | soundcloud_downloader_gui.py:172-190 | the box `start_download` shows, decided by the first guard that refuses; `StartGuards` proves when it refuses and `CheckStartGuards` that the early returns compute it |
| Gui.StartGuards | soundcloud_downloader_gui.py:172-190 | a download is refused unless the stripped URL is valid, the directory exists or could be created, and the dependencies are there; every refusal is an error box |
| Gui.CheckStartGuards | soundcloud_downloader_gui.py:172-190 | the guards run in order (empty URL, invalid URL, directory creation, dependencies), and the first refusal decides the message |
| Gui.DownloaderWindow.constructor | soundcloud_downloader_gui.py:48-62 | a new window is Idle, with status `Ready`, the loaded settings, an empty URL entry, the saved output directory in its entry, and no worker |
| Gui.DownloaderWindow.SaveSettings | soundcloud_downloader_gui.py:96-102 | the current settings, which hold `output_dir`, are written; a failed write changes nothing in the window |
| Gui.DownloaderWindow.EditUrl | soundcloud_downloader_gui.py:114-115 | typing into the URL entry changes only the entry |
| Gui.DownloaderWindow.EditDirectory | soundcloud_downloader_gui.py:124-125 | typing into the directory entry changes only the entry, not the settings |
| Gui.DownloaderWindow.BrowseDirectory | soundcloud_downloader_gui.py:152-161 | a cancelled dialog changes nothing; a chosen directory goes into the entry and into `output_dir` and is saved; no other key changes |
| Gui.DownloaderWindow.RememberOutputDir | soundcloud_downloader_gui.py:167-170 | `output_dir` takes the entry's value, which is saved only if it differed |
| Gui.DownloaderWindow.RejectOrLaunch | soundcloud_downloader_gui.py:172-198 | a refusal adds its error box and leaves the state alone; otherwise the button is disabled, the progress bar runs, the status says it is downloading, and exactly one worker starts with the URL and directory |
| Gui.DownloaderWindow.StartDownload | soundcloud_downloader_gui.py:163-198 | the entry's directory is stored (and saved if it changed) before any guard, even when the URL is then rejected; a rejection shows its box and keeps the window Idle; acceptance makes it Downloading with one more worker, started with the stripped URL |
| Gui.DownloaderWindow.PressDownload | soundcloud_downloader_gui.py:146-198 | while Downloading the disabled button changes nothing at all, so no second worker starts; from Idle a click does what `start_download` does: the directory is stored, then the first refusing guard's box is shown and the window stays Idle, or the window becomes Downloading with one worker for the stripped URL |
| Gui.DownloaderWindow.DownloadComplete | soundcloud_downloader_gui.py:209-217 | back to Idle; on success the status names the absolute output directory and an info box says so; on failure the status says the download failed |
| Gui.DownloaderWindow.DownloadError | soundcloud_downloader_gui.py:219-223 | back to Idle; the status shows the error text and an error box reports it |

## Left out

- UrlValidator.IsWordChar: `\w` is limited to ASCII letters, digits and `_`. Python's `\w` in a `str` pattern also matches other Unicode letters and digits, so the model rejects some URLs that the program accepts.
- PosixPath.Join: only POSIX path rules are modelled, even when `Env.system` is `"Windows"`. Backslash separators and drive letters (`ntpath`) are not.
- Downloader.Env: `sys.frozen`, `platform.system()`, `sys.executable`, `os.path.abspath(__file__)`, `os.path.exists` and `shutil.which` are inputs. The script path is taken as already absolute. `download_soundcloud` probes for the bundled binary twice, once in `check_dependencies` (soundcloud_downloader.py:37, reached from :134) and once in `setup_youtube_dl_options` (:78, reached from :137), and the window's own dependency check (soundcloud_downloader_gui.py:188) probes once more; the model assumes the file system does not change between these probes.
- Downloader.DownloadSoundCloud: the network transfer, transcoding and thumbnail embedding are left out; the library is an abstract function of the URL and the options. The summary printed after a download (playlist title, track count) is left out, because it is console output only.
- The `CustomLogger` methods and every `print` (soundcloud_downloader.py:27-29, :55-64, :72, :112-124) are left out: they are console output only.
- Downloader.DownloadSoundCloud: the default `download_path='.'` of `download_soundcloud` and `setup_youtube_dl_options` (soundcloud_downloader.py:75, :126) is not modelled; the download path is always passed, as every call site in the source does.
- The `argparse` entry point `main` (soundcloud_downloader.py:167-182) is left out: it is I/O glue.
- Gui.LoadSettings: any JSON value that is not an object gives the defaults. In the source, a JSON array or string that already contains `"output_dir"` is returned as it is, and the window later fails on it; the model does not capture this. Setting values of other JSON types are modelled as strings.
- Gui.DownloaderWindow.SaveSettings: JSON encoding and the file write are not modelled. Every write is recorded in `saved`, whether it succeeds or not, because a failure only prints.
- The configuration path (soundcloud_downloader_gui.py:55-59) and `os.path.expanduser` are left out: the file's content arrives as a `ConfigRead`, and the home directory as a parameter.
- Gui.DownloaderWindow.DownloadComplete: `os.path.abspath` is not modelled; its result is a parameter.
- Gui.DownloaderWindow.BrowseDirectory: the Tk directory dialog is an input, and a cancelled dialog is modelled as `""`.
- The worker thread `download_thread` and the `root.after` hand-off (soundcloud_downloader_gui.py:200-207) are left out. The completion handlers are methods that can be called at any time, and concurrency between the worker and the window is not modelled.
- Tk widget layout, the icon, the window title and the Quit button (soundcloud_downloader_gui.py:49-52, :64-74, :104-150) are left out. Only the entries, status, button state and progress state remain.
- The import fallback for frozen bundles (soundcloud_downloader_gui.py:9-45) is left out: it is module loading.
- Gui.DownloaderWindow.StartDownload: `os.makedirs` is an input (`DirCreation`), and the file system it changes is not tracked.
- `build_app.py`, `debug_build.py`, `bundle_ffmpeg.py` and `hook-yt_dlp.py` are left out. They are build scripts, a downloader for FFmpeg archives, and a PyInstaller hook, with no decision logic of their own.
