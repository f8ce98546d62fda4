/**
 * The command-line downloader: where the bundled FFmpeg binary is looked
 * for, which external tools are reported missing, the option mapping
 * handed to yt-dlp, and the fail-fast order of `download_soundcloud`.
 *
 * The machine is described by an `Env` record: whether the program runs
 * from a PyInstaller bundle, the platform name, the interpreter and
 * script paths, which paths exist and which commands the PATH lookup
 * finds. The extraction library is a function parameter that returns one
 * of the four outcomes the source distinguishes.
 */
module Downloader {
  import opened Optional
  import opened PosixPath
  import opened UrlValidator

  /** What the program asks of the machine it runs on. */
  datatype Env = Env(
    frozen: bool,            // `sys.frozen`: running from a PyInstaller bundle
    system: string,          // `platform.system()`
    executable: string,      // `sys.executable`
    scriptFile: string,      // `os.path.abspath(__file__)`
    existing: set<string>,   // the paths for which `os.path.exists` holds
    onPath: set<string>)     // the command names `shutil.which` finds

  // ---------------------------------------------------------------------
  // get_bundled_ffmpeg_path
  // ---------------------------------------------------------------------

  /** The binary's file name: `ffmpeg.exe` on Windows, `ffmpeg` elsewhere. */
  function FfmpegFileName(system: string): (name: string)
    ensures IsComponent(name)
    ensures system == "Windows" ==> name == "ffmpeg.exe"
    ensures system != "Windows" ==> name == "ffmpeg"
  {
    if system == "Windows" then "ffmpeg.exe" else "ffmpeg"
  }

  /** The directory the binary is looked for in. */
  function BundleDir(env: Env): (d: string)
    ensures IsDirName(d)
  {
    if env.frozen then
      DirNameIsDirName(env.executable);
      DirName(env.executable)
    else
      JoinIsDirName(DirName(env.scriptFile), "ffmpeg_bin");
      Join(DirName(env.scriptFile), "ffmpeg_bin")
  }

  /** The one path `get_bundled_ffmpeg_path` probes. */
  function BundledCandidate(env: Env): (p: string)
    ensures DirName(p) == BundleDir(env)
    ensures BaseName(p) == FfmpegFileName(env.system)
  {
    SplitJoin(BundleDir(env), FfmpegFileName(env.system));
    Join(BundleDir(env), FfmpegFileName(env.system))
  }

  /** `get_bundled_ffmpeg_path()`: the candidate path if it exists. */
  function GetBundledFfmpegPath(env: Env): (r: Option<string>)
    ensures r.Some? ==> r.value == BundledCandidate(env) && r.value in env.existing
    ensures r.None? ==> BundledCandidate(env) !in env.existing
  {
    var candidate := BundledCandidate(env);
    if candidate in env.existing then Some(candidate) else None
  }

  /**
   * The path found lies in the executable's directory when frozen and in
   * `ffmpeg_bin` beside the script otherwise, and is named for the
   * platform; it is found exactly when a file of that name exists there.
   */
  lemma BundledPathRule(env: Env)
    ensures var r := GetBundledFfmpegPath(env);
            && (r.Some? <==> Join(BundleDir(env), FfmpegFileName(env.system)) in env.existing)
            && (r.Some? ==> BaseName(r.value) == FfmpegFileName(env.system))
            && (r.Some? && env.frozen ==> DirName(r.value) == DirName(env.executable))
            && (r.Some? && !env.frozen ==> DirName(r.value) == Join(DirName(env.scriptFile), "ffmpeg_bin"))
  {
    SplitJoin(BundleDir(env), FfmpegFileName(env.system));
  }

  // ---------------------------------------------------------------------
  // check_dependencies
  // ---------------------------------------------------------------------

  /** What `check_dependencies` accepts. */
  predicate DependenciesSatisfied(env: Env) {
    && (GetBundledFfmpegPath(env).Some? || "ffmpeg" in env.onPath)
    && (env.system != "Darwin" || "AtomicParsley" in env.onPath)
  }

  /**
   * `check_dependencies()`, returning the list it builds beside its
   * verdict. FFmpeg is needed unless bundled or on the PATH; AtomicParsley
   * only on macOS, and it is listed after FFmpeg.
   */
  method CheckDependencies(env: Env) returns (ok: bool, missing: seq<string>)
    ensures "FFmpeg" in missing <==> GetBundledFfmpegPath(env).None? && "ffmpeg" !in env.onPath
    ensures "AtomicParsley" in missing <==> env.system == "Darwin" && "AtomicParsley" !in env.onPath
    ensures forall d :: d in missing ==> d == "FFmpeg" || d == "AtomicParsley"
    ensures |missing| <= 2
    ensures |missing| == 2 ==> missing == ["FFmpeg", "AtomicParsley"]
    ensures ok <==> missing == []
    ensures ok <==> DependenciesSatisfied(env)
  {
    missing := [];
    var bundled := GetBundledFfmpegPath(env);
    if bundled.None? {
      if "ffmpeg" !in env.onPath {
        missing := missing + ["FFmpeg"];
      }
    }
    if env.system == "Darwin" {
      if "AtomicParsley" !in env.onPath {
        missing := missing + ["AtomicParsley"];
      }
    }
    ok := |missing| == 0;
  }

  // ---------------------------------------------------------------------
  // setup_youtube_dl_options
  // ---------------------------------------------------------------------

  /** The file-name template of every download. */
  const OutputTemplate: string := "%(title)s.%(ext)s"

  /** One entry of the `postprocessors` list, by its `key`. */
  datatype Postprocessor =
    | FFmpegExtractAudio(preferredCodec: string, preferredQuality: string)
    | EmbedThumbnail
    | FFmpegMetadata

  /** The values the option dictionary holds. */
  datatype OptionValue =
    | Text(text: string)
    | Switch(on: bool)
    | Postprocessors(steps: seq<Postprocessor>)
    | DebugLogger    // the `CustomLogger` instance

  type Options = map<string, OptionValue>

  /** The keys every option dictionary has. */
  const BaseOptionKeys: set<string> :=
    {"format", "outtmpl", "postprocessors", "writethumbnail", "prefer_ffmpeg",
     "keepvideo", "verbose", "ignoreerrors", "logger"}

  /** The entries `setup_youtube_dl_options` always writes. */
  function BaseOptions(downloadPath: string): Options {
    map[
      "format" := Text("bestaudio/best"),
      "outtmpl" := Text(Join(downloadPath, OutputTemplate)),
      "postprocessors" := Postprocessors([FFmpegExtractAudio("mp3", "320"), EmbedThumbnail, FFmpegMetadata]),
      "writethumbnail" := Switch(true),
      "prefer_ffmpeg" := Switch(true),
      "keepvideo" := Switch(false),
      "verbose" := Switch(true),
      "ignoreerrors" := Switch(true),
      "logger" := DebugLogger]
  }

  /** The dictionary `setup_youtube_dl_options(download_path)` returns. */
  function DownloadOptions(env: Env, downloadPath: string): Options {
    match GetBundledFfmpegPath(env)
    case None => BaseOptions(downloadPath)
    case Some(path) => BaseOptions(downloadPath)["ffmpeg_location" := Text(DirName(path))]
  }

  /**
   * `setup_youtube_dl_options(download_path)`: the fixed entries first,
   * then `ffmpeg_location` when a bundled binary was found.
   */
  method SetupYoutubeDlOptions(env: Env, downloadPath: string) returns (options: Options)
    ensures options == DownloadOptions(env, downloadPath)
  {
    var bundled := GetBundledFfmpegPath(env);
    options := BaseOptions(downloadPath);
    if bundled.Some? {
      var ffmpegDir := DirName(bundled.value);
      options := options["ffmpeg_location" := Text(ffmpegDir)];
    }
  }

  /** The fixed entries, looked up one by one. */
  lemma BaseOptionsEntries(downloadPath: string)
    ensures BaseOptions(downloadPath).Keys == BaseOptionKeys
    ensures "ffmpeg_location" !in BaseOptionKeys
    ensures BaseOptions(downloadPath)["outtmpl"] == Text(Join(downloadPath, OutputTemplate))
    ensures BaseOptions(downloadPath)["postprocessors"]
              == Postprocessors([FFmpegExtractAudio("mp3", "320"), EmbedThumbnail, FFmpegMetadata])
    ensures BaseOptions(downloadPath)["ignoreerrors"] == Switch(true)
  {
  }

  /**
   * The dictionary has the fixed keys, plus `ffmpeg_location` exactly when
   * a bundled binary exists; it always extracts MP3 at quality 320, then
   * embeds the thumbnail, then writes metadata, and skips failing items.
   */
  lemma OptionsShape(env: Env, downloadPath: string)
    ensures var options := DownloadOptions(env, downloadPath);
            && options.Keys == BaseOptionKeys + (if GetBundledFfmpegPath(env).Some? then {"ffmpeg_location"} else {})
            && options["postprocessors"] == Postprocessors([FFmpegExtractAudio("mp3", "320"), EmbedThumbnail, FFmpegMetadata])
            && options["ignoreerrors"] == Switch(true)
            && options["outtmpl"] == Text(Join(downloadPath, OutputTemplate))
  {
    BaseOptionsEntries(downloadPath);
  }

  /**
   * When present, `ffmpeg_location` is the directory of the bundled binary:
   * the platform's binary name joined onto it is a path that exists.
   */
  lemma FfmpegLocationHoldsBinary(env: Env, downloadPath: string)
    ensures var options := DownloadOptions(env, downloadPath);
            && ("ffmpeg_location" in options <==> GetBundledFfmpegPath(env).Some?)
            && ("ffmpeg_location" in options ==>
                  && options["ffmpeg_location"] == Text(BundleDir(env))
                  && Join(options["ffmpeg_location"].text, FfmpegFileName(env.system)) in env.existing)
  {
    BaseOptionsEntries(downloadPath);
    var name := FfmpegFileName(env.system);
    SplitJoin(BundleDir(env), name);
    match GetBundledFfmpegPath(env)
    case None =>
    case Some(path) =>
      assert DirName(path) == BundleDir(env);
      assert Join(DirName(path), name) == path;
  }

  /** The template is a single path component: it holds no `/`. */
  lemma OutputTemplateIsComponent()
    ensures IsComponent(OutputTemplate)
  {
    var t := OutputTemplate;
    forall i | 0 <= i < |t| ensures t[i] != '/' {
    }
  }

  /**
   * The output template names files directly inside the download
   * directory: the file part is always the template, and the directory
   * part is the download path itself when that has no trailing `/`.
   */
  lemma OutputTemplateInDownloadPath(env: Env, downloadPath: string)
    ensures var outtmpl := DownloadOptions(env, downloadPath)["outtmpl"].text;
            && BaseName(outtmpl) == OutputTemplate
            && (IsDirName(downloadPath) ==> DirName(outtmpl) == downloadPath)
  {
    OptionsShape(env, downloadPath);
    OutputTemplateIsComponent();
    var outtmpl := Join(downloadPath, OutputTemplate);
    assert DownloadOptions(env, downloadPath)["outtmpl"].text == outtmpl;
    BaseNameJoin(downloadPath, OutputTemplate);
    if IsDirName(downloadPath) {
      SplitJoin(downloadPath, OutputTemplate);
    }
  }

  // ---------------------------------------------------------------------
  // download_soundcloud
  // ---------------------------------------------------------------------

  /** What `ydl.extract_info(url, download=True)` can do. */
  datatype LibraryOutcome =
    | NoInfo                        // returns None
    | Info                          // returns an info dictionary
    | DownloadError(message: string) // raises `yt_dlp.utils.DownloadError`
    | OtherError(message: string)    // raises any other exception

  /** The steps `download_soundcloud` takes, in the order it takes them. */
  datatype Step =
    | ValidateUrl(url: string)
    | CheckDeps
    | ExtractInfo(url: string, options: Options)

  /**
   * The `try` block of `download_soundcloud`: build the options and hand
   * them to the library. `None`, a `DownloadError` and any other
   * exception all end in `false`, so nothing escapes.
   */
  method ExtractWithOptions(env: Env, url: string, downloadPath: string,
                            library: (string, Options) -> LibraryOutcome)
    returns (ok: bool, step: Step)
    ensures step == ExtractInfo(url, DownloadOptions(env, downloadPath))
    ensures ok <==> library(url, DownloadOptions(env, downloadPath)).Info?
  {
    var options := SetupYoutubeDlOptions(env, downloadPath);
    step := ExtractInfo(url, options);
    var outcome := library(url, options);
    ok := outcome.Info?;
  }

  /**
   * `download_soundcloud(url, download_path)`: validation, then the
   * dependency check, then one library call; each failure returns `false`
   * at once.
   */
  method DownloadSoundCloud(env: Env, url: string, downloadPath: string,
                            library: (string, Options) -> LibraryOutcome)
    returns (ok: bool, steps: seq<Step>)
    ensures !IsValidSoundCloudUrl(url) ==> steps == [ValidateUrl(url)]
    ensures IsValidSoundCloudUrl(url) && !DependenciesSatisfied(env) ==>
              steps == [ValidateUrl(url), CheckDeps]
    ensures IsValidSoundCloudUrl(url) && DependenciesSatisfied(env) ==>
              steps == [ValidateUrl(url), CheckDeps, ExtractInfo(url, DownloadOptions(env, downloadPath))]
    ensures ok <==> && IsValidSoundCloudUrl(url)
                    && DependenciesSatisfied(env)
                    && library(url, DownloadOptions(env, downloadPath)).Info?
  {
    if !IsValidSoundCloudUrl(url) {
      return false, [ValidateUrl(url)];
    }
    var depsOk, _ := CheckDependencies(env);
    if !depsOk {
      return false, [ValidateUrl(url), CheckDeps];
    }
    var step;
    ok, step := ExtractWithOptions(env, url, downloadPath, library);
    steps := [ValidateUrl(url), CheckDeps, step];
  }
}
