/**
 * The desktop front end: the settings record with its default-key
 * backfill, and the window's download trigger as a state machine. The
 * window is Idle while its Download button is enabled and Downloading
 * while it is disabled; `StartDownload` either rejects with an error
 * dialog or starts exactly one worker, and the two completion handlers
 * return to Idle.
 *
 * Reading the configuration file is an oracle (`ConfigRead`), and so are
 * the home directory, `os.path.exists` on the chosen directory, the
 * outcome of `os.makedirs`, the directory dialog and `os.path.abspath`.
 * Message boxes are recorded in `dialogs`, settings writes in `saved`.
 */
module Gui {
  import opened Optional
  import opened PosixPath
  import opened UrlValidator
  import opened Downloader

  // ---------------------------------------------------------------------
  // Settings
  // ---------------------------------------------------------------------

  type Settings = map<string, string>

  /** The one key the program itself relies on. */
  const OutputDirKey: string := "output_dir"

  /** `~/Downloads/SoundCloud`, given the expansion of `~`. */
  function DefaultOutputDir(home: string): string {
    Join(Join(home, "Downloads"), "SoundCloud")
  }

  /** The default output directory is `SoundCloud` inside `<home>/Downloads`. */
  lemma DefaultOutputDirShape(home: string)
    ensures DirName(DefaultOutputDir(home)) == Join(home, "Downloads")
    ensures BaseName(DefaultOutputDir(home)) == "SoundCloud"
  {
    JoinIsDirName(home, "Downloads");
    SplitJoin(Join(home, "Downloads"), "SoundCloud");
  }

  function DefaultSettings(home: string): Settings {
    map[OutputDirKey := DefaultOutputDir(home)]
  }

  /** What reading the configuration file can give. */
  datatype ConfigRead =
    | Missing                       // the file does not exist
    | Unreadable(reason: string)    // opening it or `json.load` raised
    | NotAnObject                   // the JSON value is not an object, so the backfill raises
    | Parsed(stored: Settings)      // a JSON object

  /**
   * Every key of `defaults` that `stored` lacks, added with its default
   * value; what `stored` has is kept.
   */
  function Backfilled(stored: Settings, defaults: Settings): (r: Settings)
    ensures r.Keys == stored.Keys + defaults.Keys
    ensures forall k :: k in stored ==> r[k] == stored[k]
    ensures forall k :: k in defaults && k !in stored ==> r[k] == defaults[k]
  {
    defaults + stored
  }

  /** The loop of `load_settings` that adds missing default keys, in place. */
  method Backfill(stored: Settings, defaults: Settings) returns (settings: Settings)
    ensures settings == Backfilled(stored, defaults)
  {
    settings := stored;
    var pending := defaults.Keys;
    while pending != {}
      invariant pending <= defaults.Keys
      invariant settings.Keys == stored.Keys + (defaults.Keys - pending)
      invariant forall k :: k in stored ==> settings[k] == stored[k]
      invariant forall k :: k in defaults && k !in pending && k !in stored ==> settings[k] == defaults[k]
      decreases pending
    {
      var key :| key in pending;
      if key !in settings {
        settings := settings[key := defaults[key]];
      }
      pending := pending - {key};
    }
    var expected := Backfilled(stored, defaults);
    assert settings.Keys == expected.Keys;
    assert forall k :: k in settings ==> settings[k] == expected[k];
  }

  /** What `load_settings()` returns for each outcome of reading the file. */
  function LoadedSettings(read: ConfigRead, home: string): Settings {
    match read
    case Parsed(stored) => Backfilled(stored, DefaultSettings(home))
    case _ => DefaultSettings(home)
  }

  /** `load_settings()`: the parsed object, backfilled; the defaults on any failure. */
  method LoadSettings(read: ConfigRead, home: string) returns (settings: Settings)
    ensures settings == LoadedSettings(read, home)
  {
    var defaults := DefaultSettings(home);
    match read
    case Parsed(stored) =>
      settings := Backfill(stored, defaults);
    case Missing =>
      settings := defaults;
    case Unreadable(_) =>
      settings := defaults;
    case NotAnObject =>
      settings := defaults;
  }

  /**
   * Loaded settings always hold every default key. A parsed object keeps
   * its own values and extra keys; every failure gives exactly the defaults.
   */
  lemma LoadedSettingsProperties(read: ConfigRead, home: string)
    ensures var s := LoadedSettings(read, home);
            && DefaultSettings(home).Keys <= s.Keys
            && OutputDirKey in s
            && (read.Parsed? ==> read.stored.Keys <= s.Keys)
            && (read.Parsed? ==> forall k :: k in read.stored ==> s[k] == read.stored[k])
            && (read.Parsed? && OutputDirKey !in read.stored ==> s[OutputDirKey] == DefaultOutputDir(home))
            && (!read.Parsed? ==> s == DefaultSettings(home))
  {
  }

  /** Backfilling twice is backfilling once. */
  lemma BackfillIdempotent(stored: Settings, defaults: Settings)
    ensures Backfilled(Backfilled(stored, defaults), defaults) == Backfilled(stored, defaults)
  {
    var once := Backfilled(stored, defaults);
    var twice := Backfilled(once, defaults);
    assert twice.Keys == once.Keys;
    assert forall k :: k in twice ==> twice[k] == once[k];
  }

  /** A map that already has every default key is left as it is. */
  lemma BackfillComplete(stored: Settings, defaults: Settings)
    requires defaults.Keys <= stored.Keys
    ensures Backfilled(stored, defaults) == stored
  {
    var r := Backfilled(stored, defaults);
    assert r.Keys == stored.Keys;
    assert forall k :: k in r ==> r[k] == stored[k];
  }

  /** Settings written by the window and parsed back load unchanged. */
  lemma SaveReloadRoundTrip(settings: Settings, home: string)
    requires OutputDirKey in settings
    ensures LoadedSettings(Parsed(settings), home) == settings
  {
    BackfillComplete(settings, DefaultSettings(home));
  }

  // ---------------------------------------------------------------------
  // str.strip()
  // ---------------------------------------------------------------------

  /** The characters Python's `str.isspace` holds for, which `strip()` removes. */
  predicate IsSpace(c: char) {
    || c == ' '
    || ('\t' <= c <= '\r')
    || ('\U{1C}' <= c <= '\U{1F}')
    || c == '\U{85}'
    || c == '\U{A0}'
    || c == '\U{1680}'
    || ('\U{2000}' <= c <= '\U{200A}')
    || c == '\U{2028}'
    || c == '\U{2029}'
    || c == '\U{202F}'
    || c == '\U{205F}'
    || c == '\U{3000}'
  }

  /** `s` without its leading whitespace. */
  function StripLeading(s: string): (r: string)
    ensures |r| <= |s| && r == s[|s| - |r|..]
    ensures r == [] || !IsSpace(r[0])
    ensures forall i :: 0 <= i < |s| - |r| ==> IsSpace(s[i])
  {
    if |s| > 0 && IsSpace(s[0]) then StripLeading(s[1..]) else s
  }

  /** `s` without its trailing whitespace. */
  function StripTrailing(s: string): (r: string)
    ensures r <= s
    ensures r == [] || !IsSpace(r[|r| - 1])
    ensures forall i :: |r| <= i < |s| ==> IsSpace(s[i])
  {
    if |s| > 0 && IsSpace(s[|s| - 1]) then StripTrailing(s[..|s| - 1]) else s
  }

  /** `s.strip()`: a middle part of `s` that neither starts nor ends with whitespace. */
  function Strip(s: string): (r: string)
    ensures r == [] || (!IsSpace(r[0]) && !IsSpace(r[|r| - 1]))
    ensures |r| <= |s|
  {
    var lead := StripLeading(s);
    var r := StripTrailing(lead);
    assert r == [] || r[0] == lead[0];
    r
  }

  /**
   * `s.strip()` is the slice of `s` that remains once its leading and its
   * trailing whitespace are removed, and nothing else is removed.
   */
  lemma StripIsSlice(s: string)
    ensures var r := Strip(s);
            var i := |s| - |StripLeading(s)|;
            && i + |r| <= |s|
            && (forall k :: 0 <= k < |r| ==> r[k] == s[i + k])
            && (forall k :: 0 <= k < i ==> IsSpace(s[k]))
            && (forall k :: i + |r| <= k < |s| ==> IsSpace(s[k]))
  {
    var lead := StripLeading(s);
    var r := Strip(s);
    assert r == StripTrailing(lead);
    StripSlice(s, lead, r);
  }

  /**
   * A prefix `r` of the suffix `lead` of `s` is a slice of `s`; when all
   * before `lead` and all after `r` in `lead` is whitespace, so is all
   * around the slice in `s`.
   */
  lemma StripSlice(s: string, lead: string, r: string)
    requires |lead| <= |s| && lead == s[|s| - |lead|..] && r <= lead
    requires forall k :: 0 <= k < |s| - |lead| ==> IsSpace(s[k])
    requires forall k :: |r| <= k < |lead| ==> IsSpace(lead[k])
    ensures var i := |s| - |lead|;
            && i + |r| <= |s|
            && (forall k :: 0 <= k < |r| ==> r[k] == s[i + k])
            && (forall k :: 0 <= k < i ==> IsSpace(s[k]))
            && (forall k :: i + |r| <= k < |s| ==> IsSpace(s[k]))
  {
    var i := |s| - |lead|;
    forall k | i + |r| <= k < |s| ensures IsSpace(s[k]) {
      assert s[k] == lead[k - i];
    }
  }

  /** Stripping leaves nothing exactly when every character is whitespace. */
  lemma StripEmptyIffAllSpace(s: string)
    ensures Strip(s) == [] <==> forall i :: 0 <= i < |s| ==> IsSpace(s[i])
  {
    var lead := StripLeading(s);
    if Strip(s) == [] {
      // All of `lead` is trailing whitespace, yet it does not start with any.
      assert |lead| == 0;
    } else {
      var k := |s| - |lead|;
      assert lead != [] && !IsSpace(lead[0]);
      assert s[k] == lead[0];
    }
  }

  /** A string that neither starts nor ends with whitespace is its own strip. */
  lemma StripTrimmed(s: string)
    requires s == [] || (!IsSpace(s[0]) && !IsSpace(s[|s| - 1]))
    ensures Strip(s) == s
  {
  }

  /** Stripping twice is stripping once. */
  lemma StripIdempotent(s: string)
    ensures Strip(Strip(s)) == Strip(s)
  {
    StripTrimmed(Strip(s));
  }

  // ---------------------------------------------------------------------
  // The window
  // ---------------------------------------------------------------------

  /** A message box the window shows. */
  datatype Dialog =
    | ErrorBox(title: string, message: string)
    | InfoBox(title: string, message: string)

  /** The arguments a download worker is started with. */
  datatype Job = Job(url: string, outputDir: string)

  /** What `os.makedirs(output_dir)` does. */
  datatype DirCreation = Created | CreationFailed(reason: string)

  const ReadyStatus: string := "Ready"
  const DownloadingStatus: string := "Downloading... This may take a while."
  const FailedStatus: string := "Download failed. Check console for details."

  /**
   * The dialog `start_download` shows when one of its guards refuses, in
   * the order the guards run; `None` when all of them pass.
   */
  function StartRejection(url: string, env: Env, dirExists: bool, mkdirs: DirCreation): Option<Dialog> {
    if url == [] then
      Some(ErrorBox("Error", "Please enter a SoundCloud URL"))
    else if !IsValidSoundCloudUrl(url) then
      Some(ErrorBox("Error", "Invalid SoundCloud URL: " + url))
    else if !dirExists && mkdirs.CreationFailed? then
      Some(ErrorBox("Error", "Cannot create output directory: " + mkdirs.reason))
    else if !DependenciesSatisfied(env) then
      Some(ErrorBox("Error", "Missing dependencies. Please check console output."))
    else
      None
  }

  /**
   * A download starts exactly when the stripped URL is a SoundCloud URL,
   * the output directory exists or could be created, and the tools are
   * there; every rejection is an error box.
   */
  lemma StartGuards(url: string, env: Env, dirExists: bool, mkdirs: DirCreation)
    ensures StartRejection(url, env, dirExists, mkdirs).None? <==>
              && IsValidSoundCloudUrl(url)
              && (dirExists || mkdirs.Created?)
              && DependenciesSatisfied(env)
    ensures StartRejection(url, env, dirExists, mkdirs).Some? ==>
              StartRejection(url, env, dirExists, mkdirs).value.ErrorBox?
  {
    if IsValidSoundCloudUrl(url) {
      assert AfterScheme(url).Some?;
    }
  }

  /**
   * The guard sequence of `start_download()` (soundcloud check, directory,
   * tools), stopping at the first that refuses with the box it shows.
   */
  method CheckStartGuards(url: string, env: Env, dirExists: bool, mkdirs: DirCreation)
    returns (rejection: Option<Dialog>)
    ensures rejection == StartRejection(url, env, dirExists, mkdirs)
  {
    if url == [] {
      return Some(ErrorBox("Error", "Please enter a SoundCloud URL"));
    }
    if !IsValidSoundCloudUrl(url) {
      return Some(ErrorBox("Error", "Invalid SoundCloud URL: " + url));
    }
    if !dirExists {
      match mkdirs
      case CreationFailed(reason) =>
        return Some(ErrorBox("Error", "Cannot create output directory: " + reason));
      case Created =>
    }
    var depsOk, _ := CheckDependencies(env);
    if !depsOk {
      return Some(ErrorBox("Error", "Missing dependencies. Please check console output."));
    }
    return None;
  }

  class DownloaderWindow {
    var settings: Settings
    var urlField: string           // the URL entry
    var dirField: string           // the output-directory entry
    var status: string             // the status label
    var buttonEnabled: bool        // the Download button
    var progressRunning: bool      // the indeterminate progress bar
    var workerStarted: nat         // download threads started so far
    var jobs: seq<Job>             // their arguments, in order
    var dialogs: seq<Dialog>       // message boxes shown, in order
    var saved: seq<Settings>       // settings written by `save_settings`, in order

    /** Idle (button enabled, bar stopped) or Downloading (the reverse). */
    predicate Valid()
      reads this
    {
      && OutputDirKey in settings
      && (forall written :: written in saved ==> OutputDirKey in written)
      && buttonEnabled == !progressRunning
      && workerStarted == |jobs|
    }

    /** `__init__` as far as the model goes: load settings, then build the widgets. */
    constructor (read: ConfigRead, home: string)
      ensures Valid()
      ensures settings == LoadedSettings(read, home)
      ensures urlField == "" && dirField == settings[OutputDirKey]
      ensures status == ReadyStatus && buttonEnabled && !progressRunning
      ensures workerStarted == 0 && jobs == [] && dialogs == [] && saved == []
    {
      var loaded := LoadSettings(read, home);
      LoadedSettingsProperties(read, home);
      settings := loaded;
      urlField := "";
      dirField := loaded[OutputDirKey];
      status := ReadyStatus;
      buttonEnabled := true;
      progressRunning := false;
      workerStarted := 0;
      jobs := [];
      dialogs := [];
      saved := [];
    }

    /** `save_settings()`: writes the current settings; a failed write changes nothing here. */
    method SaveSettings()
      requires OutputDirKey in settings
      modifies this
      ensures saved == old(saved) + [settings]
      ensures settings == old(settings) && urlField == old(urlField) && dirField == old(dirField)
      ensures status == old(status) && buttonEnabled == old(buttonEnabled)
      ensures progressRunning == old(progressRunning) && workerStarted == old(workerStarted)
      ensures jobs == old(jobs) && dialogs == old(dialogs)
    {
      saved := saved + [settings];
    }

    /** The user types into the URL entry. */
    method EditUrl(text: string)
      modifies this
      ensures urlField == text
      ensures settings == old(settings) && dirField == old(dirField) && saved == old(saved)
      ensures status == old(status) && buttonEnabled == old(buttonEnabled)
      ensures progressRunning == old(progressRunning) && workerStarted == old(workerStarted)
      ensures jobs == old(jobs) && dialogs == old(dialogs)
    {
      urlField := text;
    }

    /** The user types into the output-directory entry; settings follow only on download. */
    method EditDirectory(text: string)
      modifies this
      ensures dirField == text
      ensures settings == old(settings) && urlField == old(urlField) && saved == old(saved)
      ensures status == old(status) && buttonEnabled == old(buttonEnabled)
      ensures progressRunning == old(progressRunning) && workerStarted == old(workerStarted)
      ensures jobs == old(jobs) && dialogs == old(dialogs)
    {
      dirField := text;
    }

    /**
     * `browse_directory()`, given what the dialog returned (`""` when it was
     * cancelled): a chosen directory goes into the entry and into
     * `output_dir`, and is saved; no other key changes.
     */
    method BrowseDirectory(selection: string)
      requires Valid()
      modifies this
      ensures Valid()
      ensures selection == "" ==> settings == old(settings) && dirField == old(dirField) && saved == old(saved)
      ensures selection != "" ==>
                && dirField == selection
                && settings == old(settings)[OutputDirKey := selection]
                && saved == old(saved) + [settings]
      ensures settings.Keys == old(settings).Keys
      ensures forall k :: k in old(settings) && k != OutputDirKey ==> settings[k] == old(settings)[k]
      ensures urlField == old(urlField) && status == old(status) && buttonEnabled == old(buttonEnabled)
      ensures progressRunning == old(progressRunning) && workerStarted == old(workerStarted)
      ensures jobs == old(jobs) && dialogs == old(dialogs)
    {
      if selection != "" {
        dirField := selection;
        settings := settings[OutputDirKey := selection];
        SaveSettings();
      }
    }

    /**
     * The first step of `start_download()`: the entry's directory goes into
     * `output_dir`, and is saved if it differs.
     */
    method RememberOutputDir()
      requires Valid()
      modifies this
      ensures Valid()
      ensures settings == old(settings)[OutputDirKey := dirField]
      ensures saved == old(saved) + (if dirField != old(settings)[OutputDirKey] then [settings] else [])
      ensures urlField == old(urlField) && dirField == old(dirField)
      ensures status == old(status) && buttonEnabled == old(buttonEnabled)
      ensures progressRunning == old(progressRunning) && workerStarted == old(workerStarted)
      ensures jobs == old(jobs) && dialogs == old(dialogs)
    {
      if dirField != settings[OutputDirKey] {
        settings := settings[OutputDirKey := dirField];
        SaveSettings();
      } else {
        assert settings == settings[OutputDirKey := dirField];
      }
    }

    /**
     * The end of `start_download()`, given the verdict of its guards: a
     * refusal shows its error box and leaves the window as it was;
     * otherwise the window becomes Downloading and one worker is started.
     */
    method RejectOrLaunch(url: string, outputDir: string, rejection: Option<Dialog>)
      requires Valid()
      modifies this
      ensures Valid()
      ensures settings == old(settings) && saved == old(saved)
      ensures urlField == old(urlField) && dirField == old(dirField)
      ensures rejection.Some? ==>
                && dialogs == old(dialogs) + [rejection.value]
                && status == old(status) && buttonEnabled == old(buttonEnabled)
                && progressRunning == old(progressRunning)
                && workerStarted == old(workerStarted) && jobs == old(jobs)
      ensures rejection.None? ==>
                && dialogs == old(dialogs)
                && status == DownloadingStatus && !buttonEnabled && progressRunning
                && workerStarted == old(workerStarted) + 1
                && jobs == old(jobs) + [Job(url, outputDir)]
    {
      if rejection.Some? {
        dialogs := dialogs + [rejection.value];
        return;
      }
      buttonEnabled := false;
      status := DownloadingStatus;
      progressRunning := true;
      jobs := jobs + [Job(url, outputDir)];
      workerStarted := workerStarted + 1;
    }

    /**
     * `start_download()`. The entry's directory goes into `output_dir` (and
     * is saved if it differs) before any guard runs, so even a rejected
     * download remembers it; then the guards run on the stripped URL, and
     * either one refuses with its error box and the window stays as it
     * was, or the window becomes Downloading with one more worker.
     */
    method StartDownload(env: Env, dirExists: bool, mkdirs: DirCreation)
      requires Valid()
      modifies this
      ensures Valid()
      ensures urlField == old(urlField) && dirField == old(dirField)
      ensures settings == old(settings)[OutputDirKey := old(dirField)]
      ensures saved == old(saved) + (if old(dirField) != old(settings)[OutputDirKey] then [settings] else [])
      ensures StartRejection(Strip(old(urlField)), env, dirExists, mkdirs).Some? ==>
                && dialogs == old(dialogs) + [StartRejection(Strip(old(urlField)), env, dirExists, mkdirs).value]
                && status == old(status) && buttonEnabled == old(buttonEnabled)
                && progressRunning == old(progressRunning)
                && workerStarted == old(workerStarted) && jobs == old(jobs)
      ensures StartRejection(Strip(old(urlField)), env, dirExists, mkdirs).None? ==>
                && dialogs == old(dialogs)
                && status == DownloadingStatus && !buttonEnabled && progressRunning
                && workerStarted == old(workerStarted) + 1
                && jobs == old(jobs) + [Job(Strip(old(urlField)), old(dirField))]
    {
      var url := Strip(urlField);
      var outputDir := dirField;
      RememberOutputDir();
      var rejection := CheckStartGuards(url, env, dirExists, mkdirs);
      RejectOrLaunch(url, outputDir, rejection);
    }

    /**
     * A click on the Download button: Tk runs `start_download` only while
     * the button is enabled, so while Downloading nothing happens and no
     * second worker starts.
     */
    method PressDownload(env: Env, dirExists: bool, mkdirs: DirCreation)
      requires Valid()
      modifies this
      ensures Valid()
      ensures !old(buttonEnabled) ==>
                && settings == old(settings) && saved == old(saved) && dialogs == old(dialogs)
                && urlField == old(urlField) && dirField == old(dirField)
                && status == old(status) && buttonEnabled == old(buttonEnabled)
                && progressRunning == old(progressRunning)
                && workerStarted == old(workerStarted) && jobs == old(jobs)
      ensures old(buttonEnabled) ==>
                && urlField == old(urlField) && dirField == old(dirField)
                && settings == old(settings)[OutputDirKey := old(dirField)]
                && saved == old(saved) + (if old(dirField) != old(settings)[OutputDirKey] then [settings] else [])
      ensures old(buttonEnabled) && StartRejection(Strip(old(urlField)), env, dirExists, mkdirs).Some? ==>
                && dialogs == old(dialogs) + [StartRejection(Strip(old(urlField)), env, dirExists, mkdirs).value]
                && status == old(status) && buttonEnabled && !progressRunning
                && workerStarted == old(workerStarted) && jobs == old(jobs)
      ensures old(buttonEnabled) && StartRejection(Strip(old(urlField)), env, dirExists, mkdirs).None? ==>
                && dialogs == old(dialogs)
                && status == DownloadingStatus && !buttonEnabled && progressRunning
                && workerStarted == old(workerStarted) + 1
                && jobs == old(jobs) + [Job(Strip(old(urlField)), old(dirField))]
      ensures workerStarted <= old(workerStarted) + 1
      ensures workerStarted == old(workerStarted) + 1 ==> old(buttonEnabled) && !buttonEnabled
    {
      if buttonEnabled {
        StartDownload(env, dirExists, mkdirs);
      }
    }

    /**
     * `download_complete(success, output_dir)`, given the absolute form of
     * the directory: back to Idle; the status reports where the files went
     * or that the download failed, and success also shows an info box.
     */
    method DownloadComplete(success: bool, absoluteOutputDir: string)
      requires Valid()
      modifies this
      ensures Valid()
      ensures buttonEnabled && !progressRunning
      ensures success ==> status == "Download completed. Files saved to " + absoluteOutputDir
      ensures success ==> dialogs == old(dialogs) + [InfoBox("Success", "Download completed.\nFiles saved to " + absoluteOutputDir)]
      ensures !success ==> status == FailedStatus && dialogs == old(dialogs)
      ensures settings == old(settings) && urlField == old(urlField) && dirField == old(dirField)
      ensures saved == old(saved) && workerStarted == old(workerStarted) && jobs == old(jobs)
    {
      progressRunning := false;
      buttonEnabled := true;
      if success {
        status := "Download completed. Files saved to " + absoluteOutputDir;
        dialogs := dialogs + [InfoBox("Success", "Download completed.\nFiles saved to " + absoluteOutputDir)];
      } else {
        status := FailedStatus;
      }
    }

    /**
     * `download_error(error_msg)`: back to Idle; the status shows the error
     * text and an error box reports the failure.
     */
    method DownloadError(message: string)
      requires Valid()
      modifies this
      ensures Valid()
      ensures buttonEnabled && !progressRunning
      ensures status == "Error: " + message
      ensures dialogs == old(dialogs) + [ErrorBox("Error", "Download failed: " + message)]
      ensures settings == old(settings) && urlField == old(urlField) && dirField == old(dirField)
      ensures saved == old(saved) && workerStarted == old(workerStarted) && jobs == old(jobs)
    {
      progressRunning := false;
      buttonEnabled := true;
      status := "Error: " + message;
      dialogs := dialogs + [ErrorBox("Error", "Download failed: " + message)];
    }
  }
}
