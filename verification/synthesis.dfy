/** The `speak` worker: a try-lock that silently drops a request while another
    run holds it, then a fixed sequence of checks and launches (engine present,
    language resolved, model file present, engine run, player run), with every
    failure turned into one notification and the indicator icon and the lock
    restored on every way out.

    The world the worker meets is given up front: what the language detector
    says, which files exist, and how each subprocess ends. What the worker does
    is recorded in a log (see module Effects). */
module Synthesis {
  import opened Base
  import opened Strings
  import opened Effects
  import opened Voices

  /** The indicator icon while a text is being spoken. */
  const BusyIcon: string := "audio-volume-high-symbolic"

  /** The indicator icon at rest; also the icon the indicator starts with. */
  const IdleIcon: string := "audio-speakers-symbolic"

  /** The player: quiet, 22050 Hz, signed 16-bit little-endian samples, headerless raw stream. */
  const PlayerArgv: seq<string> := ["aplay", "-q", "-r", "22050", "-f", "S16_LE", "-t", "raw"]

  /** Process-wide settings as the worker reads them when it runs: `PIPER_EXE`,
      `MODELS`, `VOICE_DIR`, and `str(LENGTH_SCALE)`. */
  datatype Settings = Settings(engine: Option<string>, catalog: Catalog, voiceDir: string, lengthScale: string)

  /** How `subprocess.run(..., check=True)` ends: the process exits with a status
      (standard output and decoded standard error as captured), the command is not
      found (`FileNotFoundError`), or starting it fails otherwise (another `OSError`,
      with its message). */
  datatype RunResult =
    | Exited(status: int, stdout: seq<byte>, stderr: string)
    | CommandNotFound
    | OsFailure(message: string)

  /** What one run meets: the detector's verdict on the text, the files that exist,
      and how the engine and the player end if they are started. */
  datatype World = World(detection: Detection, existing: set<string>, engineRun: RunResult, playerRun: RunResult)

  /** The ways a run can fail, one per handler of the worker. */
  datatype Failure =
    | EngineMissing                              // PIPER_EXE is None
    | ModelMissing(lang: string)                 // the model file does not exist
    | DependencyMissing(command: string)         // FileNotFoundError
    | ProcessFailed(diagnostic: Option<string>)  // CalledProcessError; stderr when captured
    | Unexpected(message: string)                // any other exception, str(e)

  /** The language the run speaks in. */
  function Language(s: Settings, w: World): string {
    ResolveLanguage(w.detection, s.catalog)
  }

  /** `str(KeyError(lang))`. */
  function KeyErrorText(lang: string): string {
    "'" + lang + "'"
  }

  /** The engine command: model and config paths under the voice directory and the current speed. */
  function EngineArgv(exe: string, voiceDir: string, voice: Voice, lengthScale: string): (argv: seq<string>)
    ensures |argv| == 8 && argv[0] == exe
  {
    [exe, "--model", PathJoin(voiceDir, voice.model), "--config", PathJoin(voiceDir, voice.config),
     "--length-scale", lengthScale, "--output-raw"]
  }

  /** Every check made before a subprocess is started passes. */
  predicate ReadyToLaunch(s: Settings, w: World) {
    && s.engine.Some?
    && Language(s, w) in s.catalog
    && PathJoin(s.voiceDir, s.catalog[Language(s, w)].model) in w.existing
  }

  function EngineCommand(s: Settings, w: World): seq<string>
    requires s.engine.Some? && Language(s, w) in s.catalog
  {
    EngineArgv(s.engine.value, s.voiceDir, s.catalog[Language(s, w)], s.lengthScale)
  }

  predicate EngineSucceeded(w: World) {
    w.engineRun.Exited? && w.engineRun.status == 0
  }

  predicate PlayerSucceeded(w: World) {
    w.playerRun.Exited? && w.playerRun.status == 0
  }

  /** The exception `subprocess.run(argv, ..., check=True)` raises, if any; `captured`
      says whether standard error was captured (it is for the engine, not for the player). */
  function RunFailure(r: RunResult, argv: seq<string>, captured: bool): (f: Option<Failure>)
    requires |argv| > 0
    ensures f.None? <==> r.Exited? && r.status == 0
    ensures f.Some? ==> !f.value.EngineMissing? && !f.value.ModelMissing?
  {
    match r
    case CommandNotFound => Some(DependencyMissing(argv[0]))
    case OsFailure(m) => Some(Unexpected(m))
    case Exited(status, _, err) =>
      if status == 0 then None else Some(ProcessFailed(if captured then Some(err) else None))
  }

  /** The first stage of the run that fails, if any. */
  function FirstFailure(s: Settings, w: World): (f: Option<Failure>)
    ensures f.None? <==> ReadyToLaunch(s, w) && EngineSucceeded(w) && PlayerSucceeded(w)
    ensures !ReadyToLaunch(s, w) ==> f.Some? && !f.value.ProcessFailed? && !f.value.DependencyMissing?
  {
    if s.engine.None? then Some(EngineMissing)
    else if Language(s, w) !in s.catalog then Some(Unexpected(KeyErrorText(Language(s, w))))
    else if !ReadyToLaunch(s, w) then Some(ModelMissing(Language(s, w)))
    else if !EngineSucceeded(w) then RunFailure(w.engineRun, EngineCommand(s, w), true)
    else RunFailure(w.playerRun, PlayerArgv, false)
  }

  /** The subprocesses the run starts: the engine once every check passed, fed the
      text; the player only after the engine succeeded, fed the engine's output. */
  function Launched(text: string, s: Settings, w: World): (l: seq<Event>)
    ensures |l| <= 2 && forall k :: 0 <= k < |l| ==> l[k].Launch?
  {
    if !ReadyToLaunch(s, w) then []
    else [Launch(EngineCommand(s, w), TextInput(text))]
         + (if EngineSucceeded(w) then [Launch(PlayerArgv, AudioInput(w.engineRun.stdout))] else [])
  }

  /** The notification scheduled for a failure. */
  function Notice(f: Failure, voiceDir: string): (e: Event)
    ensures e.Notify?
  {
    match f
    case EngineMissing => Notify("Piper TTS not found", "Install piper and ensure it is in your PATH.")
    case ModelMissing(lang) => Notify("Missing model: " + lang, "File not found in " + voiceDir)
    case DependencyMissing(cmd) =>
      Notify("Dependency Error", "Missing command: " + cmd + ". Install 'aplay' (alsa-utils).")
    case ProcessFailed(d) => Notify("Synthesis Error", if d.Some? then d.value else "")
    case Unexpected(m) => Notify("Unexpected Error", m)
  }

  /** The icon change made once the engine is known to be there. */
  function BusyPrefix(s: Settings): (r: seq<Event>)
    ensures forall k :: 0 <= k < |r| ==> r[k] == SetIcon(BusyIcon)
  {
    if s.engine.Some? then [SetIcon(BusyIcon)] else []
  }

  function Reported(f: Option<Failure>, voiceDir: string): (r: seq<Event>)
    ensures |r| <= 1 && forall k :: 0 <= k < |r| ==> r[k].Notify?
  {
    if f.Some? then [Notice(f.value, voiceDir)] else []
  }

  /** Everything a run that acquired the lock records: the busy icon once the engine is
      known, the launches, at most one notification, and the idle icon last. */
  function Trace(text: string, s: Settings, w: World): (t: seq<Event>)
    ensures |t| >= 1 && t[|t| - 1] == SetIcon(IdleIcon)
  {
    BusyPrefix(s)
    + Launched(text, s, w)
    + Reported(FirstFailure(s, w), s.voiceDir)
    + [SetIcon(IdleIcon)]
  }

  /** The handlers as written: for the player, `e.stderr` is None, so the handler's
      `e.stderr.decode(...)` raises `AttributeError`; the `finally` block still runs,
      but no notification is scheduled and the exception ends the worker thread. */
  function ReportedAsWritten(f: Option<Failure>, voiceDir: string): (r: seq<Event>)
    ensures |r| <= 1 && forall k :: 0 <= k < |r| ==> r[k].Notify?
    ensures r == [] <==> f.None? || f == Some(ProcessFailed(None))
  {
    if f == Some(ProcessFailed(None)) then [] else Reported(f, voiceDir)
  }

  function TraceAsWritten(text: string, s: Settings, w: World): (t: seq<Event>)
    ensures |t| >= 1 && t[|t| - 1] == SetIcon(IdleIcon)
  {
    BusyPrefix(s)
    + Launched(text, s, w)
    + ReportedAsWritten(FirstFailure(s, w), s.voiceDir)
    + [SetIcon(IdleIcon)]
  }

  /** A log grown by the stages of a run, one after the other, has grown by its trace. */
  lemma TraceSplits(before: seq<Event>, text: string, s: Settings, w: World,
                    attempted: seq<Event>, reported: seq<Event>, after: seq<Event>)
    requires attempted == before + BusyPrefix(s) + Launched(text, s, w)
    requires reported == attempted + Reported(FirstFailure(s, w), s.voiceDir)
    requires after == reported + [SetIcon(IdleIcon)]
    ensures after == before + Trace(text, s, w)
  {
  }

  /** A failed run schedules exactly one notification, the one for its failure; a
      successful run schedules none. */
  lemma OneNoticePerFailedRun(text: string, s: Settings, w: World)
    ensures NoticesIn(Trace(text, s, w)) == Reported(FirstFailure(s, w), s.voiceDir)
    ensures |NoticesIn(Trace(text, s, w))| == if FirstFailure(s, w).Some? then 1 else 0
  {
    NoticesInThirdOfFour(BusyPrefix(s), Launched(text, s, w), Reported(FirstFailure(s, w), s.voiceDir),
                         [SetIcon(IdleIcon)]);
  }

  /** The launches in a run's trace are exactly the ones the run reached. */
  lemma LaunchesInTrace(text: string, s: Settings, w: World)
    ensures LaunchesIn(Trace(text, s, w)) == Launched(text, s, w)
  {
    LaunchesInSecondOfFour(BusyPrefix(s), Launched(text, s, w), Reported(FirstFailure(s, w), s.voiceDir),
                           [SetIcon(IdleIcon)]);
  }

  /** Subprocesses are started only once the engine, the language's voice and its model
      file are all there; the engine comes first, with the model and config paths under
      the voice directory and the current length scale, fed the text; the player follows
      only after the engine exited with status 0, at the fixed raw format, fed the
      engine's output. */
  lemma LaunchesFollowChecks(text: string, s: Settings, w: World)
    ensures LaunchesIn(Trace(text, s, w)) != [] <==> ReadyToLaunch(s, w)
    ensures ReadyToLaunch(s, w) ==>
              var voice := s.catalog[Language(s, w)];
              LaunchesIn(Trace(text, s, w))[0]
                == Launch([s.engine.value, "--model", PathJoin(s.voiceDir, voice.model),
                           "--config", PathJoin(s.voiceDir, voice.config),
                           "--length-scale", s.lengthScale, "--output-raw"], TextInput(text))
    ensures |LaunchesIn(Trace(text, s, w))| == 2 <==> ReadyToLaunch(s, w) && EngineSucceeded(w)
    ensures |LaunchesIn(Trace(text, s, w))| == 2 ==>
              LaunchesIn(Trace(text, s, w))[1] == Launch(PlayerArgv, AudioInput(w.engineRun.stdout))
  {
    LaunchesInTrace(text, s, w);
  }

  /** A run fails before any subprocess is started exactly when the engine is missing,
      the voice lookup fails, or the model file is missing. */
  lemma EarlyFailuresLaunchNothing(text: string, s: Settings, w: World)
    ensures FirstFailure(s, w) == Some(EngineMissing) ==> LaunchesIn(Trace(text, s, w)) == []
    ensures FirstFailure(s, w).Some? && FirstFailure(s, w).value.ModelMissing?
            ==> LaunchesIn(Trace(text, s, w)) == []
    ensures !ReadyToLaunch(s, w) ==> FirstFailure(s, w).Some?
  {
    LaunchesInTrace(text, s, w);
    if !ReadyToLaunch(s, w) {
      assert Launched(text, s, w) == [];
    }
  }

  /** A run succeeds exactly when every check passes and both subprocesses exit with
      status 0; it then shows the busy icon, starts the engine and the player, and
      restores the idle icon, with no notification. */
  lemma SuccessfulRun(text: string, s: Settings, w: World)
    ensures FirstFailure(s, w).None? <==> ReadyToLaunch(s, w) && EngineSucceeded(w) && PlayerSucceeded(w)
    ensures FirstFailure(s, w).None? ==>
              Trace(text, s, w) == [SetIcon(BusyIcon), Launch(EngineCommand(s, w), TextInput(text)),
                                    Launch(PlayerArgv, AudioInput(w.engineRun.stdout)), SetIcon(IdleIcon)]
  {
  }

  /** The summary of a notification tells which failure it reports, and for a missing
      model, which language: no two kinds of failure share a summary. */
  lemma NoticeIdentifiesFailure(f1: Failure, f2: Failure, voiceDir: string)
    requires Notice(f1, voiceDir).summary == Notice(f2, voiceDir).summary
    ensures f1.EngineMissing? <==> f2.EngineMissing?
    ensures f1.ModelMissing? <==> f2.ModelMissing?
    ensures f1.DependencyMissing? <==> f2.DependencyMissing?
    ensures f1.ProcessFailed? <==> f2.ProcessFailed?
    ensures f1.Unexpected? <==> f2.Unexpected?
    ensures f1.ModelMissing? && f2.ModelMissing? ==> f1.lang == f2.lang
  {
    var m1, m2 := Notice(f1, voiceDir).summary, Notice(f2, voiceDir).summary;
    // the summaries start with different letters: P, M, D, S and U
    assert m1[0] == m2[0];
    if f1.ModelMissing? && f2.ModelMissing? {
      var p := "Missing model: ";
      assert m1[|p|..] == f1.lang && m2[|p|..] == f2.lang;
    }
  }

  /** Whatever the indicator showed before, once the scheduled actions of a run have
      been carried out it shows the idle icon. */
  lemma TraceLeavesIdleIcon(initial: string, prior: seq<Event>, text: string, s: Settings, w: World)
    ensures IconAfter(initial, prior + Trace(text, s, w)) == IdleIcon
  {
    var t := Trace(text, s, w);
    assert prior + t == (prior + t[..|t| - 1]) + [SetIcon(IdleIcon)];
    IconAfterLast(initial, prior + t[..|t| - 1], IdleIcon);
  }

  /** An installation with the built-in catalog and the English model, where the engine
      succeeds on English text and the player exits with status 1. */
  function PlayerFailsSettings(): Settings {
    Settings(Some("/usr/bin/piper"), DefaultCatalog(), "/v", "1.0")
  }

  function PlayerFailsWorld(): World {
    World(Detected("en"), {PathJoin("/v", "en_US-amy-medium.onnx")},
          Exited(0, [1, 2], ""), Exited(1, [], ""))
  }

  /** In that installation every check passes, the engine succeeds and the run fails in the player. */
  lemma PlayerFailsInPlayer()
    ensures ReadyToLaunch(PlayerFailsSettings(), PlayerFailsWorld())
    ensures EngineSucceeded(PlayerFailsWorld())
    ensures FirstFailure(PlayerFailsSettings(), PlayerFailsWorld()) == Some(ProcessFailed(None))
  {
    var s, w := PlayerFailsSettings(), PlayerFailsWorld();
    DefaultCatalogEnglish();
    assert Prefix("en", 2) == "en";
    assert Language(s, w) == "en";
  }

  /** As written, every run whose player exits with a non-zero status fails, yet schedules
      no notification; the corrected handlers schedule one. */
  lemma PlaybackFailureUnreported(text: string, s: Settings, w: World)
    requires ReadyToLaunch(s, w) && EngineSucceeded(w)
    requires w.playerRun.Exited? && w.playerRun.status != 0
    ensures FirstFailure(s, w) == Some(ProcessFailed(None))
    ensures NoticesIn(TraceAsWritten(text, s, w)) == []
    ensures |NoticesIn(Trace(text, s, w))| == 1
  {
    NoticesInThirdOfFour(BusyPrefix(s), Launched(text, s, w), [], [SetIcon(IdleIcon)]);
    assert TraceAsWritten(text, s, w) == BusyPrefix(s) + Launched(text, s, w) + [] + [SetIcon(IdleIcon)];
    OneNoticePerFailedRun(text, s, w);
  }

  /** A concrete run that shows it: English text, the built-in catalog, the engine
      succeeds and `aplay` exits with status 1. */
  lemma PlaybackFailureUnreportedAsWritten()
    ensures FirstFailure(PlayerFailsSettings(), PlayerFailsWorld()).Some?
    ensures NoticesIn(TraceAsWritten("hello", PlayerFailsSettings(), PlayerFailsWorld())) == []
    ensures |NoticesIn(Trace("hello", PlayerFailsSettings(), PlayerFailsWorld()))| == 1
  {
    PlayerFailsInPlayer();
    PlaybackFailureUnreported("hello", PlayerFailsSettings(), PlayerFailsWorld());
  }

  /** The as-written handlers and the reporting the model uses differ only for a player
      that exits with a non-zero status. */
  lemma AsWrittenDiffersOnlyForPlayer(text: string, s: Settings, w: World)
    ensures TraceAsWritten(text, s, w) != Trace(text, s, w)
            <==> ReadyToLaunch(s, w) && EngineSucceeded(w) && w.playerRun.Exited? && w.playerRun.status != 0
  {
    if FirstFailure(s, w) == Some(ProcessFailed(None)) {
      assert |Trace(text, s, w)| == |TraceAsWritten(text, s, w)| + 1;
    }
  }

  /** The worker and the state it shares with the rest of the program: the lock
      (`speaking_lock`), the indicator icon last requested, and the log of what
      has been scheduled or started. */
  class Speaker {
    var locked: bool
    var icon: string
    var log: seq<Event>

    /** The requested icon is the one the indicator shows once everything logged has run. */
    predicate Valid()
      reads this
    {
      icon == IconAfter(IdleIcon, log)
    }

    constructor ()
      ensures !locked && icon == IdleIcon && log == []
      ensures Valid()
    {
      locked := false;
      icon := IdleIcon;
      log := [];
    }

    /** `speaking_lock.acquire(blocking=False)`. */
    method TryAcquire() returns (acquired: bool)
      modifies this`locked
      ensures acquired == !old(locked) && locked
    {
      acquired := !locked;
      locked := true;
    }

    /** `speaking_lock.release()`; releasing a lock that is not held is an error. */
    method Release()
      requires locked
      modifies this`locked
      ensures !locked
    {
      locked := false;
    }

    /** Append to the log; an icon change also becomes the requested icon. */
    method Record(e: Event)
      modifies this`log, this`icon
      ensures log == old(log) + [e]
      ensures icon == if e.SetIcon? then e.name else old(icon)
    {
      log := log + [e];
      if e.SetIcon? {
        icon := e.name;
      }
    }

    /** Call `subprocess.run(argv, ..., check=True)`: record the call, and report how it ended. */
    method Run(argv: seq<string>, input: Input, result: RunResult, captured: bool)
      returns (failure: Option<Failure>)
      requires |argv| > 0
      modifies this`log, this`icon
      ensures log == old(log) + [Launch(argv, input)] && icon == old(icon)
      ensures failure == RunFailure(result, argv, captured)
    {
      Record(Launch(argv, input));
      failure := RunFailure(result, argv, captured);
    }

    /** The end of the worker's `try` block, once every check passed: run the engine on
        the text, then the player on the engine's output. */
    method RunPipeline(text: string, s: Settings, w: World) returns (failure: Option<Failure>)
      requires ReadyToLaunch(s, w)
      modifies this`log, this`icon
      ensures log == old(log) + Launched(text, s, w) && icon == old(icon)
      ensures failure == FirstFailure(s, w)
    {
      var engine := Launch(EngineCommand(s, w), TextInput(text));
      failure := Run(EngineCommand(s, w), TextInput(text), w.engineRun, true);
      if failure.None? {
        assert EngineSucceeded(w);
        assert Launched(text, s, w) == [engine, Launch(PlayerArgv, AudioInput(w.engineRun.stdout))];
        failure := Run(PlayerArgv, AudioInput(w.engineRun.stdout), w.playerRun, false);
      } else {
        assert !EngineSucceeded(w);
        assert Launched(text, s, w) == [engine];
      }
    }

    /** The part of the worker's `try` block that follows the engine check: resolve the
        language, look the voice up, check the model file, then run the engine and the player. */
    method SpeakWithEngine(text: string, s: Settings, w: World) returns (failure: Option<Failure>)
      requires s.engine.Some?
      modifies this`log, this`icon
      ensures log == old(log) + Launched(text, s, w) && icon == old(icon)
      ensures failure == FirstFailure(s, w)
    {
      var lang := ResolveLanguage(w.detection, s.catalog);
      if lang !in s.catalog {
        return Some(Unexpected(KeyErrorText(lang)));
      }
      var voice := s.catalog[lang];
      if PathJoin(s.voiceDir, voice.model) !in w.existing {
        return Some(ModelMissing(lang));
      }
      failure := RunPipeline(text, s, w);
    }

    /** The worker's `try` block: everything up to the handlers. */
    method Attempt(text: string, s: Settings, w: World) returns (failure: Option<Failure>)
      modifies this`log, this`icon
      ensures log == old(log) + BusyPrefix(s) + Launched(text, s, w)
      ensures icon == if s.engine.Some? then BusyIcon else old(icon)
      ensures failure == FirstFailure(s, w)
    {
      if s.engine.None? {
        return Some(EngineMissing);
      }
      Record(SetIcon(BusyIcon));
      failure := SpeakWithEngine(text, s, w);
    }

    /** The handlers: schedule the notification for the failure, if there was one. */
    method Report(failure: Option<Failure>, voiceDir: string)
      modifies this`log, this`icon
      ensures log == old(log) + Reported(failure, voiceDir) && icon == old(icon)
    {
      if failure.Some? {
        Record(Notice(failure.value, voiceDir));
      }
    }

    /** The worker's `try` block with its handlers and the icon reset of its `finally`
        block: the run records exactly its trace. */
    method SpeakHoldingLock(text: string, s: Settings, w: World)
      modifies this`log, this`icon
      ensures log == old(log) + Trace(text, s, w) && icon == IdleIcon
    {
      ghost var before := log;
      var failure := Attempt(text, s, w);
      ghost var attempted := log;
      Report(failure, s.voiceDir);
      ghost var reported := log;
      Record(SetIcon(IdleIcon));
      TraceSplits(before, text, s, w, attempted, reported, log);
    }

    /** `speak(text)`. A request that finds the lock held changes nothing. Otherwise the
        run records exactly its trace, and leaves the lock free and the icon idle. */
    method Speak(text: string, s: Settings, w: World)
      requires Valid()
      modifies this
      ensures Valid()
      ensures old(locked) ==> locked && icon == old(icon) && log == old(log)
      ensures !old(locked) ==> !locked && icon == IdleIcon && log == old(log) + Trace(text, s, w)
    {
      var acquired := TryAcquire();
      if !acquired {
        return;
      }
      ghost var before := log;
      SpeakHoldingLock(text, s, w);
      TraceLeavesIdleIcon(IdleIcon, before, text, s, w);
      Release();
    }
  }
}
