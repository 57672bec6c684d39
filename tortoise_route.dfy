/** The `/api/tortoise-tts` handler of server.js: the cached output file named after the
    text's md5, the checks made before a Python process is spawned, the `sendResponse`
    guard that answers a request at most once whatever the order of the process's close,
    error and timeout events, and the classification of a failed run.

    md5 is a parameter (`md5: string -> string`) about which nothing is assumed; the
    existence of files is a set of names; the process and the timers are the events
    that drive the `TortoiseRequest` class. */
module TortoiseRoute {
  import opened Wrappers
  import opened Text

  /** A reply the handler sends: a file, or a JSON error body. */
  datatype Reply =
    | SendFile(path: string)
    | Json(status: int, error: string, details: Option<string>, exitCode: Option<Exit>,
           suggestion: Option<string>)

  /** How the process ended: with an exit code, or killed by a signal (`code` is null). */
  datatype Exit = Exited(code: int) | Signalled

  datatype Signal = SIGTERM | SIGKILL

  const OutputDir := "output"
  const DefaultVoice := "goggins"
  const DefaultPreset := "fast"

  /** JavaScript's `v || d` on an optional string: absent and empty both give `d`. */
  function OrDefault(v: Option<string>, d: string): (r: string)
    ensures v.Some? && v.value != "" ==> r == v.value
    ensures v.None? || v.value == "" ==> r == d
  {
    if v.Some? && v.value != "" then v.value else d
  }

  /** `${textHash}_${voiceStr}_${presetStr}.wav` */
  function OutputFilename(textHash: string, voice: Option<string>, preset: Option<string>): (name: string)
  {
    textHash + "_" + OrDefault(voice, DefaultVoice) + "_" + OrDefault(preset, DefaultPreset) + ".wav"
  }

  function OutputPath(name: string): string
  {
    OutputDir + "/" + name
  }

  /** The file name has the hash in front, the defaults in place of absent parts, and the
      `.wav` extension. */
  lemma OutputFilenameShape(textHash: string, voice: Option<string>, preset: Option<string>)
    ensures IsPrefix(textHash + "_", OutputFilename(textHash, voice, preset))
    ensures IsSuffix(".wav", OutputFilename(textHash, voice, preset))
    ensures OutputFilename(textHash, None, None) == textHash + "_goggins_fast.wav"
    ensures OutputFilename(textHash, Some(""), Some("")) == OutputFilename(textHash, None, None)
  {
    var name := OutputFilename(textHash, voice, preset);
    var v := OrDefault(voice, DefaultVoice);
    var p := OrDefault(preset, DefaultPreset);
    assert name == (textHash + "_") + (v + "_" + p + ".wav");
    assert name == (textHash + "_" + v + "_" + p) + ".wav";
  }

  predicate NoUnderscore(s: string)
  {
    forall i | 0 <= i < |s| :: s[i] != '_'
  }

  lemma {:induction false} SplitWithoutSeparator(s: string, sep: char)
    requires forall i | 0 <= i < |s| :: s[i] != sep
    ensures Split(s, sep) == [s]
    decreases |s|
  {
    if |s| > 0 {
      SplitWithoutSeparator(s[1..], sep);
      assert [s[0]] + s[1..] == s;
    }
  }

  lemma {:induction false} SplitAtFirstSeparator(a: string, b: string, sep: char)
    requires forall i | 0 <= i < |a| :: a[i] != sep
    ensures Split(a + [sep] + b, sep) == [a] + Split(b, sep)
    decreases |a|
  {
    var s := a + [sep] + b;
    if |a| == 0 {
      assert s[1..] == b;
    } else {
      assert s[1..] == a[1..] + [sep] + b;
      SplitAtFirstSeparator(a[1..], b, sep);
      assert [s[0]] + a[1..] == a;
    }
  }

  /** For one text, the cache file names two requests by the same voice and preset only
      when neither holds an underscore; then equal names mean equal choices. */
  lemma FilenameDeterminesChoices(textHash: string, v1: Option<string>, p1: Option<string>,
                                  v2: Option<string>, p2: Option<string>)
    requires NoUnderscore(OrDefault(v1, DefaultVoice)) && NoUnderscore(OrDefault(p1, DefaultPreset))
    requires NoUnderscore(OrDefault(v2, DefaultVoice)) && NoUnderscore(OrDefault(p2, DefaultPreset))
    requires OutputFilename(textHash, v1, p1) == OutputFilename(textHash, v2, p2)
    ensures OrDefault(v1, DefaultVoice) == OrDefault(v2, DefaultVoice)
    ensures OrDefault(p1, DefaultPreset) == OrDefault(p2, DefaultPreset)
  {
    var a1, c1 := OrDefault(v1, DefaultVoice), OrDefault(p1, DefaultPreset);
    var a2, c2 := OrDefault(v2, DefaultVoice), OrDefault(p2, DefaultPreset);
    var h := textHash + "_";
    assert OutputFilename(textHash, v1, p1) == h + (a1 + "_" + c1) + ".wav";
    assert OutputFilename(textHash, v2, p2) == h + (a2 + "_" + c2) + ".wav";
    SameFrame(h, a1 + "_" + c1, a2 + "_" + c2, ".wav");
    SeparatedPairDetermines(a1, c1, a2, c2);
  }

  lemma SameFrame(h: string, x: string, y: string, t: string)
    requires h + x + t == h + y + t
    ensures x == y
  {
    assert x == (h + x + t)[|h|..|h| + |x|];
    assert y == (h + y + t)[|h|..|h| + |y|];
  }

  /** Two underscore-free parts joined by '_' can be read back from the join. */
  lemma SeparatedPairDetermines(a1: string, b1: string, a2: string, b2: string)
    requires NoUnderscore(a1) && NoUnderscore(b1) && NoUnderscore(a2) && NoUnderscore(b2)
    requires a1 + "_" + b1 == a2 + "_" + b2
    ensures a1 == a2 && b1 == b2
  {
    SplitAtFirstSeparator(a1, b1, '_');
    SplitAtFirstSeparator(a2, b2, '_');
    SplitWithoutSeparator(b1, '_');
    SplitWithoutSeparator(b2, '_');
    assert [a1] + [b1] == [a2] + [b2];
    assert a1 == ([a1] + [b1])[0] && b1 == ([a1] + [b1])[1];
  }

  /** Without that condition the name is ambiguous: voice "goggins_ultra" with preset
      "fast" and voice "goggins" with preset "ultra_fast" share one cache file, so one
      request can be answered with the audio cached for the other. */
  lemma FilenameCollision(textHash: string)
    ensures OutputFilename(textHash, Some("goggins_ultra"), Some("fast"))
         == OutputFilename(textHash, Some("goggins"), Some("ultra_fast"))
  {
    assert "goggins_ultra" + "_" + "fast" == "goggins" + "_" + "ultra_fast";
    assert OutputFilename(textHash, Some("goggins_ultra"), Some("fast"))
        == textHash + "_" + ("goggins_ultra" + "_" + "fast") + ".wav";
    assert OutputFilename(textHash, Some("goggins"), Some("ultra_fast"))
        == textHash + "_" + ("goggins" + "_" + "ultra_fast") + ".wav";
  }

  // ---------------------------------------------------------------------------------------
  // Before the process is spawned

  datatype Start =
    | Respond(reply: Reply)
    | Spawn(name: string, args: seq<string>)

  const ScriptPath := "generate_speech.py"
  const VoiceSamplesDir := "voice_samples"

  predicate TextMissing(text: Option<string>)
  {
    text.None? || text.value == ""
  }

  /** What the handler does with a request before any process runs: 400 without text;
      the cached file when one exists under the name; 500 when the script or the voice
      samples are missing; otherwise a spawn of the script with the text, the samples
      directory, the file name and the preset as `--quality`. */
  function Prepare(text: Option<string>, voice: Option<string>, preset: Option<string>,
                   md5: string -> string, outputFiles: set<string>, scriptPresent: bool,
                   samplesPresent: bool): (r: Start)
    ensures TextMissing(text) ==> r == Respond(Json(400, "Text is required", None, None, None))
    ensures !TextMissing(text) ==>
      var name := OutputFilename(md5(text.value), voice, preset);
      && (name in outputFiles ==> r == Respond(SendFile(OutputPath(name))))
      && (r.Spawn? <==> name !in outputFiles && scriptPresent && samplesPresent)
      && (r.Spawn? ==> r.name == name
                       && r.args == [ScriptPath, "--text", text.value, "--voice_dir", VoiceSamplesDir,
                                     "--output", name, "--quality", OrDefault(preset, DefaultPreset)])
  {
    if TextMissing(text) then Respond(Json(400, "Text is required", None, None, None))
    else
      var name := OutputFilename(md5(text.value), voice, preset);
      if name in outputFiles then Respond(SendFile(OutputPath(name)))
      else if !scriptPresent then
        Respond(Json(500, "Tortoise-TTS not configured", Some("Python script not found"), None, None))
      else if !samplesPresent then
        Respond(Json(500, "Voice samples not found",
                     Some("Run clone_voice.py first to create voice samples"), None, None))
      else Spawn(name, [ScriptPath, "--text", text.value, "--voice_dir", VoiceSamplesDir,
                        "--output", name, "--quality", OrDefault(preset, DefaultPreset)])
  }

  /** A request whose file is already there is answered from the cache whatever the
      state of the script and the samples, and no process is spawned. */
  lemma CachedFileSkipsSpawn(text: string, voice: Option<string>, preset: Option<string>,
                             md5: string -> string, outputFiles: set<string>,
                             scriptPresent: bool, samplesPresent: bool)
    requires text != "" && OutputFilename(md5(text), voice, preset) in outputFiles
    ensures !Prepare(Some(text), voice, preset, md5, outputFiles, scriptPresent, samplesPresent).Spawn?
    ensures Prepare(Some(text), voice, preset, md5, outputFiles, scriptPresent, samplesPresent)
         == Prepare(Some(text), voice, preset, md5, outputFiles, true, true)
  {
  }

  // ---------------------------------------------------------------------------------------
  // Classifying a failed run

  const MissingModules := "Missing required Python modules for Tortoise-TTS"
  const CudaIssue := "CUDA/GPU issue with Tortoise-TTS"
  const VoiceDirIssue := "Voice samples directory issue"
  const ProcessFailed := "Python process failed"

  /** A line the classification may report: it mentions "Error" and is not a
      FutureWarning. */
  predicate IsErrorLine(line: string)
  {
    Contains(line, "Error") && !Contains(line, "FutureWarning")
  }

  /** `lines.filter(line => line.includes('Error') && !line.includes('FutureWarning'))` */
  function ErrorLines(lines: seq<string>): (r: seq<string>)
    ensures |r| <= |lines|
    ensures forall k | 0 <= k < |r| :: IsErrorLine(r[k]) && r[k] in lines
    ensures forall k | 0 <= k < |lines| :: IsErrorLine(lines[k]) ==> lines[k] in r
  {
    if lines == [] then []
    else (if IsErrorLine(lines[0]) then [lines[0]] else []) + ErrorLines(lines[1..])
  }

  /** The first line the filter keeps is the earliest error line of the input. */
  lemma {:induction false} FirstErrorLineIsEarliest(lines: seq<string>)
    requires ErrorLines(lines) != []
    ensures exists k | 0 <= k < |lines| ::
              lines[k] == ErrorLines(lines)[0] && forall j | 0 <= j < k :: !IsErrorLine(lines[j])
  {
    if IsErrorLine(lines[0]) {
      assert lines[0] == ErrorLines(lines)[0];
    } else {
      assert ErrorLines(lines) == ErrorLines(lines[1..]);
      FirstErrorLineIsEarliest(lines[1..]);
      var k :| 0 <= k < |lines[1..]| && lines[1..][k] == ErrorLines(lines[1..])[0]
               && forall j | 0 <= j < k :: !IsErrorLine(lines[1..][j]);
      assert lines[k + 1] == ErrorLines(lines)[0];
      assert forall j | 0 <= j < k + 1 :: !IsErrorLine(lines[j]) by {
        forall j | 0 <= j < k + 1 ensures !IsErrorLine(lines[j]) {
          if j > 0 { assert lines[j] == lines[1..][j - 1]; }
        }
      }
    }
  }

  /** The `details` of a nonzero exit, from the collected stdout and stderr. */
  function Classify(stdout: string, stderr: string): string
  {
    if Contains(stderr, "ModuleNotFoundError") then MissingModules
    else if Contains(stderr, "CUDA") then CudaIssue
    else if Contains(stderr, "voice_dir") then VoiceDirIssue
    else if Contains(stdout, "Error") || Contains(stderr, "Error") then
      var errorLines := ErrorLines(Split(stdout + stderr, '\n'));
      if |errorLines| > 0 then Trim(errorLines[0]) else ProcessFailed
    else ProcessFailed
  }

  /** The precedence of the classification: a missing module, then CUDA, then the voice
      directory, each looked for in stderr only; then the first error line of stdout
      followed by stderr, trimmed; "Python process failed" otherwise. */
  lemma ClassifyPrecedence(stdout: string, stderr: string)
    ensures Contains(stderr, "ModuleNotFoundError") ==> Classify(stdout, stderr) == MissingModules
    ensures (!Contains(stderr, "ModuleNotFoundError") && Contains(stderr, "CUDA"))
            ==> Classify(stdout, stderr) == CudaIssue
    ensures (!Contains(stderr, "ModuleNotFoundError") && !Contains(stderr, "CUDA")
             && Contains(stderr, "voice_dir"))
            ==> Classify(stdout, stderr) == VoiceDirIssue
    ensures (!Contains(stdout, "Error") && !Contains(stderr, "Error")
             && !Contains(stderr, "ModuleNotFoundError") && !Contains(stderr, "CUDA")
             && !Contains(stderr, "voice_dir"))
            ==> Classify(stdout, stderr) == ProcessFailed
  {
  }

  /** `r` is the trimmed earliest error line of `lines`. */
  predicate ReportsEarliestErrorLine(r: string, lines: seq<string>)
  {
    exists k | 0 <= k < |lines| ::
      r == Trim(lines[k]) && IsErrorLine(lines[k]) && forall j | 0 <= j < k :: !IsErrorLine(lines[j])
  }

  /** When no keyword of stderr decides: if stdout or stderr mentions "Error" and some line
      of stdout followed by stderr passes the filter, the details are the earliest such
      line, trimmed; otherwise they are "Python process failed". */
  lemma ClassifyReportsEarliestErrorLine(stdout: string, stderr: string)
    requires !Contains(stderr, "ModuleNotFoundError") && !Contains(stderr, "CUDA")
    requires !Contains(stderr, "voice_dir")
    ensures var lines := Split(stdout + stderr, '\n');
      (Contains(stdout, "Error") || Contains(stderr, "Error")) && ErrorLines(lines) != []
      ==> ReportsEarliestErrorLine(Classify(stdout, stderr), lines)
    ensures var lines := Split(stdout + stderr, '\n');
      !((Contains(stdout, "Error") || Contains(stderr, "Error")) && ErrorLines(lines) != [])
      ==> Classify(stdout, stderr) == ProcessFailed
  {
    var lines := Split(stdout + stderr, '\n');
    var errorLines := ErrorLines(lines);
    if (Contains(stdout, "Error") || Contains(stderr, "Error")) && errorLines != [] {
      assert Classify(stdout, stderr) == Trim(errorLines[0]);
      FirstErrorLineIsEarliest(lines);
      var k :| 0 <= k < |lines| && lines[k] == errorLines[0]
               && forall j | 0 <= j < k :: !IsErrorLine(lines[j]);
      assert IsErrorLine(lines[k]);
      assert ReportsEarliestErrorLine(Classify(stdout, stderr), lines);
    }
  }

  /** What the first `close` listener sends: the file after a clean exit that left it, a
      500 when it did not, and otherwise a 500 whose details classify the output. */
  function CloseReply(exit: Exit, outputExists: bool, name: string, stdout: string,
                      stderr: string): (r: Reply)
    ensures r.SendFile? <==> exit == Exited(0) && outputExists
    ensures r.SendFile? ==> r.path == OutputPath(name)
    ensures r.Json? ==> r.status == 500
    ensures exit != Exited(0) ==> r.Json? && r.exitCode == Some(exit)
                                  && r.details == Some(Classify(stdout, stderr))
  {
    if exit == Exited(0) then
      if outputExists then SendFile(OutputPath(name))
      else Json(500, "Failed to generate speech file",
                Some("Output file was not created despite successful completion"), None, None)
    else Json(500, "Failed to generate speech with Tortoise-TTS", Some(Classify(stdout, stderr)),
              Some(exit), None)
  }

  function ErrorReply(message: string): (r: Reply)
    ensures r.Json? && r.status == 500 && r.details == Some(message)
  {
    Json(500, "Failed to start Tortoise-TTS process", Some(message), None, None)
  }

  const TimeoutReply := Json(408, "Tortoise-TTS generation timeout",
                             Some("Speech generation took longer than 10 minutes"), None,
                             Some("This is normal for Tortoise-TTS. Consider using OpenAI voices for faster response."))

  /** The 10-minute timer, in milliseconds, and the grace before the forced kill. */
  const TimeoutMs := 600000
  const ForceKillDelayMs := 5000

  // ---------------------------------------------------------------------------------------
  // One spawned request

  /** The state a spawned request shares between its event listeners: `hasResponded`,
      the replies sent, the signals sent to the process, whether the timer was cleared,
      whether a forced kill is pending, the process's `killed` flag, which Node sets as
      soon as a signal is delivered, and whether the process has exited. */
  class TortoiseRequest {
    const name: string
    var hasResponded: bool
    var sent: seq<Reply>
    var signals: seq<Signal>
    var timerCleared: bool
    var forceKillPending: bool
    var killed: bool
    var exited: bool

    /** At most one reply, and `hasResponded` says whether it was sent. */
    ghost predicate Valid()
      reads this
    {
      |sent| <= 1 && (hasResponded <==> |sent| == 1)
    }

    constructor(name: string)
      ensures Valid() && this.name == name
      ensures !hasResponded && sent == [] && signals == []
      ensures !timerCleared && !forceKillPending && !killed && !exited
    {
      this.name := name;
      hasResponded := false;
      sent := [];
      signals := [];
      timerCleared := false;
      forceKillPending := false;
      killed := false;
      exited := false;
    }

    /** `sendResponse`: the first call sends, every later one is ignored. */
    method SendResponse(r: Reply)
      requires Valid()
      modifies this`hasResponded, this`sent
      ensures Valid() && hasResponded
      ensures sent == if old(hasResponded) then old(sent) else [r]
    {
      if hasResponded {
        return;
      }
      hasResponded := true;
      sent := sent + [r];
    }

    /** The process closed: the first listener answers by the exit status, the second
        clears the timer. */
    method OnClose(exit: Exit, outputExists: bool, stdout: string, stderr: string)
      requires Valid()
      modifies this`hasResponded, this`sent, this`timerCleared, this`exited
      ensures Valid() && hasResponded && timerCleared && exited
      ensures sent == if old(hasResponded) then old(sent)
                      else [CloseReply(exit, outputExists, name, stdout, stderr)]
    {
      SendResponse(CloseReply(exit, outputExists, name, stdout, stderr));
      timerCleared := true;
      exited := true;
    }

    /** The process could not be started. */
    method OnError(message: string)
      requires Valid()
      modifies this`hasResponded, this`sent
      ensures Valid() && hasResponded
      ensures sent == if old(hasResponded) then old(sent) else [ErrorReply(message)]
    {
      SendResponse(ErrorReply(message));
    }

    /** Ten minutes passed. A cleared timer never fires; a fired one does nothing once a
        reply is out, and otherwise sends SIGTERM, arms the forced kill and answers 408. */
    method OnTimeout(delivered: bool)
      requires Valid()
      modifies this`hasResponded, this`sent, this`signals, this`killed, this`forceKillPending
      ensures Valid()
      ensures timerCleared == old(timerCleared)
      ensures old(timerCleared) || old(hasResponded) ==>
        sent == old(sent) && signals == old(signals) && hasResponded == old(hasResponded)
        && forceKillPending == old(forceKillPending) && killed == old(killed)
      ensures !old(timerCleared) && !old(hasResponded) ==>
        sent == [TimeoutReply] && signals == old(signals) + [SIGTERM] && forceKillPending
        && killed == (old(killed) || delivered)
    {
      if timerCleared || hasResponded {
        return;
      }
      Kill(SIGTERM, delivered);
      forceKillPending := true;
      SendResponse(TimeoutReply);
    }

    /** `pythonProcess.kill(signal)`: `killed` turns true once a signal is delivered. */
    method Kill(s: Signal, delivered: bool)
      modifies this`signals, this`killed
      ensures signals == old(signals) + [s]
      ensures killed == (old(killed) || delivered)
    {
      signals := signals + [s];
      if delivered {
        killed := true;
      }
    }

    /** Five seconds after the timeout: SIGKILL unless `killed` is set. */
    method OnForceKill(delivered: bool)
      requires Valid()
      modifies this`signals, this`killed, this`forceKillPending
      ensures !forceKillPending
      ensures old(forceKillPending) && !old(killed) ==>
        signals == old(signals) + [SIGKILL] && killed == delivered
      ensures !old(forceKillPending) || old(killed) ==>
        signals == old(signals) && killed == old(killed)
    {
      if forceKillPending && !killed {
        Kill(SIGKILL, delivered);
      }
      forceKillPending := false;
    }

    /** The forced kill as evidently intended: SIGKILL while the process has not exited. */
    method OnForceKillIfRunning(delivered: bool)
      requires Valid()
      modifies this`signals, this`killed, this`forceKillPending
      ensures !forceKillPending
      ensures old(forceKillPending) && !exited ==>
        signals == old(signals) + [SIGKILL] && killed == (old(killed) || delivered)
      ensures !old(forceKillPending) || exited ==>
        signals == old(signals) && killed == old(killed)
    {
      if forceKillPending && !exited {
        Kill(SIGKILL, delivered);
      }
      forceKillPending := false;
    }
  }

  /** The timeout answers 408, a close afterwards sends nothing more, and the request
      holds one reply in total. */
  method TimeoutThenClose(name: string, exit: Exit, outputExists: bool, stdout: string,
                          stderr: string, delivered: bool)
    returns (replies: seq<Reply>)
    ensures replies == [TimeoutReply]
  {
    var req := new TortoiseRequest(name);
    req.OnTimeout(delivered);
    req.OnClose(exit, outputExists, stdout, stderr);
    replies := req.sent;
  }

  /** A close that comes first is the one reply; a timeout afterwards neither sends nor
      signals, since the close listener cleared the timer. */
  method CloseThenTimeout(name: string, exit: Exit, outputExists: bool, stdout: string,
                          stderr: string, delivered: bool)
    returns (replies: seq<Reply>, signals: seq<Signal>)
    ensures replies == [CloseReply(exit, outputExists, name, stdout, stderr)]
    ensures signals == []
  {
    var req := new TortoiseRequest(name);
    req.OnClose(exit, outputExists, stdout, stderr);
    req.OnTimeout(delivered);
    req.OnError("late");
    replies, signals := req.sent, req.signals;
  }

  /** Node sets `killed` as soon as SIGTERM is delivered, so the forced kill never
      follows a delivered SIGTERM, whether or not the process has exited. */
  method DeliveredTermNeverEscalates(name: string, termDelivered: bool, killDelivered: bool)
    returns (signals: seq<Signal>)
    ensures termDelivered ==> signals == [SIGTERM]
    ensures !termDelivered ==> signals == [SIGTERM, SIGKILL]
  {
    var req := new TortoiseRequest(name);
    req.OnTimeout(termDelivered);
    req.OnForceKill(killDelivered);
    signals := req.signals;
  }

  /** With the corrected check, a process still running five seconds after the timeout
      receives SIGKILL after SIGTERM, and one that has exited receives nothing more. */
  method RunningProcessIsForceKilled(name: string, termDelivered: bool, exitsInGrace: bool,
                                     exit: Exit, killDelivered: bool)
    returns (signals: seq<Signal>)
    ensures !exitsInGrace ==> signals == [SIGTERM, SIGKILL]
    ensures exitsInGrace ==> signals == [SIGTERM]
  {
    var req := new TortoiseRequest(name);
    req.OnTimeout(termDelivered);
    if exitsInGrace {
      req.OnClose(exit, false, "", "");
    }
    req.OnForceKillIfRunning(killDelivered);
    signals := req.signals;
  }
}

/** The `/api/tortoise-tts` router of tortoise-tts.js: the same cache-by-name scheme
    under `audio_cache`, a spawn of `tts.py`, and a single close listener. */
module TortoiseTtsRoute {
  import opened Wrappers
  import opened TortoiseRoute

  const AudioDir := "audio_cache"

  function AudioPath(name: string): string
  {
    AudioDir + "/" + name
  }

  /** The installation directory used when `TORTOISE_PATH` is unset or empty. */
  const DefaultTortoisePath := "/path/to/tortoise-tts"

  /** `path.join(process.env.TORTOISE_PATH || '/path/to/tortoise-tts', 'tts.py')` */
  function TtsScriptPath(tortoisePath: Option<string>): string
  {
    OrDefault(tortoisePath, DefaultTortoisePath) + "/tts.py"
  }

  /** 400 without text; the cached file when it exists; otherwise a spawn of `tts.py`
      from the installation directory `tortoisePath` (the `TORTOISE_PATH` variable) with
      the text, the voice, the preset and the output path. */
  function RoutePrepare(text: Option<string>, voice: Option<string>, preset: Option<string>,
                        tortoisePath: Option<string>, md5: string -> string,
                        audioFiles: set<string>): (r: Start)
    ensures TextMissing(text) ==> r == Respond(Json(400, "Text is required", None, None, None))
    ensures !TextMissing(text) ==>
      var name := OutputFilename(md5(text.value), voice, preset);
      && (r.Spawn? <==> name !in audioFiles)
      && (!r.Spawn? ==> r == Respond(SendFile(AudioPath(name))))
      && (r.Spawn? ==> r.args == [TtsScriptPath(tortoisePath), "--text", text.value,
                                  "--voice", OrDefault(voice, DefaultVoice),
                                  "--preset", OrDefault(preset, DefaultPreset),
                                  "--output_path", AudioPath(name)])
    ensures r.Spawn? && (tortoisePath.None? || tortoisePath == Some("")) ==>
      r.args[0] == "/path/to/tortoise-tts/tts.py"
  {
    if TextMissing(text) then Respond(Json(400, "Text is required", None, None, None))
    else
      var name := OutputFilename(md5(text.value), voice, preset);
      if name in audioFiles then Respond(SendFile(AudioPath(name)))
      else Spawn(name, [TtsScriptPath(tortoisePath), "--text", text.value,
                        "--voice", OrDefault(voice, DefaultVoice),
                        "--preset", OrDefault(preset, DefaultPreset),
                        "--output_path", AudioPath(name)])
  }

  /** A nonzero (or null) exit answers 500 with stderr as the details; a clean exit sends
      the file when it exists and 500 otherwise. */
  function RouteCloseReply(exit: Exit, outputExists: bool, name: string, stderr: string): (r: Reply)
    ensures r.SendFile? <==> exit == Exited(0) && outputExists
    ensures r.SendFile? ==> r.path == AudioPath(name)
    ensures r.Json? ==> r.status == 500
    ensures exit != Exited(0) ==> r.Json? && r.details == Some(stderr)
  {
    if exit != Exited(0) then Json(500, "Failed to generate speech", Some(stderr), None, None)
    else if outputExists then SendFile(AudioPath(name))
    else Json(500, "Failed to generate speech file", None, None, None)
  }
}
