/** `generate_speech.py`, the script the `/api/tortoise-tts` route runs: its command line,
    the quality-to-preset map, the manual parameters it falls back on, the three attempts
    it makes, and where it writes the result. */
module GenerateSpeech {
  import opened Wrappers
  import opened Text
  import opened Synthesis

  /** The values `--quality` accepts. */
  const QualityChoices: seq<string> := ["high", "medium", "fast"]
  const DefaultQuality := "high"
  const DefaultOutput := "speech_output.wav"
  const DefaultVoiceDir := "voice_samples"

  /** The command line as given: each option present or absent. */
  datatype Args = Args(voiceDir: Option<string>, text: Option<string>, output: Option<string>,
                       quality: Option<string>)

  /** What argparse lets through: `--text` is required and `--quality`, when given, must
      be one of the choices. */
  predicate Accepted(a: Args)
  {
    a.text.Some? && (a.quality.None? || a.quality.value in QualityChoices)
  }

  /** The Tortoise preset each quality selects; anything but "high" and "medium" selects
      "fast". */
  function PresetFor(quality: string): (p: string)
    ensures p == "high_quality" <==> quality == "high"
    ensures p == "standard" <==> quality == "medium"
    ensures p == "fast" <==> quality != "high" && quality != "medium"
  {
    if quality == "high" then "high_quality" else if quality == "medium" then "standard" else "fast"
  }

  /** How good a quality is: "high" above "medium" above everything else. */
  function QualityRank(quality: string): nat
  {
    if quality == "high" then 2 else if quality == "medium" then 1 else 0
  }

  /** The manual configuration tried when the preset fails: (k, diffusion iterations,
      autoregressive samples) is (6, 200, 256), (4, 100, 128) or (2, 50, 64). */
  function FallbackAttempt(quality: string): (r: Attempt)
    ensures r.Manual? && r.diffusionIterations.Some? && !r.tuned
    ensures QualityRank(quality) == 2 ==> (r.k, r.diffusionIterations.value, r.autoregressiveSamples) == (6, 200, 256)
    ensures QualityRank(quality) == 1 ==> (r.k, r.diffusionIterations.value, r.autoregressiveSamples) == (4, 100, 128)
    ensures QualityRank(quality) == 0 ==> (r.k, r.diffusionIterations.value, r.autoregressiveSamples) == (2, 50, 64)
  {
    if quality == "high" then Manual(6, Some(200), 256, false)
    else if quality == "medium" then Manual(4, Some(100), 128, false)
    else Manual(2, Some(50), 64, false)
  }

  /** A lower quality never asks for more work in any of the three parameters, and the
      preset and the fallback depend on the quality only through its rank. */
  lemma FallbackMonotone(better: string, worse: string)
    requires QualityRank(worse) <= QualityRank(better)
    ensures FallbackAttempt(worse).k <= FallbackAttempt(better).k
    ensures FallbackAttempt(worse).diffusionIterations.value <= FallbackAttempt(better).diffusionIterations.value
    ensures FallbackAttempt(worse).autoregressiveSamples <= FallbackAttempt(better).autoregressiveSamples
    ensures QualityRank(worse) == QualityRank(better) ==>
              PresetFor(worse) == PresetFor(better) && FallbackAttempt(worse) == FallbackAttempt(better)
  {
  }

  /** The three attempts in order: the preset, the manual configuration, the library
      defaults. */
  function Plan(quality: string): (r: seq<Attempt>)
    ensures |r| == 3 && r[0] == WithPreset(PresetFor(quality)) && r[2] == Basic
    ensures r[1] == FallbackAttempt(quality)
  {
    [WithPreset(PresetFor(quality)), FallbackAttempt(quality), Basic]
  }

  /** `os.path.join(os.getcwd(), "output")` */
  function OutputDir(cwd: string): string
  {
    JoinPath(cwd, "output")
  }

  /** A written file and the shape of the array written into it. */
  datatype Written = Written(path: string, shape: Shape)

  /** How a run ends: the exit code, the attempts made and the file written. */
  datatype Run = Run(exitCode: int, tried: seq<Attempt>, written: Option<Written>)

  /** One run of the script. `voiceFiles` is the listing of the voice directory, `None`
      when it does not exist (`os.listdir` raises and nothing is caught). A rejected
      command line exits 2, a missing voice directory and three failed attempts exit 1,
      and a successful attempt's audio is reshaped and written under the output
      directory. */
  function RunScript(a: Args, cwd: string, voiceFiles: Option<seq<string>>,
                     synth: Attempt -> Option<Shape>): (r: Run)
    ensures !Accepted(a) ==> r == Run(2, [], None)
    ensures Accepted(a) && voiceFiles.None? ==> r == Run(1, [], None)
    ensures r.exitCode == 0 <==> r.written.Some?
    ensures r.exitCode in {0, 1, 2}
    ensures Accepted(a) && voiceFiles.Some? ==>
      var q := a.quality.GetOr(DefaultQuality);
      && r.tried == RunCascade(Plan(q), synth).tried
      && (r.exitCode == 1 <==> forall j | 0 <= j < 3 :: synth(Plan(q)[j]).None?)
      && (r.written.Some? ==>
            && r.written.value.path == JoinPath(OutputDir(cwd), a.output.GetOr(DefaultOutput))
            && r.written.value.shape == Reshape(RunCascade(Plan(q), synth).audio.value))
  {
    if !Accepted(a) then Run(2, [], None)
    else if voiceFiles.None? then Run(1, [], None)
    else
      var q := a.quality.GetOr(DefaultQuality);
      var g := RunCascade(Plan(q), synth);
      CascadeFailsIffAllFail(Plan(q), synth);
      match g.audio
      case None => Run(1, g.tried, None)
      case Some(audio) =>
        Run(0, g.tried, Some(Written(JoinPath(OutputDir(cwd), a.output.GetOr(DefaultOutput)), Reshape(audio))))
  }

  /** A relative output name lands inside the output directory; an absolute one escapes it. */
  lemma OutputStaysInOutputDir(cwd: string, output: string)
    requires cwd != "" && !IsSuffix("/", cwd) && !IsPrefix("/", output)
    ensures JoinPath(OutputDir(cwd), output) == cwd + "/output/" + output
    ensures JoinPath(OutputDir(cwd), "/" + output) == "/" + output
  {
    assert !IsPrefix("/", "output");
    var d := cwd + "/output";
    assert d[|d| - 1] == 't';
    assert !IsSuffix("/", d);
    assert IsPrefix("/", "/" + output);
  }
}
