/** `tts.py`, the script the `/api/tortoise-tts` route of `tortoise-tts.js` runs: its
    command line, the per-preset settings and CVVP amount it computes, the text preview it
    logs, and the exit code of `main`. */
module TtsScript {
  import opened Wrappers
  import opened Text

  /** The values `--preset` accepts. */
  const PresetChoices: seq<string> := ["ultra_fast", "fast", "standard", "high_quality"]
  const DefaultVoice := "goggins"
  const DefaultPreset := "fast"
  const DefaultEmotion := "Confident"

  datatype Args = Args(text: Option<string>, voice: Option<string>, preset: Option<string>,
                       outputPath: Option<string>, seed: Option<int>, emotion: Option<string>)

  /** What argparse lets through: `--text` and `--output_path` are required and `--preset`,
      when given, must be one of the choices. */
  predicate Accepted(a: Args)
  {
    a.text.Some? && a.outputPath.Some? && (a.preset.None? || a.preset.value in PresetChoices)
  }

  /** Autoregressive samples, diffusion iterations and conditioning-free guidance. */
  datatype Settings = Settings(autoregressiveSamples: nat, diffusionIterations: nat, condFree: bool)

  /** How good a preset is; anything but the first three ranks as "high_quality". */
  function PresetRank(preset: string): nat
  {
    if preset == "ultra_fast" then 0 else if preset == "fast" then 1
    else if preset == "standard" then 2 else 3
  }

  /** The settings each preset selects: (1, 30, off), (2, 50, on), (3, 100, on), (6, 200, on). */
  function SettingsFor(preset: string): (r: Settings)
    ensures PresetRank(preset) == 0 ==> r == Settings(1, 30, false)
    ensures PresetRank(preset) == 1 ==> r == Settings(2, 50, true)
    ensures PresetRank(preset) == 2 ==> r == Settings(3, 100, true)
    ensures PresetRank(preset) == 3 ==> r == Settings(6, 200, true)
  {
    if preset == "ultra_fast" then Settings(1, 30, false)
    else if preset == "fast" then Settings(2, 50, true)
    else if preset == "standard" then Settings(3, 100, true)
    else Settings(6, 200, true)
  }

  /** A better preset never asks for less work. */
  lemma SettingsMonotone(worse: string, better: string)
    requires PresetRank(worse) <= PresetRank(better)
    ensures SettingsFor(worse).autoregressiveSamples <= SettingsFor(better).autoregressiveSamples
    ensures SettingsFor(worse).diffusionIterations <= SettingsFor(better).diffusionIterations
    ensures SettingsFor(worse).condFree ==> SettingsFor(better).condFree
  {
  }

  /** 0.8 for the intense emotions "Confident" and "Angry", 0.0 for every other. */
  function CvvpAmount(emotion: string): (r: real)
    ensures r == 0.8 <==> emotion == "Confident" || emotion == "Angry"
    ensures r != 0.8 ==> r == 0.0
  {
    if emotion == "Confident" || emotion == "Angry" then 0.8 else 0.0
  }

  /** The text as logged: cut to 50 characters and marked with "..." only when longer. */
  function Preview(text: string): (r: string)
    ensures |text| <= 50 ==> r == text
    ensures |text| > 50 ==> |r| == 53 && IsPrefix(r[..50], text) && IsSuffix("...", r)
    ensures |r| <= 53
  {
    if |text| > 50 then text[..50] + "..." else text
  }

  /** The one synthesis call `main` makes. It carries the preset as given: neither the
      settings nor the CVVP amount computed beforehand reach it. */
  datatype Call = Call(text: string, voice: string, preset: string, seed: Option<int>, emotion: string)

  datatype Run = Run(exitCode: int, call: Option<Call>, saved: Option<string>)

  /** `sys.exit(main())`. `voices` names the directories under `voices/`; `synthOk` says
      whether building the `TextToSpeech` object, loading the voice, synthesis and saving
      all returned. A rejected command line exits 2; a missing voice directory exits 1
      before any synthesis (the `SystemExit` is not caught by `except Exception`); a step
      that raises returns 1; otherwise the audio is saved at the output path and `main`
      returns 0. `call` records the synthesis call `main` sets out to make once the voice
      directory exists; when `synthOk` is false the model does not say which step raised,
      so the call may not have been reached. */
  function Main(a: Args, voices: set<string>, synthOk: bool): (r: Run)
    ensures !Accepted(a) ==> r == Run(2, None, None)
    ensures Accepted(a) ==> r.exitCode in {0, 1}
    ensures r.call.None? ==> r.saved.None?
    ensures Accepted(a) ==>
      && (r.call.Some? <==> a.voice.GetOr(DefaultVoice) in voices)
      && (r.exitCode == 0 <==> r.call.Some? && synthOk)
      && (r.saved.Some? <==> r.exitCode == 0)
      && (r.saved.Some? ==> r.saved.value == a.outputPath.value)
      && (r.call.Some? ==> r.call.value == Call(a.text.value, a.voice.GetOr(DefaultVoice),
                                                a.preset.GetOr(DefaultPreset), a.seed,
                                                a.emotion.GetOr(DefaultEmotion)))
  {
    if !Accepted(a) then Run(2, None, None)
    else
      var voice := a.voice.GetOr(DefaultVoice);
      if voice !in voices then Run(1, None, None)
      else
        var call := Call(a.text.value, voice, a.preset.GetOr(DefaultPreset), a.seed,
                         a.emotion.GetOr(DefaultEmotion));
        if synthOk then Run(0, Some(call), Some(a.outputPath.value)) else Run(1, Some(call), None)
  }
}
