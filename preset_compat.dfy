/** Where the preset chosen in the Tortoise settings panel ends up. `server.js` hands it to
    `generate_speech.py` as `--quality`, whose choices are "high", "medium" and "fast";
    the route in `tortoise-tts.js` hands it to `tts.py` as `--preset`, whose choices are
    the four presets offered. `server.js` never mounts the `tortoise-tts.js` route, so
    requests reach the first. */
module PresetCompatibility {
  import opened Wrappers
  import opened TortoiseRoute
  import TortoiseTtsRoute
  import GenerateSpeech
  import Synthesis
  import TtsScript
  import VoiceChat

  /** The options of the "Generation Quality" menu. */
  const OfferedPresets: seq<string> := ["ultra_fast", "fast", "standard", "high_quality"]

  /** Through `server.js`, an uncached request with any offered preset but "fast" spawns
      `generate_speech.py` with a `--quality` it rejects: the script exits 2 before any
      synthesis and the request is answered with a 500. With "fast" the script starts
      with the "fast" preset. */
  lemma ServerRouteRejectsOfferedPresets(text: string, voice: Option<string>, p: string,
                                         md5: string -> string, outputFiles: set<string>,
                                         cwd: string, voiceFiles: Option<seq<string>>,
                                         synth: Synthesis.Attempt -> Option<Synthesis.Shape>,
                                         outputExists: bool, stdout: string, stderr: string)
    requires text != "" && p in OfferedPresets
    requires OutputFilename(md5(text), voice, Some(p)) !in outputFiles
    ensures var s := Prepare(Some(text), voice, Some(p), md5, outputFiles, true, true);
      && s.Spawn?
      && s.args == [ScriptPath, "--text", text, "--voice_dir", VoiceSamplesDir, "--output", s.name, "--quality", p]
      && var run := GenerateSpeech.RunScript(
                      GenerateSpeech.Args(Some(VoiceSamplesDir), Some(text), Some(s.name), Some(p)),
                      cwd, voiceFiles, synth);
         && (run.exitCode == 2 <==> p != "fast")
         && (p != "fast" ==> run.tried == [] && CloseReply(Exited(run.exitCode), outputExists, s.name, stdout, stderr).Json?)
         && (p == "fast" && voiceFiles.Some? ==> run.tried[0] == Synthesis.WithPreset("fast"))
  {
    var s := Prepare(Some(text), voice, Some(p), md5, outputFiles, true, true);
    assert OrDefault(Some(p), DefaultPreset) == p;
    var a := GenerateSpeech.Args(Some(VoiceSamplesDir), Some(text), Some(s.name), Some(p));
    assert GenerateSpeech.Accepted(a) <==> p == "fast";
  }

  /** The `tts.py` route passes every offered preset through as `--preset`, and `tts.py`
      accepts each of them and synthesises with that preset. */
  lemma TtsRouteAcceptsOfferedPresets(text: string, voice: Option<string>, p: string,
                                      tortoisePath: Option<string>,
                                      md5: string -> string, audioFiles: set<string>,
                                      voices: set<string>, synthOk: bool)
    requires text != "" && p in OfferedPresets
    requires OutputFilename(md5(text), voice, Some(p)) !in audioFiles
    ensures var s := TortoiseTtsRoute.RoutePrepare(Some(text), voice, Some(p), tortoisePath, md5, audioFiles);
      && s.Spawn? && s.args[5..7] == ["--preset", p]
      && var run := TtsScript.Main(TtsScript.Args(Some(text), Some(s.args[4]), Some(p), Some(s.args[8]), None, None),
                                  voices, synthOk);
         && run.exitCode != 2
         && (run.call.Some? ==> run.call.value.preset == p)
  {
    assert OrDefault(Some(p), DefaultPreset) == p;
  }

  /** What the client sends by default is "fast", both from the voice chat's own Tortoise
      request and from the extension's default configuration, and "fast" is the one
      offered preset `generate_speech.py` accepts. */
  lemma DefaultPresetIsAccepted()
    ensures VoiceChat.DefaultTortoiseConfig.preset == "fast" && DefaultPreset == "fast"
    ensures forall p | p in OfferedPresets :: p in GenerateSpeech.QualityChoices <==> p == "fast"
    ensures forall p | p in OfferedPresets :: p in TtsScript.PresetChoices
  {
  }
}
