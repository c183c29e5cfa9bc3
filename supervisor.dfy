/** The configuration writer itself: `profile_to_conf` and the `print_*`
    builders, printing line by line into an output file. Each builder builds
    its command list step by step and is proved to print what the matching
    function of module `Commands` describes; `ProfileToConf` is proved to
    print exactly `ConfSpec.ConfOutput`. */
module Supervisor {
  import opened Results
  import opened PyStrings
  import opened Shlex
  import opened Profiles
  import opened Commands
  import opened ConfSpec

  /** The text file the configuration is printed to, one line per `print`. */
  class ConfFile {
    var lines: seq<string>

    constructor ()
      ensures lines == []
    {
      lines := [];
    }

    method Print(line: string)
      modifies this
      ensures lines == old(lines) + [line]
    {
      lines := lines + [line];
    }
  }

  method WriteBoilerplate(out: ConfFile)
    modifies out
    ensures out.lines == old(out.lines) + Boilerplate
  {
    out.Print("stopasgroup=true");
    out.Print("stdout_logfile=/dev/stdout");
    out.Print("stdout_logfile_maxbytes=0");
    out.Print("redirect_stderr=true");
    out.Print("");
  }

  /** The two lines every builder ends with. */
  method WriteProgram(out: ConfFile, name: string, cmd: seq<string>)
    modifies out
    ensures out.lines == old(out.lines) + ProgramLines(name, cmd)
  {
    out.Print("[program:" + name + "]");
    out.Print("command=" + Join(cmd, " "));
  }

  method PrintMqtt(out: ConfFile, mqttPort: int)
    modifies out
    ensures out.lines == old(out.lines) + ProgramLines("mqtt", MqttCommand(mqttPort)) + ["priority=0"]
  {
    var mqttCommand := ["mosquitto", "-p", IntToString(mqttPort)];
    WriteProgram(out, "mqtt", mqttCommand);
    out.Print("priority=0");
  }

  method PrintWebserver(p: Profile, out: ConfFile, mqttHost: string, mqttPort: int)
    modifies out
    ensures out.lines == old(out.lines) + ProgramLines("web", WebserverCommand(p, mqttHost, mqttPort))
  {
    var webCommand := [
      "rhasspy-server-hermes",
      "--profile", p.name,
      "--system-profiles", p.systemProfilesDir,
      "--user-profiles", p.userProfilesDir,
      "--web-dir", "web",
      "--mqtt-host", mqttHost,
      "--mqtt-port", IntToString(mqttPort)];
    WriteProgram(out, "web", webCommand);
  }

  method PrintMicrophone(system: Value, p: Profile, out: ConfFile, mqtt: MqttSettings) returns (r: Outcome)
    modifies out
    ensures r == OutcomeOf(MicrophoneCommand(system, p, mqtt))
    ensures out.lines == old(out.lines) + BuilderLines("microphone", MicrophoneCommand(system, p, mqtt))
  {
    if mqtt.credentials.Some? {
      // the call passes `mqtt_username`, a keyword the builder does not declare
      return Fail(UnexpectedKeyword("mqtt_username"));
    }
    if system != Str("arecord") && system != Str("pyaudio") {
      return Fail(UnsupportedSystem("microphone.system"));
    }
    var micCommand: seq<string>;
    if system == Str("arecord") {
      var recordCommand := ["arecord", "-q", "-r", "16000", "-f", "S16_LE", "-c", "1", "-t", "raw"];
      var micDevice := StrippedSetting(p, "microphone.arecord.device");
      if micDevice.Failure? {
        return Fail(micDevice.error);
      }
      if micDevice.value != "" {
        recordCommand := recordCommand + ["-D", micDevice.value];
      }
      assert recordCommand == RecordCommand(micDevice.value);
      micCommand := HermesArgs("rhasspy-microphone-cli-hermes", mqtt) + AudioFormatArgs
                    + ["--record-command", Quote(Join(recordCommand, " "))];
      assert micCommand == MicrophoneCommand(system, p, mqtt).value;
    } else {
      micCommand := HermesArgs("rhasspy-microphone-pyaudio-hermes", mqtt) + AudioFormatArgs;
      var micDevice := StrippedSetting(p, "microphone.pyaudio.device");
      if micDevice.Failure? {
        return Fail(micDevice.error);
      }
      if micDevice.value != "" {
        micCommand := micCommand + ["--device-index", micDevice.value];
      }
      assert micCommand == MicrophoneCommand(system, p, mqtt).value;
    }
    WriteProgram(out, "microphone", micCommand);
    r := Ok;
  }

  method PrintWake(system: Value, p: Profile, out: ConfFile, mqtt: MqttSettings) returns (r: Outcome)
    modifies out
    ensures r == OutcomeOf(WakeCommand(system, p, mqtt))
    ensures out.lines == old(out.lines) + BuilderLines("wake_word", WakeCommand(system, p, mqtt))
  {
    if mqtt.credentials.Some? {
      // the call passes `mqtt_username`, a keyword the builder does not declare
      return Fail(UnexpectedKeyword("mqtt_username"));
    }
    if system != Str("porcupine") && system != Str("snowboy") {
      return Fail(UnsupportedSystem("wake.system"));
    }
    var wakeCommand: seq<string>;
    if system == Str("porcupine") {
      var library := Required(p, "wake.porcupine.library_path");
      if library.Failure? {
        return Fail(library.error);
      }
      var model := Required(p, "wake.porcupine.model_path");
      if model.Failure? {
        return Fail(model.error);
      }
      var keyword := Required(p, "wake.porcupine.keyword_path");
      if keyword.Failure? {
        return Fail(keyword.error);
      }
      var sensitivity := Get(p, "wake.porcupine.sensitivity", Str("0.5"));
      wakeCommand := HermesArgs("rhasspy-wake-porcupine-hermes", mqtt)
                     + ["--library", Quote(p.readPath(library.value)),
                        "--model", Quote(p.readPath(model.value)),
                        "--keyword", Quote(p.readPath(keyword.value)),
                        "--sensitivity", ToStr(sensitivity)];
      assert wakeCommand == WakeCommand(system, p, mqtt).value;
    } else {
      wakeCommand := HermesArgs("rhasspy-wake-snowboy-hermes", mqtt);
      var defaults := SnowboyDefaultsOf(p);
      var modelNames := SnowboyModelNames(p);
      if modelNames.Failure? {
        return Fail(modelNames.error);
      }
      wakeCommand := ExtendWithModels(wakeCommand, p, modelNames.value, defaults);
      assert wakeCommand == WakeCommand(system, p, mqtt).value;
    }
    WriteProgram(out, "wake_word", wakeCommand);
    r := Ok;
  }

  /** Appends the `--model` group of every named snowboy model, in order. */
  method ExtendWithModels(wakeCommand: seq<string>, p: Profile, names: seq<string>, defaults: SnowboyDefaults)
    returns (cmd: seq<string>)
    ensures cmd == wakeCommand + SnowboyModelArgs(p, names, defaults)
  {
    cmd := wakeCommand;
    var i := 0;
    while i < |names|
      invariant 0 <= i <= |names|
      invariant cmd == wakeCommand + SnowboyModelArgs(p, names[..i], defaults)
    {
      var modelArgs := SnowboyModelArguments(p, names[i], defaults);
      assert SnowboyModelArgs(p, names[..i + 1], defaults)
          == SnowboyModelArgs(p, names[..i], defaults) + ModelArgs(p, names[i], defaults) by {
        assert names[..i + 1][..i] == names[..i] && names[..i + 1][i] == names[i];
      }
      Assoc3(wakeCommand, SnowboyModelArgs(p, names[..i], defaults), ModelArgs(p, names[i], defaults));
      cmd := cmd + (["--model"] + modelArgs);
      i := i + 1;
    }
    assert names[..|names|] == names;
  }

  /** The `--model` group of one snowboy model: the model's own settings,
      with the stage-wide defaults filled in where it has none. */
  method SnowboyModelArguments(p: Profile, modelName: string, defaults: SnowboyDefaults) returns (modelArgs: seq<string>)
    ensures ["--model"] + modelArgs == ModelArgs(p, modelName, defaults)
  {
    var settings := ModelSettingsOf(p, modelName);
    if "sensitivity" !in settings {
      settings := settings["sensitivity" := Str(defaults.sensitivity)];
    }
    if "audio_gain" !in settings {
      settings := settings["audio_gain" := Str(defaults.audioGain)];
    }
    if "apply_frontend" !in settings {
      settings := settings["apply_frontend" := Bool(defaults.applyFrontend)];
    }
    modelArgs := [p.readPath(Str(modelName)),
                  ToStr(settings["sensitivity"]), ToStr(settings["audio_gain"]),
                  ToStr(settings["apply_frontend"])];
    ModelArgsOverride(p, modelName, defaults);
  }

  method PrintSpeechToText(system: Value, p: Profile, out: ConfFile, mqtt: MqttSettings) returns (r: Outcome)
    modifies out
    ensures r == OutcomeOf(SpeechToTextCommand(system, p, mqtt))
    ensures out.lines == old(out.lines) + BuilderLines("speech_to_text", SpeechToTextCommand(system, p, mqtt))
  {
    if mqtt.credentials.Some? {
      // the call passes `mqtt_username`, a keyword the builder does not declare
      return Fail(UnexpectedKeyword("mqtt_username"));
    }
    if system != Str("pocketsphinx") && system != Str("kaldi") {
      return Fail(UnsupportedSystem("speech_to_text.system"));
    }
    var sttCommand: seq<string>;
    if system == Str("pocketsphinx") {
      var acousticModel := Required(p, "speech_to_text.pocketsphinx.acoustic_model");
      if acousticModel.Failure? {
        return Fail(acousticModel.error);
      }
      var dictionary := Required(p, "speech_to_text.pocketsphinx.dictionary");
      if dictionary.Failure? {
        return Fail(dictionary.error);
      }
      var languageModel := Required(p, "speech_to_text.pocketsphinx.language_model");
      if languageModel.Failure? {
        return Fail(languageModel.error);
      }
      sttCommand := HermesArgs("rhasspy-asr-pocketsphinx-hermes", mqtt)
                    + ["--acoustic-model", Quote(p.readPath(acousticModel.value)),
                       "--dictionary", Quote(p.readPath(dictionary.value)),
                       "--language-model", Quote(p.readPath(languageModel.value))];
    } else {
      var modelDirSetting := Required(p, "speech_to_text.kaldi.model_dir");
      if modelDirSetting.Failure? {
        return Fail(modelDirSetting.error);
      }
      var modelDir := p.readPath(modelDirSetting.value);
      var graph := Required(p, "speech_to_text.kaldi.graph");
      if graph.Failure? {
        return Fail(graph.error);
      }
      if !graph.value.Str? {
        return Fail(WrongType("speech_to_text.kaldi.graph"));
      }
      var graphDir := JoinPath(modelDir, graph.value.s);
      sttCommand := HermesArgs("rhasspy-asr-kaldi-hermes", mqtt)
                    + ["--model-dir", Quote(modelDir), "--graph-dir", Quote(graphDir)];
    }
    WriteProgram(out, "speech_to_text", sttCommand);
    r := Ok;
  }

  method PrintIntentRecognition(system: Value, p: Profile, out: ConfFile, mqtt: MqttSettings) returns (r: Outcome)
    modifies out
    ensures r == OutcomeOf(IntentCommand(system, p, mqtt))
    ensures out.lines == old(out.lines) + BuilderLines("intent_recognition", IntentCommand(system, p, mqtt))
  {
    if mqtt.credentials.Some? {
      // the call passes `mqtt_username`, a keyword the builder does not declare
      return Fail(UnexpectedKeyword("mqtt_username"));
    }
    if system != Str("fsticuffs") {
      return Fail(UnsupportedSystem("intent.system"));
    }
    var graph := Required(p, "intent.fsticuffs.intent_graph");
    if graph.Failure? {
      return Fail(graph.error);
    }
    var intentCommand := HermesArgs("rhasspy-nlu-hermes", mqtt) + ["--graph", Quote(p.readPath(graph.value))];
    WriteProgram(out, "intent_recognition", intentCommand);
    r := Ok;
  }

  method PrintDialogue(system: Value, p: Profile, out: ConfFile, mqtt: MqttSettings) returns (r: Outcome)
    modifies out
    ensures r == OutcomeOf(DialogueCommand(system, p, mqtt))
    ensures out.lines == old(out.lines) + BuilderLines("dialogue", DialogueCommand(system, p, mqtt))
  {
    if mqtt.credentials.Some? {
      // the call passes `mqtt_username`, a keyword the builder does not declare
      return Fail(UnexpectedKeyword("mqtt_username"));
    }
    if system != Str("hermes") {
      return Fail(UnsupportedSystem("dialogue.system"));
    }
    var dialogueCommand := HermesArgs("rhasspy-dialogue-hermes", mqtt);
    WriteProgram(out, "dialogue", dialogueCommand);
    r := Ok;
  }

  method PrintTextToSpeech(system: Value, p: Profile, out: ConfFile, mqtt: MqttSettings) returns (r: Outcome)
    modifies out
    ensures r == OutcomeOf(TextToSpeechCommand(system, p, mqtt))
    ensures out.lines == old(out.lines) + BuilderLines("text_to_speech", TextToSpeechCommand(system, p, mqtt))
  {
    if mqtt.credentials.Some? {
      // the call passes `mqtt_username`, a keyword the builder does not declare
      return Fail(UnexpectedKeyword("mqtt_username"));
    }
    if system != Str("espeak") {
      return Fail(UnsupportedSystem("text_to_speech.system"));
    }
    var ttsCommand := ["espeak", "--stdout"];
    var voice := StrippedSetting(p, "text_to_speech.espeak.voice");
    if voice.Failure? {
      return Fail(voice.error);
    }
    if voice.value == "" {
      voice := StrippedSetting(p, "language");
      if voice.Failure? {
        return Fail(voice.error);
      }
    }
    assert voice == EspeakVoice(p);
    if voice.value != "" {
      ttsCommand := ttsCommand + ["-v", voice.value];
    }
    assert ttsCommand == EspeakCommand(voice.value);
    ttsCommand := HermesArgs("rhasspy-tts-cli-hermes", mqtt) + ["--tts-command", Quote(Join(ttsCommand, " "))];
    WriteProgram(out, "text_to_speech", ttsCommand);
    r := Ok;
  }

  method PrintSpeakers(system: Value, p: Profile, out: ConfFile, mqtt: MqttSettings) returns (r: Outcome)
    modifies out
    ensures r == OutcomeOf(SpeakersCommand(system, p, mqtt))
    ensures out.lines == old(out.lines) + BuilderLines("speakers", SpeakersCommand(system, p, mqtt))
  {
    if mqtt.credentials.Some? {
      // the call passes `mqtt_username`, a keyword the builder does not declare
      return Fail(UnexpectedKeyword("mqtt_username"));
    }
    if system != Str("aplay") {
      return Fail(UnsupportedSystem("sounds.system"));
    }
    var playCommand := ["aplay", "-q", "-t", "wav"];
    var soundDevice := StrippedSetting(p, "sounds.arecord.device");
    if soundDevice.Failure? {
      return Fail(soundDevice.error);
    }
    if soundDevice.value != "" {
      playCommand := playCommand + ["-D", soundDevice.value];
    }
    assert playCommand == PlayCommand(soundDevice.value);
    playCommand := HermesArgs("rhasspy-speakers-cli-hermes", mqtt) + ["--play-command", Quote(Join(playCommand, " "))];
    WriteProgram(out, "speakers", playCommand);
    r := Ok;
  }

  /** Writes the whole configuration for profile `p`. The stages' output
      accumulates in `out` as it is printed; an exception ends the writing
      and leaves in `out` what was printed before it. */
  method ProfileToConf(p: Profile, out: ConfFile, localMqttPort: int) returns (r: Outcome)
    modifies out
    ensures out.lines == old(out.lines) + ConfOutput(p, localMqttPort).lines
    ensures r == ConfOutput(p, localMqttPort).outcome
  {
    out.Print("[supervisord]");
    out.Print("nodaemon=true");
    out.Print("");
    assert out.lines == old(out.lines) + Header;

    // Broker settings for every stage
    var siteId := ToStr(Get(p, "mqtt.site_id", Str("default")));
    var mqttHost := ToStr(Get(p, "mqtt.host", Str("localhost")));
    var mqttPort := IntOf(Get(p, "mqtt.port", Int(1883)));
    if mqttPort.None? {
      return Fail(NotAnInteger("mqtt.port"));
    }
    var mqtt := MqttSettings(siteId, mqttHost, mqttPort.value, None);
    var remoteMqtt := Get(p, "mqtt.enabled", Bool(false));
    if Truthy(remoteMqtt) {
      var mqttUsername := Strip(ToStr(Get(p, "mqtt.username", Str(""))));
      var mqttPassword := Strip(ToStr(Get(p, "mqtt.password", Str(""))));
      if mqttUsername != "" {
        mqtt := mqtt.(credentials := Some(Credentials(mqttUsername, mqttPassword)));
      }
    } else {
      mqtt := mqtt.(host := "localhost", port := localMqttPort);
      PrintMqtt(out, localMqttPort);
      WriteBoilerplate(out);
      AppendAssoc(old(out.lines) + Header, ProgramLines("mqtt", MqttCommand(localMqttPort)), ["priority=0"], Boilerplate);
    }
    assert out.lines == old(out.lines) + Header + (if RemoteMqtt(p) then [] else BrokerLines(localMqttPort));
    assert MqttSettingsOf(p, localMqttPort) == Success(mqtt);

    ConfOutputWith(p, localMqttPort, mqtt);
    r := WriteStages(p, out, mqtt);
    AppendAssoc(old(out.lines), Header, if RemoteMqtt(p) then [] else BrokerLines(localMqttPort), StagesRun(PipelineOrder, p, mqtt).lines);
  }

  /** The seven stages, in pipeline order; the first exception ends the
      writing. The blocks are written by two methods, the stages that take
      audio in and the ones after them, so that each is proved on its own. */
  method WriteStages(p: Profile, out: ConfFile, mqtt: MqttSettings) returns (r: Outcome)
    modifies out
    ensures out.lines == old(out.lines) + StagesRun(PipelineOrder, p, mqtt).lines
    ensures r == StagesRun(PipelineOrder, p, mqtt).outcome
  {
    var early := [Microphone, Speakers, WakeWord];
    var late := [SpeechToText, IntentRecognition, TextToSpeech, Dialogue];
    assert PipelineOrder == early + late;
    StagesRunAppend(early, late, p, mqtt);
    r := WriteEarlyStages(p, out, mqtt);
    if r.Ok? {
      r := WriteLateStages(p, out, mqtt);
      Assoc3(old(out.lines), StagesRun(early, p, mqtt).lines, StagesRun(late, p, mqtt).lines);
    }
  }

  /** Microphone, speakers and wake word. */
  method WriteEarlyStages(p: Profile, out: ConfFile, mqtt: MqttSettings) returns (r: Outcome)
    modifies out
    ensures out.lines == old(out.lines) + StagesRun([Microphone, Speakers, WakeWord], p, mqtt).lines
    ensures r == StagesRun([Microphone, Speakers, WakeWord], p, mqtt).outcome
  {
    ghost var rest := [Microphone, Speakers, WakeWord];
    ghost var before;
    assert rest != [] && rest[0] == Microphone;
    before := out.lines;
    r := MicrophoneStage(p, out, mqtt);
    if r.Fail? {
      StageFailed(rest, p, mqtt);
      return;
    }
    StageDone(rest, p, mqtt, before, out.lines);
    rest := rest[1..];

    assert rest != [] && rest[0] == Speakers;
    before := out.lines;
    r := SpeakersStage(p, out, mqtt);
    if r.Fail? {
      StageFailed(rest, p, mqtt);
      return;
    }
    StageDone(rest, p, mqtt, before, out.lines);
    rest := rest[1..];

    assert rest != [] && rest[0] == WakeWord;
    before := out.lines;
    r := WakeWordStage(p, out, mqtt);
    if r.Fail? {
      StageFailed(rest, p, mqtt);
      return;
    }
    StageDone(rest, p, mqtt, before, out.lines);
    rest := rest[1..];

    assert rest == [];
    r := Ok;
  }

  /** Speech to text, intent recognition, text to speech and dialogue. */
  method WriteLateStages(p: Profile, out: ConfFile, mqtt: MqttSettings) returns (r: Outcome)
    modifies out
    ensures out.lines == old(out.lines) + StagesRun([SpeechToText, IntentRecognition, TextToSpeech, Dialogue], p, mqtt).lines
    ensures r == StagesRun([SpeechToText, IntentRecognition, TextToSpeech, Dialogue], p, mqtt).outcome
  {
    ghost var rest := [SpeechToText, IntentRecognition, TextToSpeech, Dialogue];
    ghost var before;
    assert rest != [] && rest[0] == SpeechToText;
    before := out.lines;
    r := SpeechToTextStage(p, out, mqtt);
    if r.Fail? {
      StageFailed(rest, p, mqtt);
      return;
    }
    StageDone(rest, p, mqtt, before, out.lines);
    rest := rest[1..];

    assert rest != [] && rest[0] == IntentRecognition;
    before := out.lines;
    r := IntentRecognitionStage(p, out, mqtt);
    if r.Fail? {
      StageFailed(rest, p, mqtt);
      return;
    }
    StageDone(rest, p, mqtt, before, out.lines);
    rest := rest[1..];

    assert rest != [] && rest[0] == TextToSpeech;
    before := out.lines;
    r := TextToSpeechStage(p, out, mqtt);
    if r.Fail? {
      StageFailed(rest, p, mqtt);
      return;
    }
    StageDone(rest, p, mqtt, before, out.lines);
    rest := rest[1..];

    assert rest != [] && rest[0] == Dialogue;
    before := out.lines;
    r := DialogueStage(p, out, mqtt);
    if r.Fail? {
      StageFailed(rest, p, mqtt);
      return;
    }
    StageDone(rest, p, mqtt, before, out.lines);
    rest := rest[1..];

    assert rest == [];
    r := Ok;
  }

  /** The microphone, switched off by `dummy` and `hermes`. */
  method MicrophoneStage(p: Profile, out: ConfFile, mqtt: MqttSettings) returns (r: Outcome)
    modifies out
    ensures out.lines == old(out.lines) + StageRun(Microphone, p, mqtt).lines
    ensures r == StageRun(Microphone, p, mqtt).outcome
  {
    var micSystem := Get(p, "microphone.system", Str("dummy"));
    r := Ok;
    if micSystem != Str("dummy") && micSystem != Str("hermes") {
      r := PrintMicrophone(micSystem, p, out, mqtt);
      if r.Ok? {
        WriteBoilerplate(out);
        Assoc3(old(out.lines), BuilderLines("microphone", MicrophoneCommand(micSystem, p, mqtt)), Boilerplate);
      }
    }
  }

  /** The speakers, switched off by `dummy` and `hermes`. */
  method SpeakersStage(p: Profile, out: ConfFile, mqtt: MqttSettings) returns (r: Outcome)
    modifies out
    ensures out.lines == old(out.lines) + StageRun(Speakers, p, mqtt).lines
    ensures r == StageRun(Speakers, p, mqtt).outcome
  {
    var soundSystem := Get(p, "sounds.system", Str("dummy"));
    r := Ok;
    if soundSystem != Str("dummy") && soundSystem != Str("hermes") {
      r := PrintSpeakers(soundSystem, p, out, mqtt);
      if r.Ok? {
        WriteBoilerplate(out);
        Assoc3(old(out.lines), BuilderLines("speakers", SpeakersCommand(soundSystem, p, mqtt)), Boilerplate);
      }
    }
  }

  /** The wake word: built for `wake.system` but switched by the
      microphone's system. */
  method WakeWordStage(p: Profile, out: ConfFile, mqtt: MqttSettings) returns (r: Outcome)
    modifies out
    ensures out.lines == old(out.lines) + StageRun(WakeWord, p, mqtt).lines
    ensures r == StageRun(WakeWord, p, mqtt).outcome
  {
    var micSystem := Get(p, "microphone.system", Str("dummy"));
    var wakeSystem := Get(p, "wake.system", Str("dummy"));
    r := Ok;
    if micSystem != Str("dummy") && micSystem != Str("hermes") {
      r := PrintWake(wakeSystem, p, out, mqtt);
      if r.Ok? {
        WriteBoilerplate(out);
        Assoc3(old(out.lines), BuilderLines("wake_word", WakeCommand(wakeSystem, p, mqtt)), Boilerplate);
      }
    }
  }

  /** Speech to text, switched off by `dummy` only. */
  method SpeechToTextStage(p: Profile, out: ConfFile, mqtt: MqttSettings) returns (r: Outcome)
    modifies out
    ensures out.lines == old(out.lines) + StageRun(SpeechToText, p, mqtt).lines
    ensures r == StageRun(SpeechToText, p, mqtt).outcome
  {
    var sttSystem := Get(p, "speech_to_text.system", Str("dummy"));
    r := Ok;
    if sttSystem != Str("dummy") {
      r := PrintSpeechToText(sttSystem, p, out, mqtt);
      if r.Ok? {
        WriteBoilerplate(out);
        Assoc3(old(out.lines), BuilderLines("speech_to_text", SpeechToTextCommand(sttSystem, p, mqtt)), Boilerplate);
      }
    }
  }

  /** Intent recognition, switched off by `dummy` only. */
  method IntentRecognitionStage(p: Profile, out: ConfFile, mqtt: MqttSettings) returns (r: Outcome)
    modifies out
    ensures out.lines == old(out.lines) + StageRun(IntentRecognition, p, mqtt).lines
    ensures r == StageRun(IntentRecognition, p, mqtt).outcome
  {
    var intentSystem := Get(p, "intent.system", Str("dummy"));
    r := Ok;
    if intentSystem != Str("dummy") {
      r := PrintIntentRecognition(intentSystem, p, out, mqtt);
      if r.Ok? {
        WriteBoilerplate(out);
        Assoc3(old(out.lines), BuilderLines("intent_recognition", IntentCommand(intentSystem, p, mqtt)), Boilerplate);
      }
    }
  }

  /** Text to speech, switched off by `dummy` only. */
  method TextToSpeechStage(p: Profile, out: ConfFile, mqtt: MqttSettings) returns (r: Outcome)
    modifies out
    ensures out.lines == old(out.lines) + StageRun(TextToSpeech, p, mqtt).lines
    ensures r == StageRun(TextToSpeech, p, mqtt).outcome
  {
    var ttsSystem := Get(p, "text_to_speech.system", Str("dummy"));
    r := Ok;
    if ttsSystem != Str("dummy") {
      r := PrintTextToSpeech(ttsSystem, p, out, mqtt);
      if r.Ok? {
        WriteBoilerplate(out);
        Assoc3(old(out.lines), BuilderLines("text_to_speech", TextToSpeechCommand(ttsSystem, p, mqtt)), Boilerplate);
      }
    }
  }

  /** Dialogue management, switched off by `dummy` only. */
  method DialogueStage(p: Profile, out: ConfFile, mqtt: MqttSettings) returns (r: Outcome)
    modifies out
    ensures out.lines == old(out.lines) + StageRun(Dialogue, p, mqtt).lines
    ensures r == StageRun(Dialogue, p, mqtt).outcome
  {
    var dialogueSystem := Get(p, "dialogue.system", Str("dummy"));
    r := Ok;
    if dialogueSystem != Str("dummy") {
      r := PrintDialogue(dialogueSystem, p, out, mqtt);
      if r.Ok? {
        WriteBoilerplate(out);
        Assoc3(old(out.lines), BuilderLines("dialogue", DialogueCommand(dialogueSystem, p, mqtt)), Boilerplate);
      }
    }
  }

  lemma ConfOutputWith(p: Profile, port: int, mqtt: MqttSettings)
    requires MqttSettingsOf(p, port) == Success(mqtt)
    ensures ConfOutput(p, port).lines
         == Header + (if RemoteMqtt(p) then [] else BrokerLines(port)) + StagesRun(PipelineOrder, p, mqtt).lines
    ensures ConfOutput(p, port).outcome == StagesRun(PipelineOrder, p, mqtt).outcome
  {
  }

  lemma AppendAssoc(a: seq<string>, b: seq<string>, c: seq<string>, d: seq<string>)
    ensures a + ((b + c) + d) == ((a + b) + c) + d
  {
  }

  /** A stage that raised ends the run. */
  lemma StageFailed(rest: seq<Stage>, p: Profile, mqtt: MqttSettings)
    requires rest != []
    requires StageRun(rest[0], p, mqtt).outcome.Fail?
    ensures StagesRun(rest, p, mqtt) == StageRun(rest[0], p, mqtt)
  {
    StageStep(rest, p, mqtt);
  }

  /** A stage that ended normally: the rest of the run follows what it printed. */
  lemma StageDone(rest: seq<Stage>, p: Profile, mqtt: MqttSettings, before: seq<string>, after: seq<string>)
    requires rest != []
    requires StageRun(rest[0], p, mqtt).outcome == Ok
    requires after == before + StageRun(rest[0], p, mqtt).lines
    ensures before + StagesRun(rest, p, mqtt).lines == after + StagesRun(rest[1..], p, mqtt).lines
    ensures StagesRun(rest, p, mqtt).outcome == StagesRun(rest[1..], p, mqtt).outcome
  {
    StageStep(rest, p, mqtt);
    Assoc3(before, StageRun(rest[0], p, mqtt).lines, StagesRun(rest[1..], p, mqtt).lines);
  }

  /** One stage of a run, unfolded. */
  lemma StageStep(stages: seq<Stage>, p: Profile, mqtt: MqttSettings)
    requires stages != []
    ensures var first := StageRun(stages[0], p, mqtt);
      StagesRun(stages, p, mqtt)
        == if first.outcome.Fail? then first
           else Run(first.lines + StagesRun(stages[1..], p, mqtt).lines, StagesRun(stages[1..], p, mqtt).outcome)
  {
  }
}
