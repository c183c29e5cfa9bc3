/** What each `print_*` builder of the generator computes: the command line
    of one supervised program, as a list of arguments, or the exception the
    builder raises instead. These functions are the specification the
    imperative builders in module `Supervisor` are proved against, and the
    lemmas below state what the builders promise. */
module Commands {
  import opened Results
  import opened PyStrings
  import opened Shlex
  import opened Profiles

  datatype Credentials = Credentials(username: string, password: string)

  /** The keyword arguments `profile_to_conf` passes to every stage builder
      (`**mqtt_settings`): `siteId`, `mqtt_host` and `mqtt_port`, and with an
      external broker and a user name also `mqtt_username` and
      `mqtt_password`. */
  datatype MqttSettings = MqttSettings(siteId: string, host: string, port: int, credentials: Option<Credentials>)

  /** The port of the internal broker when the caller does not choose one. */
  const DefaultLocalMqttPort := 12183

  /** `mqtt.enabled`: the profile connects to a broker it does not run itself. */
  predicate RemoteMqtt(p: Profile)
  {
    Truthy(Get(p, "mqtt.enabled", Bool(false)))
  }

  function UserName(p: Profile): string
  {
    Strip(ToStr(Get(p, "mqtt.username", Str(""))))
  }

  /** The broker settings every stage is given. `mqtt.port` is converted with
      `int()` before the broker mode is looked at, so a malformed port fails
      in both modes. With the internal broker the host and port are pinned to
      `localhost` and the local broker's port; with an external broker the
      profile's host and port are used, and the user name and password are
      added when the stripped user name is not blank. */
  function MqttSettingsOf(p: Profile, localMqttPort: int): Result<MqttSettings>
  {
    var siteId := ToStr(Get(p, "mqtt.site_id", Str("default")));
    var host := ToStr(Get(p, "mqtt.host", Str("localhost")));
    match IntOf(Get(p, "mqtt.port", Int(1883)))
    case None => Failure(NotAnInteger("mqtt.port"))
    case Some(port) =>
      if RemoteMqtt(p) then
        var password := Strip(ToStr(Get(p, "mqtt.password", Str(""))));
        var credentials := if UserName(p) != "" then Some(Credentials(UserName(p), password)) else None;
        Success(MqttSettings(siteId, host, port, credentials))
      else
        Success(MqttSettings(siteId, "localhost", localMqttPort, None))
  }

  /** The internal broker: `mosquitto` on the local port. */
  function MqttCommand(port: int): seq<string>
  {
    ["mosquitto", "-p", IntToString(port)]
  }

  /** The web server (never started by the generator). */
  function WebserverCommand(p: Profile, host: string, port: int): seq<string>
  {
    [ "rhasspy-server-hermes",
      "--profile", p.name,
      "--system-profiles", p.systemProfilesDir,
      "--user-profiles", p.userProfilesDir,
      "--web-dir", "web",
      "--mqtt-host", host,
      "--mqtt-port", IntToString(port)]
  }

  /** The arguments every stage program starts with. */
  function HermesArgs(program: string, mqtt: MqttSettings): seq<string>
  {
    [program, "--debug", "--siteId", mqtt.siteId, "--host", mqtt.host, "--port", IntToString(mqtt.port)]
  }

  /** A stage builder declares `siteId`, `mqtt_host` and `mqtt_port` and no
      `**kwargs`, so calling it with credentials in `**mqtt_settings` raises
      `TypeError` on the first extra keyword, before the builder runs. */
  function RejectCredentials(mqtt: MqttSettings): Result<()>
  {
    if mqtt.credentials.Some? then Failure(UnexpectedKeyword("mqtt_username")) else Success(())
  }

  /** `[flag, device]` when the (stripped) device is not blank. */
  function DeviceArgs(flag: string, device: string): seq<string>
  {
    if device != "" then [flag, device] else []
  }

  const AudioFormatArgs: seq<string> := ["--sample-rate", "16000", "--sample-width", "2", "--channels", "1"]

  /** The recording command handed to the microphone service. */
  function RecordCommand(device: string): seq<string>
  {
    ["arecord", "-q", "-r", "16000", "-f", "S16_LE", "-c", "1", "-t", "raw"] + DeviceArgs("-D", device)
  }

  /** The speech command handed to the text to speech service. */
  function EspeakCommand(voice: string): seq<string>
  {
    ["espeak", "--stdout"] + (if voice != "" then ["-v", voice] else [])
  }

  /** The playing command handed to the speakers service. */
  function PlayCommand(device: string): seq<string>
  {
    ["aplay", "-q", "-t", "wav"] + DeviceArgs("-D", device)
  }

  // ---------------------------------------------------------------------------
  // The stage builders

  function MicrophoneCommand(system: Value, p: Profile, mqtt: MqttSettings): Result<seq<string>>
  {
    var _ :- RejectCredentials(mqtt);
    if system == Str("arecord") then
      var device :- StrippedSetting(p, "microphone.arecord.device");
      Success(HermesArgs("rhasspy-microphone-cli-hermes", mqtt) + AudioFormatArgs
              + ["--record-command", Quote(Join(RecordCommand(device), " "))])
    else if system == Str("pyaudio") then
      var device :- StrippedSetting(p, "microphone.pyaudio.device");
      Success(HermesArgs("rhasspy-microphone-pyaudio-hermes", mqtt) + AudioFormatArgs
              + DeviceArgs("--device-index", device))
    else
      Failure(UnsupportedSystem("microphone.system"))
  }

  /** The stage-wide snowboy settings every model falls back on. */
  datatype SnowboyDefaults = SnowboyDefaults(sensitivity: string, audioGain: string, applyFrontend: bool)

  /** `str(float(v))`: an integer or a boolean gains a `.0`; a string or
      another value keeps its own text. */
  function FloatText(v: Value): string
  {
    match v
    case Int(i) => IntToString(i) + ".0"
    case Bool(b) => if b then "1.0" else "0.0"
    case Str(s) => s
    case Other(text, _) => text
  }

  function SnowboyDefaultsOf(p: Profile): SnowboyDefaults
  {
    SnowboyDefaults(
      ToStr(Get(p, "wake.snowboy.sensitivity", Str("0.5"))),
      FloatText(Get(p, "wake.snowboy.audio_gain", Str("1.0"))),
      Truthy(Get(p, "wake.snowboy.apply_frontend", Bool(false))))
  }

  function DefaultSettings(d: SnowboyDefaults): map<string, Value>
  {
    map["sensitivity" := Str(d.sensitivity), "audio_gain" := Str(d.audioGain), "apply_frontend" := Bool(d.applyFrontend)]
  }

  /** One model's settings with the defaults filled in where it has none. */
  function MergeDefaults(settings: map<string, Value>, defaults: map<string, Value>): (r: map<string, Value>)
    ensures r.Keys == settings.Keys + defaults.Keys
    ensures forall k :: k in settings ==> r[k] == settings[k]
    ensures forall k :: k in defaults && k !in settings ==> r[k] == defaults[k]
  {
    defaults + settings
  }

  /** `model_settings.get(name, {})`. */
  function ModelSettingsOf(p: Profile, name: string): map<string, Value>
  {
    if name in p.modelSettings then p.modelSettings[name] else map[]
  }

  /** The group of arguments one snowboy model contributes. */
  function ModelArgs(p: Profile, name: string, d: SnowboyDefaults): seq<string>
  {
    var settings := MergeDefaults(ModelSettingsOf(p, name), DefaultSettings(d));
    ["--model", p.readPath(Str(name)),
     ToStr(settings["sensitivity"]), ToStr(settings["audio_gain"]), ToStr(settings["apply_frontend"])]
  }

  /** The model groups of all the named models, in list order. */
  function SnowboyModelArgs(p: Profile, names: seq<string>, d: SnowboyDefaults): seq<string>
  {
    if names == [] then []
    else SnowboyModelArgs(p, names[..|names| - 1], d) + ModelArgs(p, names[|names| - 1], d)
  }

  /** `profile.get("wake.snowboy.model", "snowboy/snowboy.umdl").split(",")`. */
  function SnowboyModelNames(p: Profile): Result<seq<string>>
  {
    match Get(p, "wake.snowboy.model", Str("snowboy/snowboy.umdl"))
    case Str(s) => Success(Split(s, ','))
    case _ => Failure(WrongType("wake.snowboy.model"))
  }

  function WakeCommand(system: Value, p: Profile, mqtt: MqttSettings): Result<seq<string>>
  {
    var _ :- RejectCredentials(mqtt);
    if system == Str("porcupine") then
      var library :- Required(p, "wake.porcupine.library_path");
      var model :- Required(p, "wake.porcupine.model_path");
      var keyword :- Required(p, "wake.porcupine.keyword_path");
      var sensitivity := Get(p, "wake.porcupine.sensitivity", Str("0.5"));
      Success(HermesArgs("rhasspy-wake-porcupine-hermes", mqtt)
              + ["--library", Quote(p.readPath(library)),
                 "--model", Quote(p.readPath(model)),
                 "--keyword", Quote(p.readPath(keyword)),
                 "--sensitivity", ToStr(sensitivity)])
    else if system == Str("snowboy") then
      var d := SnowboyDefaultsOf(p);
      var names :- SnowboyModelNames(p);
      Success(HermesArgs("rhasspy-wake-snowboy-hermes", mqtt) + SnowboyModelArgs(p, names, d))
    else
      Failure(UnsupportedSystem("wake.system"))
  }

  /** `dir / name` on a `pathlib.Path`: an absolute name replaces the directory. */
  function JoinPath(dir: string, name: string): string
  {
    if name != "" && name[0] == '/' then name else dir + "/" + name
  }

  function SpeechToTextCommand(system: Value, p: Profile, mqtt: MqttSettings): Result<seq<string>>
  {
    var _ :- RejectCredentials(mqtt);
    if system == Str("pocketsphinx") then
      var acousticModel :- Required(p, "speech_to_text.pocketsphinx.acoustic_model");
      var dictionary :- Required(p, "speech_to_text.pocketsphinx.dictionary");
      var languageModel :- Required(p, "speech_to_text.pocketsphinx.language_model");
      Success(HermesArgs("rhasspy-asr-pocketsphinx-hermes", mqtt)
              + ["--acoustic-model", Quote(p.readPath(acousticModel)),
                 "--dictionary", Quote(p.readPath(dictionary)),
                 "--language-model", Quote(p.readPath(languageModel))])
    else if system == Str("kaldi") then
      var modelDirSetting :- Required(p, "speech_to_text.kaldi.model_dir");
      var modelDir := p.readPath(modelDirSetting);
      var graph :- Required(p, "speech_to_text.kaldi.graph");
      if !graph.Str? then Failure(WrongType("speech_to_text.kaldi.graph"))
      else
        Success(HermesArgs("rhasspy-asr-kaldi-hermes", mqtt)
                + ["--model-dir", Quote(modelDir),
                   "--graph-dir", Quote(JoinPath(modelDir, graph.s))])
    else
      Failure(UnsupportedSystem("speech_to_text.system"))
  }

  function IntentCommand(system: Value, p: Profile, mqtt: MqttSettings): Result<seq<string>>
  {
    var _ :- RejectCredentials(mqtt);
    if system == Str("fsticuffs") then
      var graph :- Required(p, "intent.fsticuffs.intent_graph");
      Success(HermesArgs("rhasspy-nlu-hermes", mqtt) + ["--graph", Quote(p.readPath(graph))])
    else
      Failure(UnsupportedSystem("intent.system"))
  }

  function DialogueCommand(system: Value, p: Profile, mqtt: MqttSettings): Result<seq<string>>
  {
    var _ :- RejectCredentials(mqtt);
    if system == Str("hermes") then Success(HermesArgs("rhasspy-dialogue-hermes", mqtt))
    else Failure(UnsupportedSystem("dialogue.system"))
  }

  /** The espeak voice: `text_to_speech.espeak.voice`, or the profile's
      `language` when the voice is blank. */
  function EspeakVoice(p: Profile): Result<string>
  {
    var voice :- StrippedSetting(p, "text_to_speech.espeak.voice");
    if voice != "" then Success(voice) else StrippedSetting(p, "language")
  }

  function TextToSpeechCommand(system: Value, p: Profile, mqtt: MqttSettings): Result<seq<string>>
  {
    var _ :- RejectCredentials(mqtt);
    if system == Str("espeak") then
      var voice :- EspeakVoice(p);
      Success(HermesArgs("rhasspy-tts-cli-hermes", mqtt)
              + ["--tts-command", Quote(Join(EspeakCommand(voice), " "))])
    else
      Failure(UnsupportedSystem("text_to_speech.system"))
  }

  /** The speakers' device is read from `sounds.arecord.device`, as the
      generator does. */
  function SpeakersCommand(system: Value, p: Profile, mqtt: MqttSettings): Result<seq<string>>
  {
    var _ :- RejectCredentials(mqtt);
    if system == Str("aplay") then
      var device :- StrippedSetting(p, "sounds.arecord.device");
      Success(HermesArgs("rhasspy-speakers-cli-hermes", mqtt)
              + ["--play-command", Quote(Join(PlayCommand(device), " "))])
    else
      Failure(UnsupportedSystem("sounds.system"))
  }

  // ---------------------------------------------------------------------------
  // Stages

  /** The pipeline stages, in the order their programs are written. */
  datatype Stage = Microphone | Speakers | WakeWord | SpeechToText | IntentRecognition | TextToSpeech | Dialogue

  const PipelineOrder: seq<Stage> :=
    [Microphone, Speakers, WakeWord, SpeechToText, IntentRecognition, TextToSpeech, Dialogue]

  /** The setting that selects the stage's system. */
  function SystemPath(s: Stage): string
  {
    match s
    case Microphone => "microphone.system"
    case Speakers => "sounds.system"
    case WakeWord => "wake.system"
    case SpeechToText => "speech_to_text.system"
    case IntentRecognition => "intent.system"
    case TextToSpeech => "text_to_speech.system"
    case Dialogue => "dialogue.system"
  }

  /** The supervisord program name of the stage. */
  function ProgramName(s: Stage): string
  {
    match s
    case Microphone => "microphone"
    case Speakers => "speakers"
    case WakeWord => "wake_word"
    case SpeechToText => "speech_to_text"
    case IntentRecognition => "intent_recognition"
    case TextToSpeech => "text_to_speech"
    case Dialogue => "dialogue"
  }

  /** The stage's system, `"dummy"` when the profile does not name one. */
  function SystemOf(p: Profile, s: Stage): Value
  {
    Get(p, SystemPath(s), Str("dummy"))
  }

  /** Whether the stage is written. The wake word stage is switched by the
      microphone's system, not by its own. The audio stages and the wake word
      are off for `dummy` and `hermes`, the others only for `dummy`. */
  predicate Enabled(p: Profile, s: Stage)
  {
    var gate := if s == WakeWord then SystemOf(p, Microphone) else SystemOf(p, s);
    if s == Microphone || s == Speakers || s == WakeWord then
      gate != Str("dummy") && gate != Str("hermes")
    else
      gate != Str("dummy")
  }

  /** The builder of each stage. */
  function StageCommand(s: Stage, system: Value, p: Profile, mqtt: MqttSettings): Result<seq<string>>
  {
    match s
    case Microphone => MicrophoneCommand(system, p, mqtt)
    case Speakers => SpeakersCommand(system, p, mqtt)
    case WakeWord => WakeCommand(system, p, mqtt)
    case SpeechToText => SpeechToTextCommand(system, p, mqtt)
    case IntentRecognition => IntentCommand(system, p, mqtt)
    case TextToSpeech => TextToSpeechCommand(system, p, mqtt)
    case Dialogue => DialogueCommand(system, p, mqtt)
  }

  /** The systems each stage supports. */
  function Variants(s: Stage): set<string>
  {
    match s
    case Microphone => {"arecord", "pyaudio"}
    case Speakers => {"aplay"}
    case WakeWord => {"porcupine", "snowboy"}
    case SpeechToText => {"pocketsphinx", "kaldi"}
    case IntentRecognition => {"fsticuffs"}
    case TextToSpeech => {"espeak"}
    case Dialogue => {"hermes"}
  }

  predicate IsVariant(s: Stage, system: Value)
  {
    system.Str? && system.s in Variants(s)
  }

  /** The program each supported system runs. */
  function Executable(s: Stage, variant: string): string
  {
    match s
    case Microphone => if variant == "arecord" then "rhasspy-microphone-cli-hermes" else "rhasspy-microphone-pyaudio-hermes"
    case Speakers => "rhasspy-speakers-cli-hermes"
    case WakeWord => if variant == "porcupine" then "rhasspy-wake-porcupine-hermes" else "rhasspy-wake-snowboy-hermes"
    case SpeechToText => if variant == "pocketsphinx" then "rhasspy-asr-pocketsphinx-hermes" else "rhasspy-asr-kaldi-hermes"
    case IntentRecognition => "rhasspy-nlu-hermes"
    case TextToSpeech => "rhasspy-tts-cli-hermes"
    case Dialogue => "rhasspy-dialogue-hermes"
  }

  /** The settings a system asserts, in the order it asserts them. */
  function RequiredPaths(s: Stage, variant: string): seq<string>
  {
    match s
    case WakeWord =>
      if variant == "porcupine" then
        ["wake.porcupine.library_path", "wake.porcupine.model_path", "wake.porcupine.keyword_path"]
      else []
    case SpeechToText =>
      if variant == "pocketsphinx" then
        ["speech_to_text.pocketsphinx.acoustic_model", "speech_to_text.pocketsphinx.dictionary",
         "speech_to_text.pocketsphinx.language_model"]
      else ["speech_to_text.kaldi.model_dir", "speech_to_text.kaldi.graph"]
    case IntentRecognition => ["intent.fsticuffs.intent_graph"]
    case _ => []
  }

  /** The first of `paths` that is absent or falsy. */
  function FirstMissing(p: Profile, paths: seq<string>): Option<string>
  {
    if paths == [] then None
    else if Required(p, paths[0]).Failure? then Some(paths[0])
    else FirstMissing(p, paths[1..])
  }

  // ---------------------------------------------------------------------------
  // Broker settings

  /** With the internal broker every stage gets `localhost` and the local
      port, never the profile's `mqtt.host`/`mqtt.port`, and no credentials;
      the site id is the profile's. */
  lemma InternalBrokerSettings(p: Profile, localMqttPort: int)
    requires !RemoteMqtt(p)
    requires IntOf(Get(p, "mqtt.port", Int(1883))).Some?
    ensures MqttSettingsOf(p, localMqttPort)
         == Success(MqttSettings(ToStr(Get(p, "mqtt.site_id", Str("default"))), "localhost", localMqttPort, None))
  {
  }

  /** Two profiles that differ only in their external broker settings
      (`mqtt.host`, `mqtt.port`, `mqtt.username`, `mqtt.password`) give the
      same stage settings when both use the internal broker. */
  lemma InternalBrokerIgnoresExternalSettings(p: Profile, q: Profile, localMqttPort: int)
    requires !RemoteMqtt(p) && !RemoteMqtt(q)
    requires Get(p, "mqtt.site_id", Str("default")) == Get(q, "mqtt.site_id", Str("default"))
    requires IntOf(Get(p, "mqtt.port", Int(1883))).Some? && IntOf(Get(q, "mqtt.port", Int(1883))).Some?
    ensures MqttSettingsOf(p, localMqttPort) == MqttSettingsOf(q, localMqttPort)
  {
    InternalBrokerSettings(p, localMqttPort);
    InternalBrokerSettings(q, localMqttPort);
  }

  /** Credentials are passed on exactly when the broker is external and the
      stripped user name is not blank; a malformed `mqtt.port` fails in both
      modes. */
  lemma CredentialsOnlyForExternalBroker(p: Profile, localMqttPort: int)
    ensures MqttSettingsOf(p, localMqttPort).Failure?
        <==> IntOf(Get(p, "mqtt.port", Int(1883))).None?
    ensures MqttSettingsOf(p, localMqttPort).Success? ==>
              (MqttSettingsOf(p, localMqttPort).value.credentials.Some?
               <==> RemoteMqtt(p) && !AllSpace(ToStr(Get(p, "mqtt.username", Str("")))))
  {
    StripBlank(ToStr(Get(p, "mqtt.username", Str(""))));
  }

  /** With an external broker the profile's host and port are used as they are. */
  lemma ExternalBrokerSettings(p: Profile, localMqttPort: int)
    requires RemoteMqtt(p)
    requires IntOf(Get(p, "mqtt.port", Int(1883))).Some?
    ensures MqttSettingsOf(p, localMqttPort).Success?
    ensures MqttSettingsOf(p, localMqttPort).value.host == ToStr(Get(p, "mqtt.host", Str("localhost")))
    ensures MqttSettingsOf(p, localMqttPort).value.port == IntOf(Get(p, "mqtt.port", Int(1883))).value
  {
  }

  // ---------------------------------------------------------------------------
  // What every builder promises

  /** Credentials make every stage builder fail before it looks at anything. */
  lemma CredentialsRejectedByEveryStage(s: Stage, system: Value, p: Profile, mqtt: MqttSettings)
    requires mqtt.credentials.Some?
    ensures StageCommand(s, system, p, mqtt) == Failure(UnexpectedKeyword("mqtt_username"))
  {
  }

  /** A system outside the stage's variants is a fatal error, and it is the
      only way to get that error. */
  lemma UnsupportedSystemIsFatal(s: Stage, system: Value, p: Profile, mqtt: MqttSettings)
    requires mqtt.credentials.None?
    ensures StageCommand(s, system, p, mqtt) == Failure(UnsupportedSystem(SystemPath(s)))
        <==> !IsVariant(s, system)
  {
    match s
    case Microphone => UnsupportedMicrophone(system, p, mqtt);
    case Speakers => UnsupportedSpeakers(system, p, mqtt);
    case WakeWord => UnsupportedWakeWord(system, p, mqtt);
    case SpeechToText => UnsupportedSpeechToText(system, p, mqtt);
    case IntentRecognition => UnsupportedIntentRecognition(system, p, mqtt);
    case TextToSpeech => UnsupportedTextToSpeech(system, p, mqtt);
    case Dialogue => UnsupportedDialogue(system, p, mqtt);
  }

  lemma UnsupportedMicrophone(system: Value, p: Profile, mqtt: MqttSettings)
    requires mqtt.credentials.None?
    ensures StageCommand(Microphone, system, p, mqtt) == Failure(UnsupportedSystem(SystemPath(Microphone)))
        <==> !IsVariant(Microphone, system)
  {
  }

  lemma UnsupportedSpeakers(system: Value, p: Profile, mqtt: MqttSettings)
    requires mqtt.credentials.None?
    ensures StageCommand(Speakers, system, p, mqtt) == Failure(UnsupportedSystem(SystemPath(Speakers)))
        <==> !IsVariant(Speakers, system)
  {
  }

  lemma UnsupportedWakeWord(system: Value, p: Profile, mqtt: MqttSettings)
    requires mqtt.credentials.None?
    ensures StageCommand(WakeWord, system, p, mqtt) == Failure(UnsupportedSystem(SystemPath(WakeWord)))
        <==> !IsVariant(WakeWord, system)
  {
  }

  lemma UnsupportedSpeechToText(system: Value, p: Profile, mqtt: MqttSettings)
    requires mqtt.credentials.None?
    ensures StageCommand(SpeechToText, system, p, mqtt) == Failure(UnsupportedSystem(SystemPath(SpeechToText)))
        <==> !IsVariant(SpeechToText, system)
  {
  }

  lemma UnsupportedIntentRecognition(system: Value, p: Profile, mqtt: MqttSettings)
    requires mqtt.credentials.None?
    ensures StageCommand(IntentRecognition, system, p, mqtt) == Failure(UnsupportedSystem(SystemPath(IntentRecognition)))
        <==> !IsVariant(IntentRecognition, system)
  {
  }

  lemma UnsupportedTextToSpeech(system: Value, p: Profile, mqtt: MqttSettings)
    requires mqtt.credentials.None?
    ensures StageCommand(TextToSpeech, system, p, mqtt) == Failure(UnsupportedSystem(SystemPath(TextToSpeech)))
        <==> !IsVariant(TextToSpeech, system)
  {
  }

  lemma UnsupportedDialogue(system: Value, p: Profile, mqtt: MqttSettings)
    requires mqtt.credentials.None?
    ensures StageCommand(Dialogue, system, p, mqtt) == Failure(UnsupportedSystem(SystemPath(Dialogue)))
        <==> !IsVariant(Dialogue, system)
  {
  }

  /** A successful command starts with the stage program and the common
      arguments: `--debug`, the site id, the broker host and the broker port. */
  lemma CommandPrefix(s: Stage, system: Value, p: Profile, mqtt: MqttSettings)
    requires StageCommand(s, system, p, mqtt).Success?
    ensures IsVariant(s, system)
    ensures HermesArgs(Executable(s, system.s), mqtt) <= StageCommand(s, system, p, mqtt).value
  {
    match s
    case Microphone => PrefixMicrophone(system, p, mqtt);
    case Speakers => PrefixSpeakers(system, p, mqtt);
    case WakeWord => PrefixWakeWord(system, p, mqtt);
    case SpeechToText => PrefixSpeechToText(system, p, mqtt);
    case IntentRecognition => PrefixIntentRecognition(system, p, mqtt);
    case TextToSpeech => PrefixTextToSpeech(system, p, mqtt);
    case Dialogue => PrefixDialogue(system, p, mqtt);
  }

  lemma PrefixMicrophone(system: Value, p: Profile, mqtt: MqttSettings)
    requires StageCommand(Microphone, system, p, mqtt).Success?
    ensures IsVariant(Microphone, system)
    ensures HermesArgs(Executable(Microphone, system.s), mqtt) <= StageCommand(Microphone, system, p, mqtt).value
  {
  }

  lemma PrefixSpeakers(system: Value, p: Profile, mqtt: MqttSettings)
    requires StageCommand(Speakers, system, p, mqtt).Success?
    ensures IsVariant(Speakers, system)
    ensures HermesArgs(Executable(Speakers, system.s), mqtt) <= StageCommand(Speakers, system, p, mqtt).value
  {
  }

  lemma PrefixWakeWord(system: Value, p: Profile, mqtt: MqttSettings)
    requires StageCommand(WakeWord, system, p, mqtt).Success?
    ensures IsVariant(WakeWord, system)
    ensures HermesArgs(Executable(WakeWord, system.s), mqtt) <= StageCommand(WakeWord, system, p, mqtt).value
  {
  }

  lemma PrefixSpeechToText(system: Value, p: Profile, mqtt: MqttSettings)
    requires StageCommand(SpeechToText, system, p, mqtt).Success?
    ensures IsVariant(SpeechToText, system)
    ensures HermesArgs(Executable(SpeechToText, system.s), mqtt) <= StageCommand(SpeechToText, system, p, mqtt).value
  {
  }

  lemma PrefixIntentRecognition(system: Value, p: Profile, mqtt: MqttSettings)
    requires StageCommand(IntentRecognition, system, p, mqtt).Success?
    ensures IsVariant(IntentRecognition, system)
    ensures HermesArgs(Executable(IntentRecognition, system.s), mqtt) <= StageCommand(IntentRecognition, system, p, mqtt).value
  {
  }

  lemma PrefixTextToSpeech(system: Value, p: Profile, mqtt: MqttSettings)
    requires StageCommand(TextToSpeech, system, p, mqtt).Success?
    ensures IsVariant(TextToSpeech, system)
    ensures HermesArgs(Executable(TextToSpeech, system.s), mqtt) <= StageCommand(TextToSpeech, system, p, mqtt).value
  {
  }

  lemma PrefixDialogue(system: Value, p: Profile, mqtt: MqttSettings)
    requires StageCommand(Dialogue, system, p, mqtt).Success?
    ensures IsVariant(Dialogue, system)
    ensures HermesArgs(Executable(Dialogue, system.s), mqtt) <= StageCommand(Dialogue, system, p, mqtt).value
  {
  }

  /** `FirstMissing` finds the first failing `Required` check. */
  lemma FirstMissingSpec(p: Profile, paths: seq<string>)
    ensures FirstMissing(p, paths).None? <==> forall i :: 0 <= i < |paths| ==> Required(p, paths[i]).Success?
    ensures FirstMissing(p, paths).Some? ==> FirstMissing(p, paths).value in paths
  {
  }

  /** A missing required setting of a supported system is fatal, and the
      error names the first one missing, in the order the builder checks. */
  lemma MissingSettingIsFatal(s: Stage, variant: string, p: Profile, mqtt: MqttSettings)
    requires mqtt.credentials.None?
    requires variant in Variants(s)
    requires FirstMissing(p, RequiredPaths(s, variant)).Some?
    ensures StageCommand(s, Str(variant), p, mqtt)
         == Failure(MissingSetting(FirstMissing(p, RequiredPaths(s, variant)).value))
  {
    var paths := RequiredPaths(s, variant);
    if |paths| >= 1 {
      assert FirstMissing(p, paths) == if Required(p, paths[0]).Failure? then Some(paths[0]) else FirstMissing(p, paths[1..]);
    }
    if |paths| >= 2 {
      assert FirstMissing(p, paths[1..]) == if Required(p, paths[1]).Failure? then Some(paths[1]) else FirstMissing(p, paths[2..]);
    }
    if |paths| >= 3 {
      assert FirstMissing(p, paths[2..]) == if Required(p, paths[2]).Failure? then Some(paths[2]) else FirstMissing(p, paths[3..]);
      assert paths[3..] == [];
    }
  }

  /** A command is only produced when every required setting is present. */
  lemma CommandNeedsRequiredSettings(s: Stage, variant: string, p: Profile, mqtt: MqttSettings)
    requires StageCommand(s, Str(variant), p, mqtt).Success?
    ensures forall i :: 0 <= i < |RequiredPaths(s, variant)| ==> Required(p, RequiredPaths(s, variant)[i]).Success?
  {
    if FirstMissing(p, RequiredPaths(s, variant)).Some? {
      MissingSettingIsFatal(s, variant, p, mqtt);
    }
    FirstMissingSpec(p, RequiredPaths(s, variant));
  }

  /** The settings a system strips, splits or joins as text, which a value
      of another type makes it raise on. */
  function TextPaths(s: Stage, variant: string): seq<string>
  {
    match s
    case Microphone =>
      if variant == "arecord" then ["microphone.arecord.device"] else ["microphone.pyaudio.device"]
    case Speakers => ["sounds.arecord.device"]
    case WakeWord => if variant == "snowboy" then ["wake.snowboy.model"] else []
    case SpeechToText => if variant == "kaldi" then ["speech_to_text.kaldi.graph"] else []
    case TextToSpeech => ["text_to_speech.espeak.voice", "language"]
    case _ => []
  }

  /** The setting is absent (so its default string is used) or a string. */
  predicate TextOrAbsent(p: Profile, path: string)
  {
    path !in p.settings || p.settings[path].Str?
  }

  /** A supported system whose asserted settings are all present and truthy,
      and whose text settings are strings, always builds its command: with
      `MissingSettingIsFatal` and `UnsupportedSystemIsFatal` this says a
      builder raises only for the reasons the generator checks. */
  lemma BuilderSucceeds(s: Stage, variant: string, p: Profile, mqtt: MqttSettings)
    requires mqtt.credentials.None?
    requires variant in Variants(s)
    requires FirstMissing(p, RequiredPaths(s, variant)).None?
    requires forall i :: 0 <= i < |TextPaths(s, variant)| ==> TextOrAbsent(p, TextPaths(s, variant)[i])
    ensures StageCommand(s, Str(variant), p, mqtt).Success?
  {
    match s
    case Microphone => SucceedsMicrophone(variant, p, mqtt);
    case Speakers => SucceedsSpeakers(variant, p, mqtt);
    case WakeWord => SucceedsWakeWord(variant, p, mqtt);
    case SpeechToText => SucceedsSpeechToText(variant, p, mqtt);
    case IntentRecognition => SucceedsIntentRecognition(variant, p, mqtt);
    case TextToSpeech => SucceedsTextToSpeech(variant, p, mqtt);
    case Dialogue => SucceedsDialogue(variant, p, mqtt);
  }

  lemma SucceedsMicrophone(variant: string, p: Profile, mqtt: MqttSettings)
    requires mqtt.credentials.None?
    requires variant in Variants(Microphone)
    requires FirstMissing(p, RequiredPaths(Microphone, variant)).None?
    requires forall i :: 0 <= i < |TextPaths(Microphone, variant)| ==> TextOrAbsent(p, TextPaths(Microphone, variant)[i])
    ensures StageCommand(Microphone, Str(variant), p, mqtt).Success?
  {
    assert TextOrAbsent(p, TextPaths(Microphone, variant)[0]);
  }

  lemma SucceedsSpeakers(variant: string, p: Profile, mqtt: MqttSettings)
    requires mqtt.credentials.None?
    requires variant in Variants(Speakers)
    requires FirstMissing(p, RequiredPaths(Speakers, variant)).None?
    requires forall i :: 0 <= i < |TextPaths(Speakers, variant)| ==> TextOrAbsent(p, TextPaths(Speakers, variant)[i])
    ensures StageCommand(Speakers, Str(variant), p, mqtt).Success?
  {
    assert TextOrAbsent(p, TextPaths(Speakers, variant)[0]);
  }

  lemma SucceedsWakeWord(variant: string, p: Profile, mqtt: MqttSettings)
    requires mqtt.credentials.None?
    requires variant in Variants(WakeWord)
    requires FirstMissing(p, RequiredPaths(WakeWord, variant)).None?
    requires forall i :: 0 <= i < |TextPaths(WakeWord, variant)| ==> TextOrAbsent(p, TextPaths(WakeWord, variant)[i])
    ensures StageCommand(WakeWord, Str(variant), p, mqtt).Success?
  {
    if variant == "porcupine" {
      FirstMissingSpec(p, RequiredPaths(WakeWord, variant));
      var paths := RequiredPaths(WakeWord, variant);
      assert Required(p, paths[0]).Success? && Required(p, paths[1]).Success? && Required(p, paths[2]).Success?;
    } else {
      assert TextOrAbsent(p, TextPaths(WakeWord, variant)[0]);
    }
  }

  lemma SucceedsSpeechToText(variant: string, p: Profile, mqtt: MqttSettings)
    requires mqtt.credentials.None?
    requires variant in Variants(SpeechToText)
    requires FirstMissing(p, RequiredPaths(SpeechToText, variant)).None?
    requires forall i :: 0 <= i < |TextPaths(SpeechToText, variant)| ==> TextOrAbsent(p, TextPaths(SpeechToText, variant)[i])
    ensures StageCommand(SpeechToText, Str(variant), p, mqtt).Success?
  {
    FirstMissingSpec(p, RequiredPaths(SpeechToText, variant));
    var paths := RequiredPaths(SpeechToText, variant);
    if variant == "pocketsphinx" {
      assert Required(p, paths[0]).Success? && Required(p, paths[1]).Success? && Required(p, paths[2]).Success?;
    } else {
      assert Required(p, paths[0]).Success? && Required(p, paths[1]).Success?;
      assert TextOrAbsent(p, TextPaths(SpeechToText, variant)[0]);
    }
  }

  lemma SucceedsIntentRecognition(variant: string, p: Profile, mqtt: MqttSettings)
    requires mqtt.credentials.None?
    requires variant in Variants(IntentRecognition)
    requires FirstMissing(p, RequiredPaths(IntentRecognition, variant)).None?
    requires forall i :: 0 <= i < |TextPaths(IntentRecognition, variant)| ==> TextOrAbsent(p, TextPaths(IntentRecognition, variant)[i])
    ensures StageCommand(IntentRecognition, Str(variant), p, mqtt).Success?
  {
    FirstMissingSpec(p, RequiredPaths(IntentRecognition, variant));
    assert Required(p, RequiredPaths(IntentRecognition, variant)[0]).Success?;
  }

  lemma SucceedsTextToSpeech(variant: string, p: Profile, mqtt: MqttSettings)
    requires mqtt.credentials.None?
    requires variant in Variants(TextToSpeech)
    requires FirstMissing(p, RequiredPaths(TextToSpeech, variant)).None?
    requires forall i :: 0 <= i < |TextPaths(TextToSpeech, variant)| ==> TextOrAbsent(p, TextPaths(TextToSpeech, variant)[i])
    ensures StageCommand(TextToSpeech, Str(variant), p, mqtt).Success?
  {
    assert TextOrAbsent(p, TextPaths(TextToSpeech, variant)[0]);
    assert TextOrAbsent(p, TextPaths(TextToSpeech, variant)[1]);
  }

  lemma SucceedsDialogue(variant: string, p: Profile, mqtt: MqttSettings)
    requires mqtt.credentials.None?
    requires variant in Variants(Dialogue)
    requires FirstMissing(p, RequiredPaths(Dialogue, variant)).None?
    requires forall i :: 0 <= i < |TextPaths(Dialogue, variant)| ==> TextOrAbsent(p, TextPaths(Dialogue, variant)[i])
    ensures StageCommand(Dialogue, Str(variant), p, mqtt).Success?
  {
  }

  /** A text setting of another type makes its builder raise the type error
      (`.strip()` or `.split()` on a non-string, or `Path / graph`). */
  lemma TextSettingOfWrongType(s: Stage, variant: string, p: Profile, mqtt: MqttSettings)
    requires mqtt.credentials.None?
    requires variant in Variants(s)
    requires FirstMissing(p, RequiredPaths(s, variant)).None?
    requires TextPaths(s, variant) != [] && !TextOrAbsent(p, TextPaths(s, variant)[0])
    ensures StageCommand(s, Str(variant), p, mqtt) == Failure(WrongType(TextPaths(s, variant)[0]))
  {
    FirstMissingSpec(p, RequiredPaths(s, variant));
    if s == SpeechToText {
      assert Required(p, RequiredPaths(s, variant)[0]).Success?;
      assert Required(p, RequiredPaths(s, variant)[1]).Success?;
    }
  }

  /** A device setting that is blank or all white space adds no device
      arguments; any other adds the flag and the setting without its
      surrounding white space. */
  lemma DeviceArgsFromSetting(flag: string, setting: string)
    ensures DeviceArgs(flag, Strip(setting)) == [] <==> AllSpace(setting)
    ensures !AllSpace(setting) ==> DeviceArgs(flag, Strip(setting)) == [flag, Strip(setting)]
  {
    StripBlank(setting);
  }

  /** The espeak voice is the stripped `text_to_speech.espeak.voice` when that
      is not blank, and otherwise the stripped `language`. */
  lemma EspeakVoiceFallback(p: Profile)
    requires Get(p, "text_to_speech.espeak.voice", Str("")).Str?
    ensures var voice := Get(p, "text_to_speech.espeak.voice", Str("")).s;
      && (!AllSpace(voice) ==> EspeakVoice(p) == Success(Strip(voice)))
      && (AllSpace(voice) ==> EspeakVoice(p) == StrippedSetting(p, "language"))
  {
    StripBlank(Get(p, "text_to_speech.espeak.voice", Str("")).s);
  }

  /** When the voice is blank, the builder falls back on `language`; one that
      is not a string makes it raise on `.strip()`. */
  lemma LanguageOfWrongType(p: Profile, mqtt: MqttSettings)
    requires mqtt.credentials.None?
    requires Get(p, "text_to_speech.espeak.voice", Str("")).Str?
    requires AllSpace(Get(p, "text_to_speech.espeak.voice", Str("")).s)
    requires "language" in p.settings && !p.settings["language"].Str?
    ensures TextToSpeechCommand(Str("espeak"), p, mqtt) == Failure(WrongType("language"))
  {
    StripBlank(Get(p, "text_to_speech.espeak.voice", Str("")).s);
  }

  /** Kaldi's graph directory is the graph setting joined onto the model
      directory that `read_path` resolved, and is the last argument. */
  lemma KaldiGraphDir(p: Profile, mqtt: MqttSettings)
    requires SpeechToTextCommand(Str("kaldi"), p, mqtt).Success?
    ensures "speech_to_text.kaldi.model_dir" in p.settings
    ensures "speech_to_text.kaldi.graph" in p.settings && p.settings["speech_to_text.kaldi.graph"].Str?
    ensures var cmd := SpeechToTextCommand(Str("kaldi"), p, mqtt).value;
      var modelDir := p.readPath(p.settings["speech_to_text.kaldi.model_dir"]);
      && |cmd| >= 4
      && cmd[|cmd| - 4..] == ["--model-dir", Quote(modelDir),
                              "--graph-dir", Quote(JoinPath(modelDir, p.settings["speech_to_text.kaldi.graph"].s))]
  {
  }

  /** The stage-wide snowboy defaults: sensitivity `0.5`, gain `1.0` and no
      frontend unless the profile sets them; a model with no settings of its
      own takes all three. */
  lemma SnowboyStageDefaults(p: Profile, name: string)
    requires ModelSettingsOf(p, name) == map[]
    ensures var d := SnowboyDefaultsOf(p);
      && ("wake.snowboy.sensitivity" !in p.settings ==> d.sensitivity == "0.5")
      && ("wake.snowboy.audio_gain" !in p.settings ==> d.audioGain == "1.0")
      && ("wake.snowboy.apply_frontend" !in p.settings ==> !d.applyFrontend)
      && ModelArgs(p, name, d)[2..] == [d.sensitivity, d.audioGain, if d.applyFrontend then "True" else "False"]
  {
    ModelArgsOverride(p, name, SnowboyDefaultsOf(p));
  }

  /** Porcupine's sensitivity is `0.5` unless the profile sets one. */
  lemma PorcupineDefaultSensitivity(p: Profile, mqtt: MqttSettings)
    requires WakeCommand(Str("porcupine"), p, mqtt).Success?
    requires "wake.porcupine.sensitivity" !in p.settings
    ensures var cmd := WakeCommand(Str("porcupine"), p, mqtt).value;
      cmd[|cmd| - 2..] == ["--sensitivity", "0.5"]
  {
  }

  /** The wake word stage runs exactly when the microphone stage does, whatever
      `wake.system` says. */
  lemma WakeFollowsMicrophone(p: Profile)
    ensures Enabled(p, WakeWord) <==> Enabled(p, Microphone)
  {
  }

  // ---------------------------------------------------------------------------
  // Snowboy models

  /** A model's own setting wins over the stage-wide default. */
  lemma ModelArgsOverride(p: Profile, name: string, d: SnowboyDefaults)
    ensures var args := ModelArgs(p, name, d);
      var own := ModelSettingsOf(p, name);
      && |args| == 5 && args[0] == "--model" && args[1] == p.readPath(Str(name))
      && args[2] == (if "sensitivity" in own then ToStr(own["sensitivity"]) else d.sensitivity)
      && args[3] == (if "audio_gain" in own then ToStr(own["audio_gain"]) else d.audioGain)
      && args[4] == (if "apply_frontend" in own then ToStr(own["apply_frontend"])
                     else if d.applyFrontend then "True" else "False")
  {
  }

  /** Every model contributes one group of five arguments, in list order. */
  lemma {:induction false} SnowboyModelArgsGroups(p: Profile, names: seq<string>, d: SnowboyDefaults)
    ensures |SnowboyModelArgs(p, names, d)| == 5 * |names|
    ensures forall i :: 0 <= i < |names| ==>
      SnowboyModelArgs(p, names, d)[5 * i..5 * i + 5] == ModelArgs(p, names[i], d)
  {
    if names != [] {
      var init := names[..|names| - 1];
      SnowboyModelArgsGroups(p, init, d);
      var prev := SnowboyModelArgs(p, init, d);
      var all := SnowboyModelArgs(p, names, d);
      assert all == prev + ModelArgs(p, names[|names| - 1], d);
      ModelArgsOverride(p, names[|names| - 1], d);
      forall i | 0 <= i < |names|
        ensures all[5 * i..5 * i + 5] == ModelArgs(p, names[i], d)
      {
        if i < |names| - 1 {
          assert all[5 * i..5 * i + 5] == prev[5 * i..5 * i + 5];
          assert names[i] == init[i];
        } else {
          assert all[5 * i..5 * i + 5] == all[|prev|..];
        }
      }
    }
  }

  /** Without `wake.snowboy.model` the one model is `snowboy/snowboy.umdl`. */
  lemma SnowboyDefaultModel(p: Profile)
    requires "wake.snowboy.model" !in p.settings
    ensures SnowboyModelNames(p) == Success(["snowboy/snowboy.umdl"])
  {
    SplitJoin(["snowboy/snowboy.umdl"], ',');
  }

  /** The model names are the pieces of the comma-separated setting: joined
      with commas they give the setting back, and none holds a comma. */
  lemma SnowboyModelNamesSplit(p: Profile)
    requires SnowboyModelNames(p).Success?
    ensures var names := SnowboyModelNames(p).value;
      && |names| >= 1
      && Join(names, ",") == Get(p, "wake.snowboy.model", Str("snowboy/snowboy.umdl")).s
      && forall i :: 0 <= i < |names| ==> ',' !in names[i]
  {
    JoinSplit(Get(p, "wake.snowboy.model", Str("snowboy/snowboy.umdl")).s, ',');
  }

  // ---------------------------------------------------------------------------
  // Command lines as the process supervisor splits them

  /** A non-empty word of safe characters, which `Quote` leaves alone. */
  predicate PlainWord(w: string)
  {
    w != "" && IsSafeWord(w)
  }

  lemma NatToStringPlain(n: nat)
    ensures PlainWord(NatToString(n))
  {
    var r := NatToString(n);
    assert forall k :: 0 <= k < |r| ==> IsDigit(r[k]);
  }

  lemma IntToStringPlain(i: int)
    ensures PlainWord(IntToString(i))
  {
    if i < 0 {
      NatToStringPlain(-i);
      var r := IntToString(i);
      assert r == "-" + NatToString(-i);
      assert forall k :: 1 <= k < |r| ==> r[k] == NatToString(-i)[k - 1];
    } else {
      NatToStringPlain(i);
    }
  }

  /** The common arguments are one shell word each when the site id and the
      broker host are plain words. */
  lemma HermesArgsPlain(program: string, mqtt: MqttSettings)
    requires PlainWord(program) && PlainWord(mqtt.siteId) && PlainWord(mqtt.host)
    ensures forall i :: 0 <= i < |HermesArgs(program, mqtt)| ==> PlainWord(HermesArgs(program, mqtt)[i])
  {
    IntToStringPlain(mqtt.port);
  }

  /** A command line made of the common arguments followed by quoted words
      splits back into the common arguments and the words themselves. */
  lemma {:induction false} HermesLine(program: string, mqtt: MqttSettings, args: seq<string>, words: seq<string>)
    requires PlainWord(program) && PlainWord(mqtt.siteId) && PlainWord(mqtt.host)
    requires |args| == |words|
    requires forall i :: 0 <= i < |args| ==> args[i] == Quote(words[i])
    ensures ShellSplit(Join(HermesArgs(program, mqtt) + args, " ")) == Some(HermesArgs(program, mqtt) + words)
  {
    var head := HermesArgs(program, mqtt);
    HermesArgsPlain(program, mqtt);
    var all := head + args;
    var allWords := head + words;
    forall i | 0 <= i < |all|
      ensures all[i] == Quote(allWords[i])
    {
      if i < |head| {
        QuoteSafeWord(head[i]);
      }
    }
    SplitQuotedWords(all, allWords);
  }

  /** The web server's command: each option followed by its value, and the
      broker port written so that `int()` reads it back. */
  lemma WebserverCommandArgs(p: Profile, host: string, port: int)
    ensures var cmd := WebserverCommand(p, host, port);
      && |cmd| == 13 && cmd[0] == "rhasspy-server-hermes"
      && cmd[1] == "--profile" && cmd[2] == p.name
      && cmd[3] == "--system-profiles" && cmd[4] == p.systemProfilesDir
      && cmd[5] == "--user-profiles" && cmd[6] == p.userProfilesDir
      && cmd[7] == "--web-dir" && cmd[8] == "web"
      && cmd[9] == "--mqtt-host" && cmd[10] == host
      && cmd[11] == "--mqtt-port" && IntOf(Str(cmd[12])) == Some(port)
  {
    WebserverCommandWords(p, host, port);
    IntOfToStr(port);
  }

  lemma WebserverCommandWords(p: Profile, host: string, port: int)
    ensures var cmd := WebserverCommand(p, host, port);
      && |cmd| == 13 && cmd[0] == "rhasspy-server-hermes"
      && cmd[1] == "--profile" && cmd[2] == p.name
      && cmd[3] == "--system-profiles" && cmd[4] == p.systemProfilesDir
      && cmd[5] == "--user-profiles" && cmd[6] == p.userProfilesDir
      && cmd[7] == "--web-dir" && cmd[8] == "web"
      && cmd[9] == "--mqtt-host" && cmd[10] == host
      && cmd[11] == "--mqtt-port" && cmd[12] == IntToString(port)
  {
  }

  /** The common arguments followed by a flag and one quoted argument split
      back into the common arguments, the flag and the argument itself. */
  /** The programs and options that carry a nested command are plain words. */
  lemma SpeechOptionWordsPlain()
    ensures PlainWord("rhasspy-tts-cli-hermes") && PlainWord("--tts-command")
  {
  }

  lemma PlayOptionWordsPlain()
    ensures PlainWord("rhasspy-speakers-cli-hermes") && PlainWord("--play-command")
  {
  }

  lemma OptionLineWords(program: string, flag: string, mqtt: MqttSettings, nested: string)
    requires PlainWord(program) && PlainWord(flag) && PlainWord(mqtt.siteId) && PlainWord(mqtt.host)
    ensures ShellSplit(Join(HermesArgs(program, mqtt) + [flag, Quote(nested)], " "))
         == Some(HermesArgs(program, mqtt) + [flag, nested])
  {
    QuoteSafeWord(flag);
    HermesLine(program, mqtt, [flag, Quote(nested)], [flag, nested]);
  }

  /** A nested command of plain words is handed to the stage program as one
      argument and splits back into its words. */
  lemma NestedCommandRoundTrip(nested: seq<string>)
    requires forall i :: 0 <= i < |nested| ==> PlainWord(nested[i])
    ensures ShellSplit(Quote(Join(nested, " "))) == Some([Join(nested, " ")])
    ensures ShellSplit(Join(nested, " ")) == Some(nested)
  {
    QuoteIsOneWord(Join(nested, " "));
    forall i | 0 <= i < |nested|
      ensures nested[i] == Quote(nested[i])
    {
      QuoteSafeWord(nested[i]);
    }
    SplitQuotedWords(nested, nested);
  }

  lemma AudioFormatArgsPlain()
    ensures forall i :: 0 <= i < |AudioFormatArgs| ==> PlainWord(AudioFormatArgs[i])
  {
    assert PlainWord("--sample-rate") && PlainWord("16000") && PlainWord("--sample-width");
    assert PlainWord("2") && PlainWord("--channels") && PlainWord("1");
  }

  lemma RecordCommandShape(p: Profile, mqtt: MqttSettings)
    requires MicrophoneCommand(Str("arecord"), p, mqtt).Success?
    ensures StrippedSetting(p, "microphone.arecord.device").Success?
    ensures MicrophoneCommand(Str("arecord"), p, mqtt).value
         == HermesArgs("rhasspy-microphone-cli-hermes", mqtt)
            + (AudioFormatArgs + ["--record-command",
                Quote(Join(RecordCommand(StrippedSetting(p, "microphone.arecord.device").value), " "))])
  {
  }

  lemma RecordLineWords(mqtt: MqttSettings, nested: string)
    requires PlainWord(mqtt.siteId) && PlainWord(mqtt.host)
    ensures ShellSplit(Join(HermesArgs("rhasspy-microphone-cli-hermes", mqtt)
                            + (AudioFormatArgs + ["--record-command", Quote(nested)]), " "))
         == Some(HermesArgs("rhasspy-microphone-cli-hermes", mqtt) + (AudioFormatArgs + ["--record-command", nested]))
  {
    var tail := AudioFormatArgs + ["--record-command", Quote(nested)];
    var words := AudioFormatArgs + ["--record-command", nested];
    AudioFormatArgsPlain();
    forall i | 0 <= i < |tail|
      ensures tail[i] == Quote(words[i])
    {
      if i < |AudioFormatArgs| {
        QuoteSafeWord(tail[i]);
      } else if i == |AudioFormatArgs| {
        QuoteSafeWord("--record-command");
      }
    }
    HermesLine("rhasspy-microphone-cli-hermes", mqtt, tail, words);
  }

  lemma RecordCommandWords(device: string)
    requires device == "" || IsSafeWord(device)
    ensures ShellSplit(Join(RecordCommand(device), " ")) == Some(RecordCommand(device))
  {
    forall i | 0 <= i < |RecordCommand(device)|
      ensures PlainWord(RecordCommand(device)[i])
    {
      assert PlainWord("arecord") && PlainWord("-q") && PlainWord("-r") && PlainWord("16000") && PlainWord("-f");
      assert PlainWord("S16_LE") && PlainWord("-c") && PlainWord("1") && PlainWord("-t") && PlainWord("raw") && PlainWord("-D");
    }
    NestedCommandRoundTrip(RecordCommand(device));
  }

  /** The arecord microphone: the process supervisor hands the program its
      recording command as one argument, and that command splits into the
      `arecord` words, device included, when the device is a plain word. */
  lemma RecordCommandLine(p: Profile, mqtt: MqttSettings)
    requires PlainWord(mqtt.siteId) && PlainWord(mqtt.host)
    requires MicrophoneCommand(Str("arecord"), p, mqtt).Success?
    ensures StrippedSetting(p, "microphone.arecord.device").Success?
    ensures var device := StrippedSetting(p, "microphone.arecord.device").value;
      && ShellSplit(Join(MicrophoneCommand(Str("arecord"), p, mqtt).value, " "))
         == Some(HermesArgs("rhasspy-microphone-cli-hermes", mqtt)
                 + (AudioFormatArgs + ["--record-command", Join(RecordCommand(device), " ")]))
      && (device == "" || IsSafeWord(device) ==> ShellSplit(Join(RecordCommand(device), " ")) == Some(RecordCommand(device)))
  {
    RecordCommandShape(p, mqtt);
    var device := StrippedSetting(p, "microphone.arecord.device").value;
    RecordLineWords(mqtt, Join(RecordCommand(device), " "));
    if device == "" || IsSafeWord(device) {
      RecordCommandWords(device);
    }
  }

  /** The intent graph's path reaches the program as one argument, whatever
      characters it holds. */
  lemma IntentCommandLine(p: Profile, mqtt: MqttSettings)
    requires PlainWord(mqtt.siteId) && PlainWord(mqtt.host)
    requires IntentCommand(Str("fsticuffs"), p, mqtt).Success?
    ensures ShellSplit(Join(IntentCommand(Str("fsticuffs"), p, mqtt).value, " "))
         == Some(HermesArgs("rhasspy-nlu-hermes", mqtt)
                 + ["--graph", p.readPath(p.settings["intent.fsticuffs.intent_graph"])])
  {
    var path := p.readPath(p.settings["intent.fsticuffs.intent_graph"]);
    QuoteSafeWord("--graph");
    HermesLine("rhasspy-nlu-hermes", mqtt, ["--graph", Quote(path)], ["--graph", path]);
  }

  lemma SpeechCommandShape(p: Profile, mqtt: MqttSettings)
    requires TextToSpeechCommand(Str("espeak"), p, mqtt).Success?
    ensures EspeakVoice(p).Success?
    ensures TextToSpeechCommand(Str("espeak"), p, mqtt).value
         == HermesArgs("rhasspy-tts-cli-hermes", mqtt)
            + ["--tts-command", Quote(Join(EspeakCommand(EspeakVoice(p).value), " "))]
  {
  }

  /** The espeak command splits into its words when the voice is a plain word. */
  lemma EspeakCommandWords(voice: string)
    requires voice == "" || IsSafeWord(voice)
    ensures ShellSplit(Join(EspeakCommand(voice), " ")) == Some(EspeakCommand(voice))
  {
    assert PlainWord("espeak") && PlainWord("--stdout") && PlainWord("-v");
    NestedCommandRoundTrip(EspeakCommand(voice));
  }

  /** The espeak command reaches the text to speech program as one argument. */
  lemma SpeechCommandLine(p: Profile, mqtt: MqttSettings)
    requires PlainWord(mqtt.siteId) && PlainWord(mqtt.host)
    requires TextToSpeechCommand(Str("espeak"), p, mqtt).Success?
    ensures EspeakVoice(p).Success?
    ensures ShellSplit(Join(TextToSpeechCommand(Str("espeak"), p, mqtt).value, " "))
         == Some(HermesArgs("rhasspy-tts-cli-hermes", mqtt) + ["--tts-command", Join(EspeakCommand(EspeakVoice(p).value), " ")])
  {
    SpeechCommandShape(p, mqtt);
    SpeechOptionWordsPlain();
    OptionLineWords("rhasspy-tts-cli-hermes", "--tts-command", mqtt, Join(EspeakCommand(EspeakVoice(p).value), " "));
  }

  lemma PlayCommandShape(p: Profile, mqtt: MqttSettings)
    requires SpeakersCommand(Str("aplay"), p, mqtt).Success?
    ensures StrippedSetting(p, "sounds.arecord.device").Success?
    ensures SpeakersCommand(Str("aplay"), p, mqtt).value
         == HermesArgs("rhasspy-speakers-cli-hermes", mqtt)
            + ["--play-command", Quote(Join(PlayCommand(StrippedSetting(p, "sounds.arecord.device").value), " "))]
  {
  }

  /** The aplay command splits into its words when the device is a plain word. */
  lemma PlayCommandWords(device: string)
    requires device == "" || IsSafeWord(device)
    ensures ShellSplit(Join(PlayCommand(device), " ")) == Some(PlayCommand(device))
  {
    assert PlainWord("aplay") && PlainWord("-q") && PlainWord("-t") && PlainWord("wav") && PlainWord("-D");
    NestedCommandRoundTrip(PlayCommand(device));
  }

  /** The aplay command reaches the speakers program as one argument. */
  lemma PlayCommandLine(p: Profile, mqtt: MqttSettings)
    requires PlainWord(mqtt.siteId) && PlainWord(mqtt.host)
    requires SpeakersCommand(Str("aplay"), p, mqtt).Success?
    ensures StrippedSetting(p, "sounds.arecord.device").Success?
    ensures ShellSplit(Join(SpeakersCommand(Str("aplay"), p, mqtt).value, " "))
         == Some(HermesArgs("rhasspy-speakers-cli-hermes", mqtt)
                 + ["--play-command", Join(PlayCommand(StrippedSetting(p, "sounds.arecord.device").value), " ")])
  {
    PlayCommandShape(p, mqtt);
    PlayOptionWordsPlain();
    OptionLineWords("rhasspy-speakers-cli-hermes", "--play-command", mqtt, Join(PlayCommand(StrippedSetting(p, "sounds.arecord.device").value), " "));
  }
}
