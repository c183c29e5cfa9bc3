# rhasspy-supervisor configuration generator, in Dafny

This project models `profile_to_conf` from `rhasspysupervisor/__init__.py`.
It takes a Rhasspy profile, which is a set of dotted-path settings, and
writes a supervisord configuration file. The file has:

- a `[supervisord]` header;
- when the profile does not use an external MQTT broker, a `[program:mqtt]`
  section that runs `mosquitto` on the local port with `priority=0`;
- one `[program:NAME]` section for each enabled pipeline stage. Each holds the
  stage's `command=` line and five fixed boilerplate lines.

The stages are microphone, speakers, wake word, speech to text, intent
recognition, text to speech and dialogue. A builder `print_*` computes each
stage's command line. The builder raises when the stage's system is not one
it supports, or when a setting it asserts is missing. The nested arecord,
espeak and aplay command lines and the porcupine, pocketsphinx, kaldi and
intent graph paths are passed through `shlex.quote`. The snowboy model paths,
sensitivities and gain, the pyaudio `--device-index`, the site id and the
broker host are written unquoted.

The project has seven modules:

- `Results` (`results.dfy`): `Option`, `Result` and `Outcome`, plus the errors
  the generator can raise.
- `PyStrings` (`py_strings.dfy`): the Python string operations the generator
  uses (`strip`, `split`, `join`, `str(int)`, `int(str)`). It proves
  properties such as `Join(Split(s)) == s` and `int(str(i)) == i`.
- `Shlex` (`shlex.dfy`): `shlex.quote`, and a POSIX shell word splitter for the
  part of the shell language that `quote` produces. It proves that the
  splitter undoes the quoting.
- `Profiles` (`profiles.dfy`): profile values, `profile.get` with a default,
  `assert value` (truthiness) and `.strip()` of a setting.
- `Commands` (`commands.dfy`): each builder's command list, or its exception,
  as a function. The lemmas cover:
  - broker settings, stage gating and unsupported systems;
  - missing settings and the common argument prefix;
  - snowboy model groups and device and voice fallbacks;
  - how `command=` lines split back into arguments.
- `ConfSpec` (`conf_spec.dfy`): the whole output file as a function
  `ConfOutput` of the profile. Its lemmas state which programs a file
  declares, in which order, and what is left when a builder raises.
- `Supervisor` (`supervisor.dfy`): the generator itself, in imperative form.
  - A `ConfFile` object holds the printed lines.
  - Methods print line by line and grow command lists step by step.
  - The snowboy models are added by a `while` loop.
  - `ProfileToConf` is proved to print exactly `ConfOutput` and to end with
    its outcome.

Behaviours of the code that the model keeps:

- **Exceptions leave partial output.** The output file is opened before the
  call, so an exception leaves the lines already printed in the file. The
  model keeps them (`ConfOutput`, `ConfPrograms`).
- **Credentials make the first stage fail.** With an external broker and a
  non-blank user name, `mqtt_username` and `mqtt_password` are added to the
  keyword arguments. No stage builder declares them, so the first enabled
  stage raises `TypeError`. This is modelled as written, as
  `UnexpectedKeyword` (`CredentialsRejectedByEveryStage`,
  `CredentialsStopFirstStage`).
- **`mqtt.port` is converted first.** The port goes through `int()` before
  the broker mode is looked at, so a malformed port fails in internal mode
  too (`MalformedPortStopsAfterHeader`).
- **The speakers' device setting.** The speakers take their device from
  `sounds.arecord.device`, a setting under `sounds.` named after arecord. It is
  not `microphone.arecord.device`, and no aplay setting is read
  (`SpeakersCommand`, `PlayCommandLine`).
- **Seven stages in a fixed order.** Every stage gets the one site id read from
  `mqtt.site_id`. Any exception a builder raises ends the file
  (`PipelineOrder`, `StagesRun`, `ConfOutput`).

## Model

| member | source | states |
|---|---|---|
| `Supervisor.ProfileToConf` | rhasspysupervisor/__init__.py:13-116 | The writer prints exactly the lines of `ConfOutput` after what the file already held, and ends with that outcome: header, then the optional broker, then the stages in order, stopping at the first exception. |
| `Supervisor.WriteStages` | rhasspysupervisor/__init__.py:62-116 | The seven stage blocks print `StagesRun(PipelineOrder)`: each enabled stage's lines in order, ending at the first builder that raises. |
| `Supervisor.WriteEarlyStages` | rhasspysupervisor/__init__.py:62-84 | The microphone, speakers and wake word blocks print the run of those three stages. |
| `Supervisor.WriteLateStages` | rhasspysupervisor/__init__.py:86-116 | The speech to text, intent, text to speech and dialogue blocks print the run of those four stages. |
| `Supervisor.MicrophoneStage` | rhasspysupervisor/__init__.py:62-68 | The stage is skipped for `dummy` and `hermes`; otherwise it prints the builder's lines and the boilerplate, or stops with the builder's exception. |
| `Supervisor.SpeakersStage` | rhasspysupervisor/__init__.py:70-76 | As above, for `sounds.system`. |
| `Supervisor.WakeWordStage` | rhasspysupervisor/__init__.py:78-84 | The gate is the microphone's system; the builder is given `wake.system`. |
| `Supervisor.SpeechToTextStage` | rhasspysupervisor/__init__.py:86-92 | The stage is skipped only for `dummy`. |
| `Supervisor.IntentRecognitionStage` | rhasspysupervisor/__init__.py:94-100 | The stage is skipped only for `dummy`. |
| `Supervisor.TextToSpeechStage` | rhasspysupervisor/__init__.py:102-108 | The stage is skipped only for `dummy`. |
| `Supervisor.DialogueStage` | rhasspysupervisor/__init__.py:110-116 | The stage is skipped only for `dummy`. |
| `Supervisor.WriteBoilerplate` | rhasspysupervisor/__init__.py:20-26 | It appends the five boilerplate lines. |
| `Supervisor.ConfFile.Print` | rhasspysupervisor/__init__.py:29-31 | One `print` appends one line and changes nothing else. |
| `Supervisor.PrintMqtt` | rhasspysupervisor/__init__.py:122-132 | It appends `[program:mqtt]`, `command=mosquitto -p PORT` and `priority=0`. |
| `Supervisor.PrintWebserver` | rhasspysupervisor/__init__.py:138-159 | It appends the `web` program with the server's command line. |
| `Supervisor.PrintMicrophone` | rhasspysupervisor/__init__.py:167-239 | The lines and outcome are those of `MicrophoneCommand`: arecord with a quoted recording command, or pyaudio with an optional `--device-index`; any other system raises. |
| `Supervisor.PrintWake` | rhasspysupervisor/__init__.py:247-338 | The lines and outcome are those of `WakeCommand`: porcupine after its three asserts, or snowboy with one group per model. |
| `Supervisor.ExtendWithModels` | rhasspysupervisor/__init__.py:316-335 | The loop appends the `--model` groups of all named models, in list order (`wakeCommand + SnowboyModelArgs`). |
| `Supervisor.SnowboyModelArguments` | rhasspysupervisor/__init__.py:318-334 | One model's group: path, then each setting from the model's own settings or the stage-wide default. |
| `Supervisor.PrintSpeechToText` | rhasspysupervisor/__init__.py:346-413 | The lines and outcome are those of `SpeechToTextCommand`: pocketsphinx or kaldi, each asserting its settings in order. |
| `Supervisor.PrintIntentRecognition` | rhasspysupervisor/__init__.py:421-452 | The lines and outcome are those of `IntentCommand`. |
| `Supervisor.PrintDialogue` | rhasspysupervisor/__init__.py:458-481 | The lines and outcome are those of `DialogueCommand`. |
| `Supervisor.PrintTextToSpeech` | rhasspysupervisor/__init__.py:489-525 | The lines and outcome are those of `TextToSpeechCommand`: the voice, else the language, and a quoted espeak command. |
| `Supervisor.PrintSpeakers` | rhasspysupervisor/__init__.py:531-561 | The lines and outcome are those of `SpeakersCommand`: a quoted aplay command, with `-D` only for a non-blank device. |
| `ConfSpec.ConfPrograms` | rhasspysupervisor/__init__.py:28-116 | The file's programs are the broker (internal mode only), then the enabled stages in pipeline order. They are exactly that when writing ends normally, and a prefix of it when a builder raises. A malformed broker setting leaves only the header. |
| `ConfSpec.ProgramsOfStages` | rhasspysupervisor/__init__.py:62-116 | A run of stages declares a prefix of the enabled stages' names, and all of them when it ends normally. |
| `ConfSpec.StagesRunOk` | rhasspysupervisor/__init__.py:62-116 | A run ends normally exactly when every enabled stage's builder succeeds. |
| `ConfSpec.StagesRunAppend` | rhasspysupervisor/__init__.py:62-116 | Running two lists of stages in turn runs the second only if the first ended normally. |
| `ConfSpec.ProgramsOfStage` | rhasspysupervisor/__init__.py:62-68 | A stage declares its own program exactly when it is enabled and its builder succeeds. |
| `ConfSpec.ProgramsOfStanza` | rhasspysupervisor/__init__.py:20-26 | A program's two lines plus the boilerplate declare that one program. |
| `ConfSpec.ProgramsOfBroker` | rhasspysupervisor/__init__.py:50-58 | The broker block declares only `mqtt`. |
| `ConfSpec.NoProgramsInBoilerplate` | rhasspysupervisor/__init__.py:20-31 | Neither the header nor the boilerplate declares a program. |
| `ConfSpec.ProgramHeaderName` | rhasspysupervisor/__init__.py:128 | `[program:NAME]` is a section header naming `NAME`. |
| `ConfSpec.ProgramsAppend` | rhasspysupervisor/__init__.py:62-116 | The programs of concatenated lines are the programs of each part, in order. |
| `ConfSpec.WebServerNeverWritten` | rhasspysupervisor/__init__.py:138-159 | No file declares the `web` program, since `print_webserver` is never called. |
| `ConfSpec.InternalBrokerDefaultPort` | rhasspysupervisor/__init__.py:16 | Called with the default local port, the internal broker's command line is `mosquitto -p 12183`. |
| `ConfSpec.InternalBrokerFirst` | rhasspysupervisor/__init__.py:50-58 | In internal mode, lines 4 to 6 of the file are `[program:mqtt]`, `command=mosquitto -p PORT` and `priority=0`, right after the header. |
| `ConfSpec.BrokerAfterHeader` | rhasspysupervisor/__init__.py:122-132 | The broker block's first three lines, at any port and with anything after them. |
| `ConfSpec.MalformedPortStopsAfterHeader` | rhasspysupervisor/__init__.py:33-38 | A `mqtt.port` that `int()` rejects ends writing after the header with that error, in either broker mode. |
| `ConfSpec.CredentialsStopFirstStage` | rhasspysupervisor/__init__.py:46-65 | With credentials, the file is only the header. It ends normally if no stage is enabled and raises the unexpected-keyword error otherwise. |
| `ConfSpec.CredentialsStopStages` | rhasspysupervisor/__init__.py:46-116 | With credentials, a run prints nothing and raises at the first enabled stage. |
| `ConfSpec.EnabledNamesAreStages` | rhasspysupervisor/__init__.py:62-116 | No stage program is called `web`. |
| `Commands.InternalBrokerSettings` | rhasspysupervisor/__init__.py:50-53 | In internal mode every stage gets the site id, `localhost`, the local port and no credentials. |
| `Commands.InternalBrokerIgnoresExternalSettings` | rhasspysupervisor/__init__.py:34-53 | In internal mode the external host, port, user name and password do not affect what the stages receive. |
| `Commands.CredentialsOnlyForExternalBroker` | rhasspysupervisor/__init__.py:40-53 | Reading the settings fails exactly when `mqtt.port` is not an integer. Credentials are present exactly when the broker is external and the user name is not all white space. |
| `Commands.ExternalBrokerSettings` | rhasspysupervisor/__init__.py:34-49 | In external mode the profile's host and port are passed on as given. |
| `Commands.CredentialsRejectedByEveryStage` | rhasspysupervisor/__init__.py:167-174 | Every stage builder called with credentials raises the unexpected-keyword error. |
| `Commands.UnsupportedSystemIsFatal` | rhasspysupervisor/__init__.py:176-179 | A builder raises the unsupported-system error for its stage exactly when the system is not one of the stage's variants. |
| `Commands.UnsupportedMicrophone` | rhasspysupervisor/__init__.py:176-179 | The microphone supports exactly `arecord` and `pyaudio`. |
| `Commands.UnsupportedSpeakers` | rhasspysupervisor/__init__.py:540 | The speakers support exactly `aplay`. |
| `Commands.UnsupportedWakeWord` | rhasspysupervisor/__init__.py:256-259 | The wake word supports exactly `porcupine` and `snowboy`. |
| `Commands.UnsupportedSpeechToText` | rhasspysupervisor/__init__.py:355-358 | Speech to text supports exactly `pocketsphinx` and `kaldi`. |
| `Commands.UnsupportedIntentRecognition` | rhasspysupervisor/__init__.py:430-432 | Intent recognition supports exactly `fsticuffs`. |
| `Commands.UnsupportedTextToSpeech` | rhasspysupervisor/__init__.py:498-500 | Text to speech supports exactly `espeak`. |
| `Commands.UnsupportedDialogue` | rhasspysupervisor/__init__.py:467 | Dialogue supports exactly `hermes`. |
| `Commands.CommandPrefix` | rhasspysupervisor/__init__.py:198-207 | A successful command comes from a supported system and begins with that system's program, `--debug`, the site id, host and port. |
| `Commands.PrefixMicrophone` | rhasspysupervisor/__init__.py:198-225 | As above, for the microphone's two programs. |
| `Commands.PrefixSpeakers` | rhasspysupervisor/__init__.py:547-555 | As above, for the speakers. |
| `Commands.PrefixWakeWord` | rhasspysupervisor/__init__.py:273-301 | As above, for porcupine and snowboy. |
| `Commands.PrefixSpeechToText` | rhasspysupervisor/__init__.py:371-405 | As above, for pocketsphinx and kaldi. |
| `Commands.PrefixIntentRecognition` | rhasspysupervisor/__init__.py:438-446 | As above, for fsticuffs. |
| `Commands.PrefixTextToSpeech` | rhasspysupervisor/__init__.py:511-519 | As above, for espeak. |
| `Commands.PrefixDialogue` | rhasspysupervisor/__init__.py:469-478 | As above, for the dialogue manager. |
| `Commands.FirstMissingSpec` | rhasspysupervisor/__init__.py:262-269 | The search finds nothing exactly when every asserted setting is present and truthy, and what it finds is one of them. |
| `Commands.BuilderSucceeds` | rhasspysupervisor/__init__.py:167-561 | Conversely, a builder returns a command when the broker needs no credentials, the system is one it supports, every asserted setting is present and truthy, and every setting it strips or splits is absent or a string. |
| `Commands.SucceedsMicrophone` | rhasspysupervisor/__init__.py:176-239 | The microphone builder succeeds for arecord and pyaudio when its device setting is absent or a string. |
| `Commands.SucceedsWakeWord` | rhasspysupervisor/__init__.py:261-335 | The wake word builder succeeds for porcupine once its three asserted settings are present, and for snowboy when `wake.snowboy.model` is absent or a string. |
| `Commands.SucceedsSpeechToText` | rhasspysupervisor/__init__.py:360-410 | The speech to text builder succeeds for pocketsphinx once its three asserted settings are present, and for kaldi once its two are present and the graph setting is a string. |
| `Commands.SucceedsTextToSpeech` | rhasspysupervisor/__init__.py:502-522 | The espeak builder succeeds when the voice and `language` settings are absent or strings. |
| `Commands.TextSettingOfWrongType` | rhasspysupervisor/__init__.py:194 | A present setting that the builder strips or splits but that is not a string makes the builder raise an error naming that setting, as `.strip()` or `.split()` raise on non-strings (also lines 234, 308-310, 395-397, 504 and 543). |
| `Commands.LanguageOfWrongType` | rhasspysupervisor/__init__.py:504-506 | When the voice is absent or blank, a `language` setting that is not a string makes the espeak builder raise an error naming `language`. |
| `Commands.KaldiGraphDir` | rhasspysupervisor/__init__.py:388-410 | A kaldi command ends with the quoted model directory that `read_path` resolved and the quoted graph directory, which is the graph setting joined onto that model directory. |
| `Commands.MissingSettingIsFatal` | rhasspysupervisor/__init__.py:261-269 | For a supported system, a missing or falsy asserted setting raises. The error names the first such setting, in the builder's order (porcupine, pocketsphinx, kaldi, fsticuffs). |
| `Commands.CommandNeedsRequiredSettings` | rhasspysupervisor/__init__.py:360-394 | A command is only built when every setting the system asserts is present and truthy. |
| `Commands.DeviceArgsFromSetting` | rhasspysupervisor/__init__.py:194-196 | No device arguments exactly when the setting is blank or all white space; otherwise the flag and the stripped setting. |
| `Commands.EspeakVoiceFallback` | rhasspysupervisor/__init__.py:504-509 | The voice is the stripped voice setting when that is not blank, and the stripped `language` otherwise. |
| `Commands.PorcupineDefaultSensitivity` | rhasspysupervisor/__init__.py:271-289 | Without a sensitivity setting, the porcupine command ends with `--sensitivity 0.5`. |
| `Commands.WakeFollowsMicrophone` | rhasspysupervisor/__init__.py:78-84 | The wake word stage is enabled exactly when the microphone stage is. |
| `Commands.MergeDefaults` | rhasspysupervisor/__init__.py:318-326 | The merged settings keep every model setting, and add a default only for a key the model does not set. |
| `Commands.SnowboyStageDefaults` | rhasspysupervisor/__init__.py:303-306 | The stage-wide defaults are sensitivity `0.5`, gain `1.0` and no frontend when the profile does not set them; a model with no settings of its own gets all three. |
| `Commands.ModelArgsOverride` | rhasspysupervisor/__init__.py:316-335 | One model's group is `--model`, its path, then sensitivity, gain and frontend. Each is the model's own setting if it has one, else the stage-wide default (`True`/`False` for the frontend flag). |
| `Commands.SnowboyModelArgsGroups` | rhasspysupervisor/__init__.py:316-335 | The snowboy arguments are five per model. The i-th group of five is the i-th model's group. |
| `Commands.SnowboyDefaultModel` | rhasspysupervisor/__init__.py:308-310 | Without `wake.snowboy.model`, the one model is `snowboy/snowboy.umdl`. |
| `Commands.SnowboyModelNamesSplit` | rhasspysupervisor/__init__.py:308-310 | The model names are the comma-separated pieces of the setting. There is at least one, none holds a comma, and joined with commas they give the setting back. |
| `Commands.HermesLine` | rhasspysupervisor/__init__.py:198-214 | A `command=` line made of the common arguments and quoted words splits back, the way a shell splits it, into the common arguments and the original words, with a plain site id and host. |
| `Commands.HermesArgsPlain` | rhasspysupervisor/__init__.py:198-206 | With a plain site id and host, each common argument is a single shell word that quoting leaves alone. |
| `Commands.WebserverCommandArgs` | rhasspysupervisor/__init__.py:138-159 | The web server command has thirteen words: the profile name, the two profile directories and the broker host follow their options, and the port word reads back through `int()` as the broker port. |
| `Commands.OptionLineWords` | rhasspysupervisor/__init__.py:511-521 | The common arguments followed by a flag and one quoted argument split back into the common arguments, the flag and the argument itself, whatever characters the argument holds, with a plain site id and host. |
| `Commands.NestedCommandRoundTrip` | rhasspysupervisor/__init__.py:213-214 | A nested command of plain words reaches the program as one argument, and splits into its words. |
| `Commands.RecordLineWords` | rhasspysupervisor/__init__.py:198-214 | The arecord `command=` line splits into the common arguments, the format and the recording command as one word, with a plain site id and host. |
| `Commands.RecordCommandWords` | rhasspysupervisor/__init__.py:182-196 | The recording command splits into its words when the device is blank or a plain word. |
| `Commands.RecordCommandLine` | rhasspysupervisor/__init__.py:181-215 | The supervisor hands the microphone program its recording command as one argument, and that command splits into the arecord words, device included. |
| `Commands.IntentCommandLine` | rhasspysupervisor/__init__.py:434-449 | The intent graph's path splits back, the way a POSIX shell splits it, into one argument, whatever characters it holds. |
| `Commands.EspeakCommandWords` | rhasspysupervisor/__init__.py:503-509 | The espeak command splits into its words when the voice is blank or a plain word. |
| `Commands.SpeechCommandLine` | rhasspysupervisor/__init__.py:502-525 | The text to speech program receives the espeak command line as one argument. |
| `Commands.PlayCommandWords` | rhasspysupervisor/__init__.py:542-545 | The aplay command splits into its words when the device is blank or a plain word. |
| `Commands.PlayCommandLine` | rhasspysupervisor/__init__.py:542-561 | The speakers program receives the aplay command line as one argument. |
| `Commands.IntToStringPlain` | rhasspysupervisor/__init__.py:206 | `str(port)` is one plain shell word. |
| `Shlex.SplitQuotedWords` | rhasspysupervisor/__init__.py:213-214 | Words each passed through `shlex.quote` and joined with spaces split back into exactly those words. |
| `Shlex.QuoteIsOneWord` | rhasspysupervisor/__init__.py:213-214 | `shlex.quote(w)` reads as the single word `w`, for any `w`, the empty string and single quotes included. |
| `Shlex.QuoteSafeWord` | rhasspysupervisor/__init__.py:282-283 | `shlex.quote` leaves a non-empty word of safe characters unchanged. |
| `Shlex.QuoteReadsAs` | rhasspysupervisor/__init__.py:283 | A quoted word reads as the original word whatever comes after it. |
| `Shlex.QuoteLex` | rhasspysupervisor/__init__.py:283 | Reading `shlex.quote(w)` extends the current word by exactly `w`. |
| `Shlex.LexEscaped` | rhasspysupervisor/__init__.py:283 | Inside single quotes, the escaped text followed by the closing quote reads as the original text. |
| `Shlex.LexWords` | rhasspysupervisor/__init__.py:239 | Space-separated arguments that each read as a word split into those words, in order. |
| `PyStrings.StripSpec` | rhasspysupervisor/__init__.py:43-44 | `strip()` keeps a middle part of the string. It removes only white space on either side, and the result neither starts nor ends with white space. |
| `PyStrings.StripLeadingSpec` | rhasspysupervisor/__init__.py:43 | `lstrip` removes exactly the leading white space. |
| `PyStrings.StripTrailingSpec` | rhasspysupervisor/__init__.py:43 | `rstrip` removes exactly the trailing white space. |
| `PyStrings.StripBlank` | rhasspysupervisor/__init__.py:46 | A stripped string is empty exactly when the string is all white space; this is what `if mqtt_username:` tests. |
| `PyStrings.StripUnchanged` | rhasspysupervisor/__init__.py:543 | A string without white space at either end is its own strip. |
| `PyStrings.Split` | rhasspysupervisor/__init__.py:308-310 | `split(",")` gives at least one piece, and no piece holds the separator. |
| `PyStrings.JoinSplit` | rhasspysupervisor/__init__.py:308-310 | Joining the pieces of a split with the separator gives the string back. |
| `PyStrings.SplitJoin` | rhasspysupervisor/__init__.py:308-310 | Splitting separator-free pieces joined with the separator gives the pieces back. |
| `PyStrings.NatToString` | rhasspysupervisor/__init__.py:126 | `str(n)` is a non-empty run of decimal digits, with at least two digits exactly when `n >= 10`. |
| `PyStrings.DigitsValueOfNat` | rhasspysupervisor/__init__.py:126 | The digits of `str(n)` stand for `n`. |
| `PyStrings.ParseIntToString` | rhasspysupervisor/__init__.py:37 | `int(str(i)) == i` for every integer, negative ones included. |
| `Profiles.IntOfToStr` | rhasspysupervisor/__init__.py:37 | `int()` accepts `str()` of every integer setting and gives the integer back. |

## Left out

- The command line entry point (`rhasspysupervisor/__main__.py`) is not part
  of this model. That covers argument parsing, logging set-up, `~` expansion,
  loading the profile and opening the output file. The output file is a
  `ConfFile` object holding lines.
- The `_LOGGER.debug` calls in the disabled-stage branches are left out. They
  only log.
- Profile loading and path resolution are left out. `profile.read_path` is an
  uninterpreted function (`Profile.readPath`), and `profile.name` and the
  profile directories are plain strings.
- `SnowboyDefaultsOf`: `float()` of `wake.snowboy.audio_gain` and Python's
  float formatting are not modelled.
  - An integer or boolean gains `.0`, and a string keeps its own text.
  - A string that `float()` would reject, or would print differently (such
    as `"2"` printed as `2.0`), does not raise and keeps its text.
- `Profiles.IntOf`: `int()` of a float setting (which Python truncates) is
  treated as an error. `int()` of a string accepts only ASCII digits, with no
  underscores and no other Unicode digits.
- `Profiles.ToStr`: `str()` of floats, lists, null and dictionaries is the
  text carried by the `Other` value, not computed.
- `Commands.JoinPath`: `pathlib` joins only as "absolute name replaces the
  directory, otherwise `dir/name`". Normalisation is not modelled: repeated
  or trailing slashes, `.` parts and an empty directory.
- The snowboy loop writes the defaults into the profile's own per-model
  dictionaries. The model reads those dictionaries without changing them, so
  that side effect on the profile after the call is not captured. A
  `wake.snowboy.model_settings` entry that is not a dictionary is not
  modelled.
- `Commands.RecordCommandLine`, `Commands.SpeechCommandLine`,
  `Commands.PlayCommandLine`, `Commands.IntentCommandLine`, `Commands.HermesLine`,
  `Commands.OptionLineWords`, `Commands.RecordLineWords`: the site id and
  broker host are not quoted by the generator. These round trips are stated
  only when both are plain shell words. Likewise the nested command splits
  into its words only when the device or voice is a plain word.
- `Shlex.ShellSplit` models the POSIX shell word splitting that the process
  supervisor applies to a `command=` value, and nothing else it does there.
  Its `%(name)s` expansion is not modelled, and `shlex.quote` leaves `%`
  unquoted. Nor is the cutting of an inline `;` comment by its configuration
  parser. The round trips are stated for the shell split alone.
- `Shlex.ShellSplit` covers only the part of the POSIX shell language that
  `shlex.quote` produces. That is unquoted safe characters, single quotes,
  and double quotes without `\`, `$` or a backquote. Other input is refused
  rather than split.
- `ConfSpec.ConfPrograms`, `ConfSpec.WebServerNeverWritten`: each printed
  string is taken as one line of the file (`ConfSpec.Programs`,
  `Supervisor.ConfFile.Print`). A setting holding a newline is not modelled.
  This covers the unquoted site id, host, pyaudio device and snowboy paths, and
  text inside `shlex.quote`'s quotes. Such a setting would add physical lines
  to the file, and could add a `[program:...]` section these lemmas do not
  count.
- Running Python with `-O` removes `assert` statements. The model follows the
  normal interpreter, where a failed `assert` raises.
