/** The configuration file `profile_to_conf` writes, as a function of the
    profile: the lines it prints and how it ends. The imperative writer in
    module `Supervisor` is proved to print exactly these lines; the lemmas
    here say what the file holds. */
module ConfSpec {
  import opened Results
  import opened PyStrings
  import opened Profiles
  import opened Commands

  /** The `[supervisord]` section that opens every file. */
  const Header: seq<string> := ["[supervisord]", "nodaemon=true", ""]

  /** The settings written after every program's command. */
  const Boilerplate: seq<string> :=
    ["stopasgroup=true", "stdout_logfile=/dev/stdout", "stdout_logfile_maxbytes=0", "redirect_stderr=true", ""]

  function ProgramHeader(name: string): string
  {
    "[program:" + name + "]"
  }

  /** What a builder prints: the program's section header and its command,
      the arguments joined with single spaces. */
  function ProgramLines(name: string, cmd: seq<string>): seq<string>
  {
    [ProgramHeader(name), "command=" + Join(cmd, " ")]
  }

  /** What a builder prints for a command it may fail to build: nothing when
      it raises. */
  function BuilderLines(name: string, cmd: Result<seq<string>>): seq<string>
  {
    if cmd.Success? then ProgramLines(name, cmd.value) else []
  }

  /** The internal broker's program: it carries `priority=0` so the process
      supervisor starts it before the services that connect to it. */
  function BrokerLines(port: int): seq<string>
  {
    ProgramLines("mqtt", MqttCommand(port)) + ["priority=0"] + Boilerplate
  }

  /** The lines written and how the writing ended. */
  datatype Run = Run(lines: seq<string>, outcome: Outcome)

  /** One stage: nothing when it is switched off, nothing and the builder's
      exception when the builder raises, and otherwise its program followed
      by the boilerplate. */
  function StageRun(s: Stage, p: Profile, mqtt: MqttSettings): Run
  {
    if !Enabled(p, s) then Run([], Ok)
    else match StageCommand(s, SystemOf(p, s), p, mqtt)
      case Failure(e) => Run([], Fail(e))
      case Success(cmd) => Run(ProgramLines(ProgramName(s), cmd) + Boilerplate, Ok)
  }

  /** Stages in order, stopping at the first exception. */
  function StagesRun(stages: seq<Stage>, p: Profile, mqtt: MqttSettings): Run
  {
    if stages == [] then Run([], Ok)
    else
      var first := StageRun(stages[0], p, mqtt);
      if first.outcome.Fail? then first
      else
        var rest := StagesRun(stages[1..], p, mqtt);
        Run(first.lines + rest.lines, rest.outcome)
  }

  /** Running two lists of stages one after the other is running the
      second only when the first ends normally. */
  lemma {:induction false} StagesRunAppend(a: seq<Stage>, b: seq<Stage>, p: Profile, mqtt: MqttSettings)
    ensures var first := StagesRun(a, p, mqtt);
      var second := StagesRun(b, p, mqtt);
      StagesRun(a + b, p, mqtt)
        == if first.outcome.Fail? then first else Run(first.lines + second.lines, second.outcome)
  {
    if a == [] {
      assert a + b == b;
    } else {
      assert (a + b)[0] == a[0] && (a + b)[1..] == a[1..] + b;
      StagesRunAppend(a[1..], b, p, mqtt);
      var head := StageRun(a[0], p, mqtt);
      if head.outcome.Ok? {
        Assoc3(head.lines, StagesRun(a[1..], p, mqtt).lines, StagesRun(b, p, mqtt).lines);
      }
    }
  }

  /** The whole file. The header is printed before the broker settings are
      read, so it is there even when `mqtt.port` is not an integer; the
      internal broker's program comes before every stage. The output file is
      opened for writing before the call, so what was printed before an
      exception stays in it. */
  function ConfOutput(p: Profile, localMqttPort: int): Run
  {
    match MqttSettingsOf(p, localMqttPort)
    case Failure(e) => Run(Header, Fail(e))
    case Success(mqtt) =>
      var broker := if RemoteMqtt(p) then [] else BrokerLines(localMqttPort);
      var stages := StagesRun(PipelineOrder, p, mqtt);
      Run(Header + broker + stages.lines, stages.outcome)
  }

  // ---------------------------------------------------------------------------
  // The programs a file declares

  predicate IsProgramHeader(line: string)
  {
    |line| >= 10 && line[..9] == "[program:" && line[|line| - 1] == ']'
  }

  /** The names of the `[program:NAME]` sections, in file order. */
  function Programs(lines: seq<string>): seq<string>
  {
    if lines == [] then []
    else
      var line := lines[0];
      (if IsProgramHeader(line) then [line[9..|line| - 1]] else []) + Programs(lines[1..])
  }

  /** The names of the stages that are switched on, in order. */
  function EnabledNames(p: Profile, stages: seq<Stage>): seq<string>
  {
    if stages == [] then []
    else (if Enabled(p, stages[0]) then [ProgramName(stages[0])] else []) + EnabledNames(p, stages[1..])
  }

  lemma {:induction false} ProgramsAppend(a: seq<string>, b: seq<string>)
    ensures Programs(a + b) == Programs(a) + Programs(b)
  {
    if a != [] {
      ProgramsAppend(a[1..], b);
      assert (a + b)[1..] == a[1..] + b;
    } else {
      assert a + b == b;
    }
  }

  lemma ProgramHeaderName(name: string)
    requires name != ""
    ensures IsProgramHeader(ProgramHeader(name))
    ensures ProgramHeader(name)[9..|ProgramHeader(name)| - 1] == name
  {
    var h := ProgramHeader(name);
    assert h[..9] == "[program:";
  }

  /** A line whose first or second character differs from a section
      header's declares no program. */
  lemma NotProgramHeader(line: string)
    requires line == [] || line[0] != '[' || (|line| >= 2 && line[1] != 'p')
    ensures !IsProgramHeader(line)
  {
    if |line| >= 10 {
      assert line[..9][0] == line[0] && line[..9][1] == line[1];
    }
  }

  lemma {:induction false} NoPrograms(lines: seq<string>)
    requires forall i :: 0 <= i < |lines| ==> !IsProgramHeader(lines[i])
    ensures Programs(lines) == []
  {
    if lines != [] {
      NoPrograms(lines[1..]);
    }
  }

  lemma NoProgramsInBoilerplate()
    ensures Programs(Header) == [] && Programs(Boilerplate) == []
  {
    forall i | 0 <= i < |Header|
      ensures !IsProgramHeader(Header[i])
    {
      NotProgramHeader(Header[i]);
    }
    forall i | 0 <= i < |Boilerplate|
      ensures !IsProgramHeader(Boilerplate[i])
    {
      NotProgramHeader(Boilerplate[i]);
    }
    NoPrograms(Header);
    NoPrograms(Boilerplate);
  }

  lemma ProgramsOfCommand(name: string, cmd: seq<string>)
    requires name != ""
    ensures Programs(ProgramLines(name, cmd)) == [name]
  {
    ProgramHeaderName(name);
    var c := "command=" + Join(cmd, " ");
    assert c[0] == 'c';
    NotProgramHeader(c);
    NoPrograms([c]);
    assert ProgramLines(name, cmd)[1..] == [c];
  }

  /** A program's lines and its boilerplate declare that one program. */
  lemma ProgramsOfStanza(name: string, cmd: seq<string>)
    requires name != ""
    ensures Programs(ProgramLines(name, cmd) + Boilerplate) == [name]
  {
    ProgramsOfCommand(name, cmd);
    ProgramsAppend(ProgramLines(name, cmd), Boilerplate);
    NoProgramsInBoilerplate();
  }

  lemma ProgramsOfBroker(port: int)
    ensures Programs(BrokerLines(port)) == ["mqtt"]
  {
    ProgramsOfCommand("mqtt", MqttCommand(port));
    NotProgramHeader("priority=0");
    NoPrograms(["priority=0"]);
    ProgramsAppend(ProgramLines("mqtt", MqttCommand(port)), ["priority=0"]);
    ProgramsAppend(ProgramLines("mqtt", MqttCommand(port)) + ["priority=0"], Boilerplate);
    NoProgramsInBoilerplate();
  }

  /** What one stage contributes to the list of programs. */
  lemma ProgramsOfStage(s: Stage, p: Profile, mqtt: MqttSettings)
    ensures var run := StageRun(s, p, mqtt);
      Programs(run.lines) == if Enabled(p, s) && run.outcome == Ok then [ProgramName(s)] else []
  {
    if Enabled(p, s) && StageRun(s, p, mqtt).outcome == Ok {
      ProgramsOfStanza(ProgramName(s), StageCommand(s, SystemOf(p, s), p, mqtt).value);
    }
  }

  /** A run of stages declares the enabled stages' programs in pipeline order:
      all of them when it ends normally, and otherwise those before the stage
      that raised. */
  lemma {:induction false} ProgramsOfStages(stages: seq<Stage>, p: Profile, mqtt: MqttSettings)
    ensures var run := StagesRun(stages, p, mqtt);
      && Programs(run.lines) <= EnabledNames(p, stages)
      && (run.outcome == Ok ==> Programs(run.lines) == EnabledNames(p, stages))
  {
    if stages != [] {
      var s := stages[0];
      var first := StageRun(s, p, mqtt);
      var rest := StagesRun(stages[1..], p, mqtt);
      var head := if Enabled(p, s) then [ProgramName(s)] else [];
      assert EnabledNames(p, stages) == head + EnabledNames(p, stages[1..]);
      ProgramsOfStage(s, p, mqtt);
      if first.outcome.Ok? {
        ProgramsOfStages(stages[1..], p, mqtt);
        assert StagesRun(stages, p, mqtt) == Run(first.lines + rest.lines, rest.outcome);
        ProgramsAppend(first.lines, rest.lines);
        PrefixExtend(head, Programs(rest.lines), EnabledNames(p, stages[1..]));
      } else {
        assert StagesRun(stages, p, mqtt) == first;
      }
    }
  }

  /** A run of stages ends normally exactly when every enabled stage's
      builder succeeds. */
  lemma {:induction false} StagesRunOk(stages: seq<Stage>, p: Profile, mqtt: MqttSettings)
    ensures StagesRun(stages, p, mqtt).outcome == Ok <==>
      forall k :: 0 <= k < |stages| && Enabled(p, stages[k]) ==>
        StageCommand(stages[k], SystemOf(p, stages[k]), p, mqtt).Success?
  {
    if stages != [] {
      StagesRunOk(stages[1..], p, mqtt);
      var first := StageRun(stages[0], p, mqtt);
      assert first.outcome == Ok <==>
        (Enabled(p, stages[0]) ==> StageCommand(stages[0], SystemOf(p, stages[0]), p, mqtt).Success?);
      assert StagesRun(stages, p, mqtt).outcome
          == if first.outcome.Fail? then first.outcome else StagesRun(stages[1..], p, mqtt).outcome;
      assert forall k :: 1 <= k < |stages| ==> stages[k] == stages[1..][k - 1];
      if first.outcome.Ok? && StagesRun(stages[1..], p, mqtt).outcome != Ok {
        var k :| 0 <= k < |stages[1..]| && Enabled(p, stages[1..][k])
                 && StageCommand(stages[1..][k], SystemOf(p, stages[1..][k]), p, mqtt).Failure?;
        assert stages[k + 1] == stages[1..][k];
      }
    }
  }

  /** The file's programs: the internal broker first when there is one, then
      the enabled stages in pipeline order. When a builder raises, the
      programs written before it are still in the file; when the broker
      settings cannot be read, nothing but the header is. */
  lemma ConfPrograms(p: Profile, localMqttPort: int)
    ensures var out := ConfOutput(p, localMqttPort);
      var expected := (if RemoteMqtt(p) then [] else ["mqtt"]) + EnabledNames(p, PipelineOrder);
      && (MqttSettingsOf(p, localMqttPort).Failure? ==> out.lines == Header && out.outcome.Fail?)
      && (MqttSettingsOf(p, localMqttPort).Success? ==> Programs(out.lines) <= expected)
      && (out.outcome == Ok ==> Programs(out.lines) == expected)
  {
    if MqttSettingsOf(p, localMqttPort).Success? {
      var mqtt := MqttSettingsOf(p, localMqttPort).value;
      var broker := if RemoteMqtt(p) then [] else BrokerLines(localMqttPort);
      var stages := StagesRun(PipelineOrder, p, mqtt);
      assert ConfOutput(p, localMqttPort) == Run(Header + broker + stages.lines, stages.outcome);
      ProgramsOfStages(PipelineOrder, p, mqtt);
      if RemoteMqtt(p) {
        NoPrograms(broker);
      } else {
        ProgramsOfBroker(localMqttPort);
      }
      NoProgramsInBoilerplate();
      FilePrograms(Header, broker, if RemoteMqtt(p) then [] else ["mqtt"], stages, EnabledNames(p, PipelineOrder));
    }
  }

  /** The programs of a file made of a header without programs, the broker's
      lines and a run of stages. */
  lemma FilePrograms(head: seq<string>, broker: seq<string>, brokerNames: seq<string>, run: Run, names: seq<string>)
    requires Programs(head) == []
    requires Programs(broker) == brokerNames
    requires Programs(run.lines) <= names
    requires run.outcome == Ok ==> Programs(run.lines) == names
    ensures Programs(head + broker + run.lines) <= brokerNames + names
    ensures run.outcome == Ok ==> Programs(head + broker + run.lines) == brokerNames + names
  {
    ProgramsAppend(head + broker, run.lines);
    ProgramsAppend(head, broker);
    assert Programs(head + broker) == [] + brokerNames == brokerNames;
    PrefixExtend(brokerNames, Programs(run.lines), names);
  }

  lemma Assoc3<T>(a: seq<T>, b: seq<T>, c: seq<T>)
    ensures a + (b + c) == a + b + c
  {
  }

  lemma PrefixExtend<T>(a: seq<T>, b: seq<T>, c: seq<T>)
    requires b <= c
    ensures a + b <= a + c
  {
    assert (a + c)[..|a + b|] == a + b;
  }

  /** The web server's program is never part of the file. */
  lemma WebServerNeverWritten(p: Profile, localMqttPort: int)
    ensures "web" !in Programs(ConfOutput(p, localMqttPort).lines)
  {
    ConfPrograms(p, localMqttPort);
    var expected := (if RemoteMqtt(p) then [] else ["mqtt"]) + EnabledNames(p, PipelineOrder);
    EnabledNamesAreStages(p, PipelineOrder);
    if MqttSettingsOf(p, localMqttPort).Success? {
      var got := Programs(ConfOutput(p, localMqttPort).lines);
      assert forall i :: 0 <= i < |got| ==> got[i] == expected[i];
    } else {
      NoProgramsInBoilerplate();
    }
  }

  lemma {:induction false} EnabledNamesAreStages(p: Profile, stages: seq<Stage>)
    ensures forall i :: 0 <= i < |EnabledNames(p, stages)| ==> EnabledNames(p, stages)[i] != "web"
  {
    if stages != [] {
      EnabledNamesAreStages(p, stages[1..]);
    }
  }

  /** With the internal broker, the broker's program directly follows the
      header, with the local port on its command line and priority 0. */
  lemma InternalBrokerFirst(p: Profile, localMqttPort: int)
    requires !RemoteMqtt(p)
    requires MqttSettingsOf(p, localMqttPort).Success?
    ensures var lines := ConfOutput(p, localMqttPort).lines;
      && |lines| >= 6
      && lines[3] == "[program:mqtt]"
      && lines[4] == "command=mosquitto -p " + IntToString(localMqttPort)
      && lines[5] == "priority=0"
  {
    var mqtt := MqttSettingsOf(p, localMqttPort).value;
    var stages := StagesRun(PipelineOrder, p, mqtt).lines;
    assert ConfOutput(p, localMqttPort).lines == Header + BrokerLines(localMqttPort) + stages;
    BrokerAfterHeader(localMqttPort, stages);
  }

  /** Called with its default local port, the generator runs the internal
      broker on port 12183. */
  lemma InternalBrokerDefaultPort(p: Profile)
    requires !RemoteMqtt(p)
    requires MqttSettingsOf(p, DefaultLocalMqttPort).Success?
    ensures var lines := ConfOutput(p, DefaultLocalMqttPort).lines;
      |lines| >= 6 && lines[4] == "command=mosquitto -p 12183"
  {
    InternalBrokerFirst(p, DefaultLocalMqttPort);
    DefaultPortDigits();
  }

  lemma DefaultPortDigits()
    ensures IntToString(DefaultLocalMqttPort) == "12183"
  {
    assert NatToString(1) == "1";
    assert NatToString(12) == "12";
    assert NatToString(121) == "121";
    assert NatToString(1218) == "1218";
  }

  lemma BrokerAfterHeader(port: int, rest: seq<string>)
    ensures var lines := Header + BrokerLines(port) + rest;
      && |lines| >= 6
      && lines[3] == "[program:mqtt]"
      && lines[4] == "command=mosquitto -p " + IntToString(port)
      && lines[5] == "priority=0"
  {
    var n := IntToString(port);
    assert Join(["-p", n], " ") == "-p" + " " + n;
    assert Join(MqttCommand(port), " ") == "mosquitto" + " " + Join(["-p", n], " ");
    assert ProgramHeader("mqtt") == "[program:mqtt]";
    assert "command=" + Join(MqttCommand(port), " ") == "command=mosquitto -p " + n by {
      assert Join(MqttCommand(port), " ") == "mosquitto -p " + n;
      Assoc3("command=", "mosquitto -p ", n);
    }
    assert BrokerLines(port)[..3] == ["[program:mqtt]", "command=mosquitto -p " + n, "priority=0"];
  }

  /** A `mqtt.port` that is not an integer stops the writer right after the
      header, whichever broker the profile uses. */
  lemma MalformedPortStopsAfterHeader(p: Profile, localMqttPort: int)
    requires IntOf(Get(p, "mqtt.port", Int(1883))).None?
    ensures ConfOutput(p, localMqttPort) == Run(Header, Fail(NotAnInteger("mqtt.port")))
  {
  }

  /** With an external broker and a user name, the first enabled stage raises
      on the credentials: the file holds only the header. A profile with no
      stage enabled is written normally. */
  lemma CredentialsStopFirstStage(p: Profile, localMqttPort: int)
    requires MqttSettingsOf(p, localMqttPort).Success?
    requires MqttSettingsOf(p, localMqttPort).value.credentials.Some?
    ensures ConfOutput(p, localMqttPort)
         == if EnabledNames(p, PipelineOrder) == [] then Run(Header, Ok)
            else Run(Header, Fail(UnexpectedKeyword("mqtt_username")))
  {
    var mqtt := MqttSettingsOf(p, localMqttPort).value;
    assert RemoteMqtt(p);
    CredentialsStopStages(PipelineOrder, p, mqtt);
    assert Header + [] == Header;
  }

  lemma {:induction false} CredentialsStopStages(stages: seq<Stage>, p: Profile, mqtt: MqttSettings)
    requires mqtt.credentials.Some?
    ensures StagesRun(stages, p, mqtt)
         == if EnabledNames(p, stages) == [] then Run([], Ok)
            else Run([], Fail(UnexpectedKeyword("mqtt_username")))
  {
    if stages != [] {
      CredentialsStopStages(stages[1..], p, mqtt);
      if Enabled(p, stages[0]) {
        CredentialsRejectedByEveryStage(stages[0], SystemOf(p, stages[0]), p, mqtt);
      }
    }
  }
}
