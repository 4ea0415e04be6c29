/** The console side of `configure_switch`: the serial link, the handshake
    that puts the switch into configuration mode, and the sending of the
    built commands, one newline-terminated write each. What the switch
    echoes back, and the sleeping between writes, are not observed; the
    wait each write asks for is recorded. */
module Transport {
  import opened Text
  import opened Config
  import opened CommandSpec
  import opened Builder

  /** The wait, in seconds, after each handshake line. */
  const HANDSHAKE_WAIT: nat := 3
  /** The default wait of `send_command`, used for every configuration command. */
  const COMMAND_WAIT: nat := 2

  /** Two carriage returns to wake the console, then privileged mode, then
      global configuration mode. */
  function Handshake(): seq<string> {
    ["\r", "\r", "enable", "configure terminal"]
  }

  /** One write per command: the command followed by a newline. */
  function Frames(commands: seq<string>): seq<string> {
    seq(|commands|, i requires 0 <= i < |commands| => commands[i] + "\n")
  }

  /** The characters the console receives from a run of writes. */
  function Stream(writes: seq<string>): string {
    if writes == [] then "" else writes[0] + Stream(writes[1..])
  }

  /** The outcome `configure_switch` reports: done, the serial port could not
      be opened, or building the commands raised a `KeyError`. */
  datatype Outcome = Configured | PortError | BuildFailed(error: BuildError)

  /** Everything written to the console for a build result: the handshake,
      then the whole command list when it could be built, and nothing more
      when it could not. */
  function TraceOf(built: Result<seq<string>>): seq<string> {
    Frames(Handshake()) +
      match built
      case Success(cs) => Frames(cs)
      case Failure(_) => []
  }

  /** The wait asked for by each write of `TraceOf(built)`. */
  function WaitsOf(built: Result<seq<string>>): seq<nat> {
    seq(4, _ => HANDSHAKE_WAIT) +
      match built
      case Success(cs) => seq(|cs|, _ => COMMAND_WAIT)
      case Failure(_) => []
  }

  /** Everything written to the console for one switch. */
  function Trace(sw: SwitchConfig, g: GlobalConfig): seq<string> {
    TraceOf(Commands(sw, g))
  }

  /** An open serial port: what has been written to it, and the wait each
      write asked for. */
  class SerialLink {
    var written: seq<string>
    var waits: seq<nat>
    var isOpen: bool

    /** `serial.Serial(...)` that succeeded: an open port, nothing written. */
    constructor Open()
      ensures written == [] && waits == [] && isOpen
    {
      written := [];
      waits := [];
      isOpen := true;
    }

    /** `send_command`: writes the command and a newline, then waits. */
    method SendCommand(command: string, wait: nat)
      modifies this
      ensures written == old(written) + [command + "\n"]
      ensures waits == old(waits) + [wait]
      ensures isOpen == old(isOpen)
    {
      written := written + [command + "\n"];
      waits := waits + [wait];
    }

    /** `ser.close()`. */
    method Close()
      modifies this
      ensures written == old(written) && waits == old(waits) && !isOpen
    {
      isOpen := false;
    }
  }

  /** The four handshake writes, three seconds each. */
  method SendHandshake(link: SerialLink)
    modifies link
    ensures link.written == old(link.written) + Frames(Handshake())
    ensures link.waits == old(link.waits) + seq(4, _ => HANDSHAKE_WAIT)
    ensures link.isOpen == old(link.isOpen)
  {
    link.SendCommand("\r", HANDSHAKE_WAIT);
    link.SendCommand("\r", HANDSHAKE_WAIT);
    link.SendCommand("enable", HANDSHAKE_WAIT);
    link.SendCommand("configure terminal", HANDSHAKE_WAIT);
  }

  /** The send loop: every command in list order, with the default wait. */
  method SendAll(link: SerialLink, commands: seq<string>)
    modifies link
    ensures link.written == old(link.written) + Frames(commands)
    ensures link.waits == old(link.waits) + seq(|commands|, _ => COMMAND_WAIT)
    ensures link.isOpen == old(link.isOpen)
  {
    for i := 0 to |commands|
      invariant link.written == old(link.written) + Frames(commands[..i])
      invariant link.waits == old(link.waits) + seq(i, _ => COMMAND_WAIT)
      invariant link.isOpen == old(link.isOpen)
    {
      link.SendCommand(commands[i], COMMAND_WAIT);
      assert Frames(commands[..i + 1]) == Frames(commands[..i]) + [commands[i] + "\n"];
      assert seq(i + 1, _ => COMMAND_WAIT) == seq(i, _ => COMMAND_WAIT) + [COMMAND_WAIT];
    }
    assert commands[..|commands|] == commands;
  }

  /** `configure_switch`: opens the port (`portAvailable` says whether that
      succeeds), sends the handshake, builds the command list, sends it and
      closes the port. Any exception ends the attempt and is reported; the
      port is then left open, as the handler does not close it. */
  method ConfigureSwitch(sw: SwitchConfig, g: GlobalConfig, portAvailable: bool)
    returns (link: SerialLink?, outcome: Outcome)
    ensures link != null <==> portAvailable
    ensures !portAvailable ==> outcome == PortError
    ensures link != null ==> fresh(link) && link.written == Trace(sw, g) && link.waits == WaitsOf(Commands(sw, g))
    ensures link != null ==> match Commands(sw, g)
      case Success(_) => outcome == Configured && !link.isOpen
      case Failure(e) => outcome == BuildFailed(e) && link.isOpen
  {
    if !portAvailable {
      return null, PortError;
    }
    link := new SerialLink.Open();
    SendHandshake(link);
    var built := BuildCommands(sw, g);
    if built.Failure? {
      SentOnFailure(built);
      return link, BuildFailed(built.error);
    }
    SendAll(link, built.value);
    SentOnSuccess(built.value);
    link.Close();
    return link, Configured;
  }

  /** What the failure path has written is the whole trace. */
  lemma SentOnFailure(built: Result<seq<string>>)
    requires built.Failure?
    ensures TraceOf(built) == Frames(Handshake())
    ensures WaitsOf(built) == seq(4, _ => HANDSHAKE_WAIT)
  {
  }

  /** What the success path has written is the whole trace. */
  lemma SentOnSuccess(commands: seq<string>)
    ensures TraceOf(Success(commands)) == Frames(Handshake()) + Frames(commands)
    ensures WaitsOf(Success(commands)) ==
      seq(4, _ => HANDSHAKE_WAIT) + seq(|commands|, _ => COMMAND_WAIT)
  {
  }

  /** The console receives the commands back when it cuts the stream at the
      newlines: each write is one line, in order, followed by an empty
      remainder. This needs every command to be free of newlines; a value
      holding one would be read as two lines. */
  lemma {:induction false} StreamSplitsIntoCommands(commands: seq<string>)
    requires forall i :: 0 <= i < |commands| ==> '\n' !in commands[i]
    ensures Split(Stream(Frames(commands)), '\n') == commands + [""]
  {
    if commands != [] {
      var rest := Stream(Frames(commands[1..]));
      assert Frames(commands)[1..] == Frames(commands[1..]);
      assert Stream(Frames(commands)) == commands[0] + (['\n'] + rest);
      SplitFreePrefix(commands[0], ['\n'] + rest, '\n');
      SplitAfterSeparator(rest, '\n');
      StreamSplitsIntoCommands(commands[1..]);
      assert commands[0] + "" == commands[0];
      assert commands == [commands[0]] + commands[1..];
    }
  }

  /** What reaches the console: the handshake first (the third write is
      `enable`); after it, on a successful build, every command in order,
      newline-terminated; on a failed build, nothing beyond the handshake. */
  lemma TraceOfShape(built: Result<seq<string>>)
    ensures var t := TraceOf(built);
      |t| >= 4 && t[..4] == ["\r\n", "\r\n", "enable\n", "configure terminal\n"] && t[2] == "enable\n"
    ensures built.Failure? ==> |TraceOf(built)| == 4
    ensures built.Success? ==>
      var t := TraceOf(built);
      |t| == 4 + |built.value| &&
      forall i :: 0 <= i < |built.value| ==> t[4 + i] == built.value[i] + "\n"
  {
    var t := TraceOf(built);
    var h := Frames(Handshake());
    assert t[..4] == h;
    assert h[0] == "\r" + "\n" == "\r\n";
    assert h[2] == "enable" + "\n" == "enable\n";
    assert h[3] == "configure terminal" + "\n" == "configure terminal\n";
  }

  /** For one switch: no configuration command is ever sent from a list that
      could not be built completely, and a successful run ends by sending
      `wr mem`. */
  lemma TraceShape(sw: SwitchConfig, g: GlobalConfig)
    ensures Commands(sw, g).Failure? ==> Trace(sw, g) == Frames(Handshake())
    ensures Commands(sw, g).Success? ==>
      var t := Trace(sw, g);
      |t| == 4 + |Commands(sw, g).value| && t[|t| - 1] == "wr mem\n"
  {
    TraceOfShape(Commands(sw, g));
    if Commands(sw, g).Success? {
      ClosingBlockLast(sw, g);
    } else {
      assert Frames(Handshake()) + [] == Frames(Handshake());
    }
  }

  /** Cutting the whole console stream at the newlines gives the handshake
      lines and then the built commands, when no command holds a newline. */
  lemma TraceReadsBackAsCommands(cs: seq<string>)
    requires forall i :: 0 <= i < |cs| ==> '\n' !in cs[i]
    ensures Split(Stream(TraceOf(Success(cs))), '\n') == Handshake() + cs + [""]
  {
    var all := Handshake() + cs;
    assert Frames(all) == TraceOf(Success(cs));
    assert forall i :: 0 <= i < |all| ==> '\n' !in all[i] by {
      forall i | 0 <= i < |all|
        ensures '\n' !in all[i]
      {
        if i >= 4 {
          assert all[i] == cs[i - 4];
        }
      }
    }
    StreamSplitsIntoCommands(all);
  }
}
