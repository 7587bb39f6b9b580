/// The hub command adapter and the power engine built on it.  The shell
/// the tool spawns (`sh -c <command line>`) is an oracle: given what has
/// been issued so far and the next command line, it answers with the exit
/// status and the standard output.  A `Host` records every command line
/// and every sleep in issue order.
module Ykcmd {
  import opened Base
  import opened Yaml
  import opened Boards

  /** Something the tool does to the outside world. */
  datatype Event = Exec(command: string) | Sleep(ms: nat)

  /** What a finished `sh -c` process reports. */
  datatype Output = Output(success: bool, stdout: string)

  /** An operation's result together with the events it issued. */
  datatype Run<T> = Run(result: Result<T>, events: seq<Event>)

  /** The machine the tool runs on. */
  class Host {
    var log: seq<Event>
    const shell: (seq<Event>, string) -> Output

    constructor (shell: (seq<Event>, string) -> Output)
      ensures this.shell == shell && log == []
    {
      this.shell := shell;
      log := [];
    }

    /** `Command::new("sh").arg("-c").arg(command).output()`. */
    method Sh(command: string) returns (out: Output)
      modifies this
      ensures log == old(log) + [Exec(command)]
      ensures out == shell(old(log), command)
    {
      out := shell(log, command);
      log := log + [Exec(command)];
    }

    /** `thread::sleep`. */
    method SleepMs(ms: nat)
      modifies this
      ensures log == old(log) + [Sleep(ms)]
    {
      log := log + [Sleep(ms)];
    }
  }

  /** The settle time between power-off and power-on in a reboot. */
  const REBOOT_DELAY_MS: nat := 1000

  const USB_TOOL := "ykushcmd ykush"
  const RELAY_TOOL := "ykurcmd"
  const UNSUPPORTED := "Unsupported yk board type"
  const POWER_FAILED := "failed to power direction"
  const STATUS_FAILED := "failed to get port status"

  function NotFound(serial: string): string
  {
    "board with serial " + serial + " not found"
  }

  /** The hub tool that governs a power-source kind. */
  function HubTool(kind: string): Option<string>
  {
    if kind == "usb" then Some(USB_TOOL)
    else if kind == "relay" then Some(RELAY_TOOL)
    else None
  }

  // ---------------------------------------------------------------------
  // Text of the hub tool's command lines, and parsing of its output

  function ListCommand(tool: string): string
  {
    tool + " -l "
  }

  /** `"<tool> -s <serial> -<c> <port>"`, where `c` is the first character
      of the direction. */
  function SetCommand(tool: string, serial: string, direction: string, port: string): string
    requires direction != ""
  {
    tool + " -s " + serial + " -" + [direction[0]] + " " + port
  }

  function GetCommand(tool: string, serial: string, port: string): string
  {
    tool + " -s " + serial + " -g " + port
  }

  ghost predicate OccursAt(text: string, pattern: string, i: int)
  {
    0 <= i && i + |pattern| <= |text| && text[i..i + |pattern|] == pattern
  }

  /** `str::contains`: whether `pattern` is a substring of `text`. */
  function Contains(text: string, pattern: string): bool
    decreases |text|
  {
    if |pattern| > |text| then false
    else if text[..|pattern|] == pattern then true
    else Contains(text[1..], pattern)
  }

  /** `Contains` holds exactly when the pattern occurs at some position. */
  lemma {:induction false} ContainsMeaning(text: string, pattern: string)
    ensures Contains(text, pattern) <==> exists i :: OccursAt(text, pattern, i)
    decreases |text|
  {
    if |pattern| > |text| {
      assert forall i :: !OccursAt(text, pattern, i);
    } else if text[..|pattern|] == pattern {
      assert OccursAt(text, pattern, 0);
    } else {
      assert !OccursAt(text, pattern, 0);
      ContainsMeaning(text[1..], pattern);
      assert forall i :: i >= 1 && OccursAt(text, pattern, i) ==> OccursAt(text[1..], pattern, i - 1);
      assert forall i :: OccursAt(text[1..], pattern, i) ==> OccursAt(text, pattern, i + 1);
    }
  }

  // ---------------------------------------------------------------------
  // Specifications of the operations, as functions of the shell oracle
  // and of what was issued before

  /** `power`: one set command; fails iff its exit status is non-success. */
  function PowerRun(shell: (seq<Event>, string) -> Output, log: seq<Event>,
                    serial: string, port: string, direction: string, tool: string): Run<()>
    requires direction != ""
  {
    var command := SetCommand(tool, serial, direction, port);
    var out := shell(log, command);
    Run(if out.success then Ok(()) else Err(Ykmd(POWER_FAILED)), [Exec(command)])
  }

  /** `port_status`: one get command; fails iff its exit status is
      non-success, and otherwise reports whether "ON" is in the output. */
  function PortStatusRun(shell: (seq<Event>, string) -> Output, log: seq<Event>,
                         serial: string, port: string, tool: string): Run<bool>
  {
    var command := GetCommand(tool, serial, port);
    var out := shell(log, command);
    Run(if out.success then Ok(Contains(out.stdout, "ON")) else Err(Ykmd(STATUS_FAILED)), [Exec(command)])
  }

  /** The preface shared by `power_off`, `power_on` and `is_powered`:
      resolve the tool and list the attached hubs.  `Ok(tool)` when the
      listing contains the serial number; the listing's exit status is not
      looked at. */
  function AttachRun(shell: (seq<Event>, string) -> Output, log: seq<Event>,
                     serial: string, kind: string): Run<string>
  {
    match HubTool(kind)
    case None => Run(Err(Ykmd(UNSUPPORTED)), [])
    case Some(tool) =>
      var listing := shell(log, ListCommand(tool));
      if Contains(listing.stdout, serial) then Run(Ok(tool), [Exec(ListCommand(tool))])
      else Run(Err(Ykmd(NotFound(serial))), [Exec(ListCommand(tool))])
  }

  /** `power_off` (direction "down") and `power_on` (direction "up"). */
  function SwitchRun(shell: (seq<Event>, string) -> Output, log: seq<Event>,
                     serial: string, port: string, kind: string, direction: string): Run<()>
    requires direction != ""
  {
    var attach := AttachRun(shell, log, serial, kind);
    match attach.result
    case Err(e) => Run(Err(e), attach.events)
    case Ok(tool) =>
      var switched := PowerRun(shell, log + attach.events, serial, port, direction, tool);
      Run(switched.result, attach.events + switched.events)
  }

  function PowerOffRun(shell: (seq<Event>, string) -> Output, log: seq<Event>,
                       serial: string, port: string, kind: string): Run<()>
  {
    SwitchRun(shell, log, serial, port, kind, "down")
  }

  function PowerOnRun(shell: (seq<Event>, string) -> Output, log: seq<Event>,
                      serial: string, port: string, kind: string): Run<()>
  {
    SwitchRun(shell, log, serial, port, kind, "up")
  }

  /** `reboot`: off, then the settle delay, then on; stops at a failed off. */
  function RebootRun(shell: (seq<Event>, string) -> Output, log: seq<Event>,
                     serial: string, port: string, kind: string): Run<()>
  {
    var off := PowerOffRun(shell, log, serial, port, kind);
    if off.result.Err? then off
    else
      var settled := off.events + [Sleep(REBOOT_DELAY_MS)];
      var on := PowerOnRun(shell, log + settled, serial, port, kind);
      Run(on.result, settled + on.events)
  }

  /** `is_powered`. */
  function IsPoweredRun(shell: (seq<Event>, string) -> Output, log: seq<Event>, board: Board): Run<bool>
  {
    var attach := AttachRun(shell, log, board.ykSerialNumber, board.powerSource);
    match attach.result
    case Err(e) => Run(Err(e), attach.events)
    case Ok(tool) =>
      var get := PortStatusRun(shell, log + attach.events, board.ykSerialNumber, board.ykPortNumber, tool);
      Run(get.result, attach.events + get.events)
  }

  /** `power_off_board`: look the board up, then `power_off`. */
  function PowerOffBoardRun(shell: (seq<Event>, string) -> Output, log: seq<Event>,
                            boardName: string, file: ConfigFile): Run<()>
  {
    match BoardFromConfig(boardName, file)
    case Err(e) => Run(Err(e), [])
    case Ok(b) => PowerOffRun(shell, log, b.ykSerialNumber, b.ykPortNumber, b.powerSource)
  }

  function PowerOnBoardRun(shell: (seq<Event>, string) -> Output, log: seq<Event>,
                           boardName: string, file: ConfigFile): Run<()>
  {
    match BoardFromConfig(boardName, file)
    case Err(e) => Run(Err(e), [])
    case Ok(b) => PowerOnRun(shell, log, b.ykSerialNumber, b.ykPortNumber, b.powerSource)
  }

  function RebootBoardRun(shell: (seq<Event>, string) -> Output, log: seq<Event>,
                          boardName: string, file: ConfigFile): Run<()>
  {
    match BoardFromConfig(boardName, file)
    case Err(e) => Run(Err(e), [])
    case Ok(b) => RebootRun(shell, log, b.ykSerialNumber, b.ykPortNumber, b.powerSource)
  }

  /** The sweep over the entries of the `boards` mapping: `power_off_board`
      for each name in order, results discarded; a key that is not a
      string makes `as_str().unwrap()` panic. */
  function SweepRun(shell: (seq<Event>, string) -> Output, log: seq<Event>,
                    file: ConfigFile, entries: seq<(Value, Value)>): Run<()>
    decreases |entries|
  {
    if entries == [] then Run(Ok(()), [])
    else if !entries[0].0.Str? then Run(Err(Panic(UNWRAP_NONE)), [])
    else
      var first := PowerOffBoardRun(shell, log, entries[0].0.s, file);
      var rest := SweepRun(shell, log + first.events, file, entries[1..]);
      Run(rest.result, first.events + rest.events)
  }

  /** One step of the sweep, unfolded at entry `i`. */
  lemma SweepStep(shell: (seq<Event>, string) -> Output, log: seq<Event>,
                  file: ConfigFile, entries: seq<(Value, Value)>, i: nat)
    requires i < |entries| && entries[i].0.Str?
    ensures var first := PowerOffBoardRun(shell, log, entries[i].0.s, file);
            var rest := SweepRun(shell, log + first.events, file, entries[i + 1..]);
            SweepRun(shell, log, file, entries[i..]) == Run(rest.result, first.events + rest.events)
  {
    assert entries[i..][1..] == entries[i + 1..];
  }

  /** The `boards` mapping as `goodnight` reaches it. */
  function SweepEntries(file: ConfigFile): Result<seq<(Value, Value)>>
  {
    match Load(file)
    case Err(e) => Err(e)
    case Ok(root) =>
      match Get(root, "boards")
      case None => Err(ConfigParsing(NO_BOARDS))
      case Some(section) =>
        match AsMapping(section)
        case None => Err(Ykmd(NO_BOARDS))
        case Some(entries) => Ok(entries)
  }

  /** `goodnight`. */
  function GoodnightRun(shell: (seq<Event>, string) -> Output, log: seq<Event>, file: ConfigFile): Run<()>
  {
    match SweepEntries(file)
    case Err(e) => Run(Err(e), [])
    case Ok(entries) => SweepRun(shell, log, file, entries)
  }

  // ---------------------------------------------------------------------
  // Properties of the specifications

  /** An unsupported power source fails every operation before any command
      is issued. */
  lemma UnsupportedKindIssuesNothing(shell: (seq<Event>, string) -> Output, log: seq<Event>, board: Board)
    requires board.powerSource != "usb" && board.powerSource != "relay"
    ensures var (serial, port, kind) := (board.ykSerialNumber, board.ykPortNumber, board.powerSource);
            && PowerOffRun(shell, log, serial, port, kind) == Run(Err(Ykmd("Unsupported yk board type")), [])
            && PowerOnRun(shell, log, serial, port, kind) == Run(Err(Ykmd("Unsupported yk board type")), [])
            && RebootRun(shell, log, serial, port, kind) == Run(Err(Ykmd("Unsupported yk board type")), [])
            && IsPoweredRun(shell, log, board) == Run(Err(Ykmd("Unsupported yk board type")), [])
  {
  }

  /** When the listing does not contain the serial number, only the list
      command is issued and the operation fails with "not found". */
  lemma NotAttachedIssuesOnlyList(shell: (seq<Event>, string) -> Output, log: seq<Event>, board: Board, tool: string)
    requires HubTool(board.powerSource) == Some(tool)
    requires !Contains(shell(log, tool + " -l ").stdout, board.ykSerialNumber)
    ensures var (serial, port, kind) := (board.ykSerialNumber, board.ykPortNumber, board.powerSource);
            var failed := Run(Err(Ykmd("board with serial " + serial + " not found")), [Exec(tool + " -l ")]);
            && PowerOffRun(shell, log, serial, port, kind) == failed
            && PowerOnRun(shell, log, serial, port, kind) == failed
            && RebootRun(shell, log, serial, port, kind) == failed
            && IsPoweredRun(shell, log, board) == Run(Err(failed.result.error), failed.events)
  {
  }

  /** The exit status of the list command is never consulted: two shells
      that differ only there give the same runs. */
  lemma ListStatusIgnored(shell1: (seq<Event>, string) -> Output, shell2: (seq<Event>, string) -> Output,
                          log: seq<Event>, board: Board, tool: string)
    requires HubTool(board.powerSource) == Some(tool)
    requires forall h, c :: c != ListCommand(tool) ==> shell1(h, c) == shell2(h, c)
    requires forall h :: shell1(h, ListCommand(tool)).stdout == shell2(h, ListCommand(tool)).stdout
    ensures var (serial, port, kind) := (board.ykSerialNumber, board.ykPortNumber, board.powerSource);
            && PowerOffRun(shell1, log, serial, port, kind) == PowerOffRun(shell2, log, serial, port, kind)
            && PowerOnRun(shell1, log, serial, port, kind) == PowerOnRun(shell2, log, serial, port, kind)
            && IsPoweredRun(shell1, log, board) == IsPoweredRun(shell2, log, board)
            && RebootRun(shell1, log, serial, port, kind) == RebootRun(shell2, log, serial, port, kind)
  {
    var (serial, port, kind) := (board.ykSerialNumber, board.ykPortNumber, board.powerSource);
    assert SetCommand(tool, serial, "down", port) != ListCommand(tool) by {
      assert |SetCommand(tool, serial, "down", port)| > |ListCommand(tool)|;
    }
    assert SetCommand(tool, serial, "up", port) != ListCommand(tool) by {
      assert |SetCommand(tool, serial, "up", port)| > |ListCommand(tool)|;
    }
    assert GetCommand(tool, serial, port) != ListCommand(tool) by {
      assert |GetCommand(tool, serial, port)| > |ListCommand(tool)|;
    }
  }

  /** With the hub attached, `power_off` issues the list command and then
      exactly `"<tool> -s <serial> -d <port>"`, and succeeds iff that
      command does. */
  lemma PowerOffCommandLine(shell: (seq<Event>, string) -> Output, log: seq<Event>,
                            serial: string, port: string, kind: string, tool: string)
    requires HubTool(kind) == Some(tool)
    requires Contains(shell(log, tool + " -l ").stdout, serial)
    ensures var run := PowerOffRun(shell, log, serial, port, kind);
            var setLine := tool + " -s " + serial + " -d " + port;
            && run.events == [Exec(tool + " -l "), Exec(setLine)]
            && (run.result.Ok? <==> shell(log + [Exec(tool + " -l ")], setLine).success)
            && (run.result.Err? ==> run.result.error == Ykmd("failed to power direction"))
  {
    assert SetCommand(tool, serial, "down", port) == tool + " -s " + serial + " -d " + port;
  }

  /** With the hub attached, `power_on` issues the list command and then
      exactly `"<tool> -s <serial> -u <port>"`, and succeeds iff that
      command does. */
  lemma PowerOnCommandLine(shell: (seq<Event>, string) -> Output, log: seq<Event>,
                           serial: string, port: string, kind: string, tool: string)
    requires HubTool(kind) == Some(tool)
    requires Contains(shell(log, tool + " -l ").stdout, serial)
    ensures var run := PowerOnRun(shell, log, serial, port, kind);
            var setLine := tool + " -s " + serial + " -u " + port;
            && run.events == [Exec(tool + " -l "), Exec(setLine)]
            && (run.result.Ok? <==> shell(log + [Exec(tool + " -l ")], setLine).success)
            && (run.result.Err? ==> run.result.error == Ykmd("failed to power direction"))
  {
    assert SetCommand(tool, serial, "up", port) == tool + " -s " + serial + " -u " + port;
  }

  /** With the hub attached, `is_powered` issues the list command and then
      exactly `"<tool> -s <serial> -g <port>"`; it fails iff that command
      fails, and otherwise reports whether "ON" occurs in its output. */
  lemma IsPoweredCommandLine(shell: (seq<Event>, string) -> Output, log: seq<Event>, board: Board, tool: string)
    requires HubTool(board.powerSource) == Some(tool)
    requires Contains(shell(log, tool + " -l ").stdout, board.ykSerialNumber)
    ensures var run := IsPoweredRun(shell, log, board);
            var getLine := tool + " -s " + board.ykSerialNumber + " -g " + board.ykPortNumber;
            var out := shell(log + [Exec(tool + " -l ")], getLine);
            && run.events == [Exec(tool + " -l "), Exec(getLine)]
            && (run.result.Err? <==> !out.success)
            && (run.result.Err? ==> run.result.error == Ykmd("failed to get port status"))
            && (run.result.Ok? ==> (run.result.value <==> exists i :: OccursAt(out.stdout, "ON", i)))
  {
    var getLine := tool + " -s " + board.ykSerialNumber + " -g " + board.ykPortNumber;
    ContainsMeaning(shell(log + [Exec(tool + " -l ")], getLine).stdout, "ON");
  }

  /** A failed power-off ends the reboot: no sleep and no power-on. */
  lemma RebootFailFast(shell: (seq<Event>, string) -> Output, log: seq<Event>,
                       serial: string, port: string, kind: string)
    requires PowerOffRun(shell, log, serial, port, kind).result.Err?
    ensures RebootRun(shell, log, serial, port, kind) == PowerOffRun(shell, log, serial, port, kind)
    ensures Sleep(1000) !in RebootRun(shell, log, serial, port, kind).events
  {
    SwitchHasNoSleep(shell, log, serial, port, kind, "down");
  }

  /** A successful power-off is followed by exactly one 1000 ms sleep and
      then by the power-on, whose result is the reboot's. */
  lemma RebootOrder(shell: (seq<Event>, string) -> Output, log: seq<Event>,
                    serial: string, port: string, kind: string)
    requires PowerOffRun(shell, log, serial, port, kind).result.Ok?
    ensures var off := PowerOffRun(shell, log, serial, port, kind);
            var on := PowerOnRun(shell, log + off.events + [Sleep(1000)], serial, port, kind);
            var run := RebootRun(shell, log, serial, port, kind);
            && run.events == off.events + [Sleep(1000)] + on.events
            && run.result == on.result
            && |off.events| == 2 && off.events[1].command == SetCommand(HubTool(kind).value, serial, "down", port)
            && Sleep(1000) !in off.events && Sleep(1000) !in on.events
  {
    SwitchHasNoSleep(shell, log, serial, port, kind, "down");
    var off := PowerOffRun(shell, log, serial, port, kind);
    AppendAssociative(log, off.events, [Sleep(1000)]);
    SwitchHasNoSleep(shell, log + off.events + [Sleep(1000)], serial, port, kind, "up");
  }

  lemma SwitchHasNoSleep(shell: (seq<Event>, string) -> Output, log: seq<Event>,
                         serial: string, port: string, kind: string, direction: string)
    requires direction != ""
    ensures forall e :: e in SwitchRun(shell, log, serial, port, kind, direction).events ==> e.Exec?
  {
  }

  /** Power-off is repeatable: against a hub that keeps listing the serial
      number and accepts every set command, two power-offs in a row both
      succeed. */
  lemma PowerOffTwice(shell: (seq<Event>, string) -> Output, log: seq<Event>,
                      serial: string, port: string, kind: string, tool: string)
    requires HubTool(kind) == Some(tool)
    requires forall h :: Contains(shell(h, ListCommand(tool)).stdout, serial)
    requires forall h :: shell(h, SetCommand(tool, serial, "down", port)).success
    ensures var first := PowerOffRun(shell, log, serial, port, kind);
            first.result == Ok(()) &&
            PowerOffRun(shell, log + first.events, serial, port, kind).result == Ok(())
  {
  }

  /** The board's configured serial and port numbers reach the set command
      unchanged. */
  lemma RegistryToCommandLine(shell: (seq<Event>, string) -> Output, log: seq<Event>,
                              boardName: string, file: ConfigFile, tool: string)
    requires BoardConfig(boardName, file).Ok?
    requires var entry := BoardConfig(boardName, file).value;
             && ReadField(entry, "serial").Text? && ReadField(entry, "port").Text?
             && ReadField(entry, "type").Text? && HubTool(ReadField(entry, "type").text) == Some(tool)
             && Contains(shell(log, tool + " -l ").stdout, ReadField(entry, "serial").text)
    ensures var entry := BoardConfig(boardName, file).value;
            PowerOffBoardRun(shell, log, boardName, file).events ==
              [Exec(tool + " -l "),
               Exec(tool + " -s " + ReadField(entry, "serial").text + " -d " + ReadField(entry, "port").text)]
  {
    var entry := BoardConfig(boardName, file).value;
    BoardFromConfigFields(boardName, file);
    var b := BoardFromConfig(boardName, file).value;
    PowerOffCommandLine(shell, log, b.ykSerialNumber, b.ykPortNumber, b.powerSource, tool);
  }

  /** `goodnight` touches no board when the configuration cannot be read,
      has no `boards` key, or its `boards` value is not a mapping. */
  lemma GoodnightRejectsBadConfig(shell: (seq<Event>, string) -> Output, log: seq<Event>, file: ConfigFile)
    ensures file.Unreadable? ==> GoodnightRun(shell, log, file) == Run(Err(ReadFailed), [])
    ensures file.Malformed? ==> GoodnightRun(shell, log, file) == Run(Err(YamlInvalid), [])
    ensures file.Parsed? && Get(file.root, "boards").None? ==>
              GoodnightRun(shell, log, file) == Run(Err(ConfigParsing("No boards found")), [])
    ensures file.Parsed? && Get(file.root, "boards").Some? && !Get(file.root, "boards").value.Mapping? ==>
              GoodnightRun(shell, log, file) == Run(Err(Ykmd("No boards found")), [])
  {
  }

  /** When every key is a string the sweep succeeds, whatever each board's
      power-off returned. */
  lemma {:induction false} SweepIgnoresFailures(shell: (seq<Event>, string) -> Output, log: seq<Event>,
                                                file: ConfigFile, entries: seq<(Value, Value)>)
    requires forall i :: 0 <= i < |entries| ==> entries[i].0.Str?
    ensures SweepRun(shell, log, file, entries).result == Ok(())
    decreases |entries|
  {
    if entries != [] {
      var first := PowerOffBoardRun(shell, log, entries[0].0.s, file);
      assert forall i :: 0 <= i < |entries[1..]| ==> entries[1..][i] == entries[i + 1];
      SweepIgnoresFailures(shell, log + first.events, file, entries[1..]);
    }
  }

  /** The sweep splits at any entry `k` preceded only by string keys: the
      entries before `k` run first, the rest continue from their events. */
  lemma {:induction false} SweepSplit(shell: (seq<Event>, string) -> Output, log: seq<Event>,
                                      file: ConfigFile, entries: seq<(Value, Value)>, k: nat)
    requires k <= |entries|
    requires forall j :: 0 <= j < k ==> entries[j].0.Str?
    ensures var before := SweepRun(shell, log, file, entries[..k]);
            var after := SweepRun(shell, log + before.events, file, entries[k..]);
            && before.result == Ok(())
            && SweepRun(shell, log, file, entries) == Run(after.result, before.events + after.events)
    decreases k
  {
    if k == 0 {
      assert entries[..0] == [] && entries[0..] == entries;
      assert log + [] == log;
      assert [] + SweepRun(shell, log, file, entries).events == SweepRun(shell, log, file, entries).events;
    } else {
      var first := PowerOffBoardRun(shell, log, entries[0].0.s, file);
      var tail := entries[1..];
      assert forall j :: 0 <= j < k - 1 ==> tail[j] == entries[j + 1];
      SweepSplit(shell, log + first.events, file, tail, k - 1);
      assert entries[..k][0] == entries[0] && entries[..k][1..] == tail[..k - 1];
      assert tail[k - 1..] == entries[k..];
      var mid := SweepRun(shell, log + first.events, file, tail[..k - 1]);
      var after := SweepRun(shell, log + first.events + mid.events, file, entries[k..]);
      AppendAssociative(log, first.events, mid.events);
      AppendAssociative(first.events, mid.events, after.events);
    }
  }

  /** Every board is attempted, in mapping order: before a non-string key
      is met, the sweep issues board `k`'s whole power-off run right after
      the runs of the boards before it. */
  lemma SweepAttemptsEveryBoard(shell: (seq<Event>, string) -> Output, log: seq<Event>,
                                file: ConfigFile, entries: seq<(Value, Value)>, k: nat)
    requires k < |entries|
    requires forall j :: 0 <= j <= k ==> entries[j].0.Str?
    ensures var before := SweepRun(shell, log, file, entries[..k]);
            var board := PowerOffBoardRun(shell, log + before.events, entries[k].0.s, file);
            var after := SweepRun(shell, log + before.events + board.events, file, entries[k + 1..]);
            SweepRun(shell, log, file, entries).events == before.events + board.events + after.events
  {
    SweepSplit(shell, log, file, entries, k);
    var before := SweepRun(shell, log, file, entries[..k]);
    SweepStep(shell, log + before.events, file, entries, k);
    assert entries[k..][0] == entries[k];
  }

  /** A key that is not a string stops the sweep with a panic after the
      boards before it, and no later board is touched. */
  lemma SweepStopsAtNonStringKey(shell: (seq<Event>, string) -> Output, log: seq<Event>,
                                 file: ConfigFile, entries: seq<(Value, Value)>, k: nat)
    requires k < |entries| && !entries[k].0.Str?
    requires forall j :: 0 <= j < k ==> entries[j].0.Str?
    ensures SweepRun(shell, log, file, entries) ==
              Run(Err(Panic(UNWRAP_NONE)), SweepRun(shell, log, file, entries[..k]).events)
  {
    SweepSplit(shell, log, file, entries, k);
    var before := SweepRun(shell, log, file, entries[..k]);
    assert entries[k..][0] == entries[k];
    assert before.events + [] == before.events;
  }

  // ---------------------------------------------------------------------
  // The operations, step by step against a host

  /** `format_command`: writes the hub tool for the kind into `command`. */
  method FormatCommand(ykBoardType: string, command: string) returns (r: Result<()>, updated: string)
    ensures ykBoardType == "usb" ==> r == Ok(()) && updated == "ykushcmd ykush"
    ensures ykBoardType == "relay" ==> r == Ok(()) && updated == "ykurcmd"
    ensures ykBoardType != "usb" && ykBoardType != "relay" ==>
              r == Err(Ykmd("Unsupported yk board type")) && updated == command
    ensures r.Ok? <==> HubTool(ykBoardType) == Some(updated)
  {
    updated := command;
    if ykBoardType == "usb" {
      updated := USB_TOOL;
    } else if ykBoardType == "relay" {
      updated := RELAY_TOOL;
    } else {
      return Err(Ykmd(UNSUPPORTED)), updated;
    }
    r := Ok(());
  }

  method Power(host: Host, board: string, serial: string, port: string, direction: string, command: string)
    returns (r: Result<()>)
    requires direction != ""
    modifies host
    ensures host.log == old(host.log) + PowerRun(host.shell, old(host.log), serial, port, direction, command).events
    ensures r == PowerRun(host.shell, old(host.log), serial, port, direction, command).result
  {
    var output := host.Sh(SetCommand(command, serial, direction, port));
    if !output.success {
      return Err(Ykmd(POWER_FAILED));
    }
    return Ok(());
  }

  method PortStatus(host: Host, serial: string, port: string, command: string) returns (r: Result<bool>)
    modifies host
    ensures host.log == old(host.log) + PortStatusRun(host.shell, old(host.log), serial, port, command).events
    ensures r == PortStatusRun(host.shell, old(host.log), serial, port, command).result
  {
    var output := host.Sh(GetCommand(command, serial, port));
    if !output.success {
      return Err(Ykmd(STATUS_FAILED));
    }
    if Contains(output.stdout, "ON") {
      return Ok(true);
    } else {
      return Ok(false);
    }
  }

  method PowerOff(host: Host, boardName: string, serialNumber: string, portNumber: string, powerSource: string)
    returns (r: Result<()>)
    modifies host
    ensures host.log == old(host.log) + PowerOffRun(host.shell, old(host.log), serialNumber, portNumber, powerSource).events
    ensures r == PowerOffRun(host.shell, old(host.log), serialNumber, portNumber, powerSource).result
  {
    var status, command := FormatCommand(powerSource, "");
    if status.Err? {
      return Err(status.error);
    }
    var output := host.Sh(ListCommand(command));
    if !Contains(output.stdout, serialNumber) {
      return Err(Ykmd(NotFound(serialNumber)));
    }
    r := Power(host, boardName, serialNumber, portNumber, "down", command);
  }

  method PowerOn(host: Host, boardName: string, serialNumber: string, portNumber: string, powerSource: string)
    returns (r: Result<()>)
    modifies host
    ensures host.log == old(host.log) + PowerOnRun(host.shell, old(host.log), serialNumber, portNumber, powerSource).events
    ensures r == PowerOnRun(host.shell, old(host.log), serialNumber, portNumber, powerSource).result
  {
    var status, command := FormatCommand(powerSource, "");
    if status.Err? {
      return Err(status.error);
    }
    var output := host.Sh(ListCommand(command));
    if !Contains(output.stdout, serialNumber) {
      return Err(Ykmd(NotFound(serialNumber)));
    }
    r := Power(host, boardName, serialNumber, portNumber, "up", command);
  }

  method Reboot(host: Host, boardName: string, serialNumber: string, portNumber: string, powerSource: string)
    returns (r: Result<()>)
    modifies host
    ensures host.log == old(host.log) + RebootRun(host.shell, old(host.log), serialNumber, portNumber, powerSource).events
    ensures r == RebootRun(host.shell, old(host.log), serialNumber, portNumber, powerSource).result
  {
    ghost var log0 := host.log;
    r := PowerOff(host, boardName, serialNumber, portNumber, powerSource);
    if r.Err? {
      return;
    }
    ghost var offEvents := host.log[|log0|..];
    host.SleepMs(REBOOT_DELAY_MS);
    assert host.log == log0 + (offEvents + [Sleep(REBOOT_DELAY_MS)]);
    ghost var mid := host.log;
    r := PowerOn(host, boardName, serialNumber, portNumber, powerSource);
    assert host.log == log0 + (offEvents + [Sleep(REBOOT_DELAY_MS)] + host.log[|mid|..]);
  }

  method IsPowered(host: Host, board: Board) returns (r: Result<bool>)
    modifies host
    ensures host.log == old(host.log) + IsPoweredRun(host.shell, old(host.log), board).events
    ensures r == IsPoweredRun(host.shell, old(host.log), board).result
  {
    var status, command := FormatCommand(board.powerSource, "");
    if status.Err? {
      return Err(status.error);
    }
    var output := host.Sh(ListCommand(command));
    if !Contains(output.stdout, board.ykSerialNumber) {
      return Err(Ykmd(NotFound(board.ykSerialNumber)));
    }
    r := PortStatus(host, board.ykSerialNumber, board.ykPortNumber, command);
  }

  method PowerOffBoard(host: Host, boardName: string, file: ConfigFile) returns (r: Result<()>)
    modifies host
    ensures host.log == old(host.log) + PowerOffBoardRun(host.shell, old(host.log), boardName, file).events
    ensures r == PowerOffBoardRun(host.shell, old(host.log), boardName, file).result
  {
    var board := GetBoardFromConfig(boardName, file);
    if board.Err? {
      return Err(board.error);
    }
    var b := board.value;
    r := PowerOff(host, b.name, b.ykSerialNumber, b.ykPortNumber, b.powerSource);
  }

  method PowerOnBoard(host: Host, boardName: string, file: ConfigFile) returns (r: Result<()>)
    modifies host
    ensures host.log == old(host.log) + PowerOnBoardRun(host.shell, old(host.log), boardName, file).events
    ensures r == PowerOnBoardRun(host.shell, old(host.log), boardName, file).result
  {
    var board := GetBoardFromConfig(boardName, file);
    if board.Err? {
      return Err(board.error);
    }
    var b := board.value;
    r := PowerOn(host, b.name, b.ykSerialNumber, b.ykPortNumber, b.powerSource);
  }

  method RebootBoard(host: Host, boardName: string, file: ConfigFile) returns (r: Result<()>)
    modifies host
    ensures host.log == old(host.log) + RebootBoardRun(host.shell, old(host.log), boardName, file).events
    ensures r == RebootBoardRun(host.shell, old(host.log), boardName, file).result
  {
    var board := GetBoardFromConfig(boardName, file);
    if board.Err? {
      return Err(board.error);
    }
    var b := board.value;
    r := Reboot(host, b.name, b.ykSerialNumber, b.ykPortNumber, b.powerSource);
  }

  /** The loop of `goodnight` over the entries of the `boards` mapping. */
  method Sweep(host: Host, file: ConfigFile, entries: seq<(Value, Value)>) returns (r: Result<()>)
    modifies host
    ensures host.log == old(host.log) + SweepRun(host.shell, old(host.log), file, entries).events
    ensures r == SweepRun(host.shell, old(host.log), file, entries).result
  {
    ghost var log0 := host.log;
    ghost var total := SweepRun(host.shell, log0, file, entries);
    ghost var done: seq<Event> := [];

    for i := 0 to |entries|
      invariant host.log == log0 + done
      invariant var rest := SweepRun(host.shell, host.log, file, entries[i..]);
                total == Run(rest.result, done + rest.events)
    {
      var name := AsStr(entries[i].0);
      if name.None? {
        return Err(Panic(UNWRAP_NONE));
      }
      ghost var first := PowerOffBoardRun(host.shell, host.log, name.value, file);
      ghost var after := SweepRun(host.shell, host.log + first.events, file, entries[i + 1..]);
      SweepStep(host.shell, host.log, file, entries, i);
      AppendAssociative(done, first.events, after.events);
      AppendAssociative(log0, done, first.events);
      var _ := PowerOffBoard(host, name.value, file);
      done := done + first.events;
    }
    return Ok(());
  }

  method Goodnight(host: Host, file: ConfigFile) returns (r: Result<()>)
    modifies host
    ensures host.log == old(host.log) + GoodnightRun(host.shell, old(host.log), file).events
    ensures r == GoodnightRun(host.shell, old(host.log), file).result
  {
    var config := Load(file);
    if config.Err? {
      return Err(config.error);
    }
    var section := Get(config.value, "boards");
    if section.None? {
      return Err(ConfigParsing(NO_BOARDS));
    }
    var mapping := AsMapping(section.value);
    if mapping.None? {
      return Err(Ykmd(NO_BOARDS));
    }
    r := Sweep(host, file, mapping.value);
  }
}
