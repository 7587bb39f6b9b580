/// The board registry: board records read out of the `boards` section of
/// the configuration.
module Boards {
  import opened Base
  import opened Yaml

  /** One physical board and how its power is switched. */
  datatype Board = Board(name: string, ykSerialNumber: string, ykPortNumber: string, powerSource: string)

  const NA := "n/a"

  /** `Board::default()`: every field holds the placeholder. */
  function Default(): (b: Board)
    ensures b.name == NA && b.ykSerialNumber == NA && b.ykPortNumber == NA && b.powerSource == NA
  {
    Board(NA, NA, NA, NA)
  }

  const NO_SERIAL := "No serial number found"
  const SERIAL_NOT_STRING := "Serial number was not a string"
  const NO_PORT := "No port number found"
  const PORT_NOT_STRING := "Port number was not a string"
  const NO_TYPE := "No type found"
  const TYPE_NOT_STRING := "Type was not a string"
  const NO_BOARDS := "No boards found"
  const BOARD_NOT_FOUND := "Requested board not found"
  const NAME_NOT_STRING := "name was not a string"

  /** What `config.get(key)` followed by `as_str()` finds. */
  datatype FieldRead = Missing | NotString | Text(text: string)

  function ReadField(config: Value, key: string): FieldRead
  {
    match Get(config, key)
    case None => Missing
    case Some(v) => if v.Str? then Text(v.s) else NotString
  }

  /** The error for a field that is missing or not a string. */
  function FieldError(f: FieldRead, missing: string, notString: string): Error
  {
    if f.Missing? then ConfigParsing(missing) else ConfigParsing(notString)
  }

  /** The outcome of `populate_board`: its result and the board as the
      in-place updates leave it. */
  function Populate(board: Board, config: Value): (Result<()>, Board)
  {
    var serial := ReadField(config, "serial");
    var port := ReadField(config, "port");
    var kind := ReadField(config, "type");
    if !serial.Text? then (Err(FieldError(serial, NO_SERIAL, SERIAL_NOT_STRING)), board)
    else
      var b1 := board.(ykSerialNumber := serial.text);
      if !port.Text? then (Err(FieldError(port, NO_PORT, PORT_NOT_STRING)), b1)
      else
        var b2 := b1.(ykPortNumber := port.text);
        if !kind.Text? then (Err(FieldError(kind, NO_TYPE, TYPE_NOT_STRING)), b2)
        else (Ok(()), b2.(powerSource := kind.text))
  }

  /** `populate_board`: overwrites the serial number, the port number and
      the power source, in that order, from the string values under
      "serial", "port" and "type", stopping at the first field that is
      missing or not a string.  The `&mut Board` is an in-out value here. */
  method PopulateBoard(board: Board, config: Value) returns (r: Result<()>, updated: Board)
    ensures (r, updated) == Populate(board, config)
    ensures updated.name == board.name
    ensures r.Ok? <==> ReadField(config, "serial").Text? && ReadField(config, "port").Text? && ReadField(config, "type").Text?
    ensures r.Ok? ==> updated == Board(board.name, ReadField(config, "serial").text,
                                       ReadField(config, "port").text, ReadField(config, "type").text)
    // a bad serial field: nothing is overwritten
    ensures !ReadField(config, "serial").Text? ==>
              r == Err(FieldError(ReadField(config, "serial"), NO_SERIAL, SERIAL_NOT_STRING)) && updated == board
    // a bad port field: only the serial number has been overwritten
    ensures ReadField(config, "serial").Text? && !ReadField(config, "port").Text? ==>
              r == Err(FieldError(ReadField(config, "port"), NO_PORT, PORT_NOT_STRING)) &&
              updated == board.(ykSerialNumber := ReadField(config, "serial").text)
    // a bad type field: serial and port numbers have been overwritten, the power source has not
    ensures ReadField(config, "serial").Text? && ReadField(config, "port").Text? && !ReadField(config, "type").Text? ==>
              r == Err(FieldError(ReadField(config, "type"), NO_TYPE, TYPE_NOT_STRING)) &&
              updated == board.(ykSerialNumber := ReadField(config, "serial").text,
                                ykPortNumber := ReadField(config, "port").text)
  {
    updated := board;

    var serial := ReadField(config, "serial");
    if !serial.Text? {
      return Err(FieldError(serial, NO_SERIAL, SERIAL_NOT_STRING)), updated;
    }
    updated := updated.(ykSerialNumber := serial.text);

    var port := ReadField(config, "port");
    if !port.Text? {
      return Err(FieldError(port, NO_PORT, PORT_NOT_STRING)), updated;
    }
    updated := updated.(ykPortNumber := port.text);

    var kind := ReadField(config, "type");
    if !kind.Text? {
      return Err(FieldError(kind, NO_TYPE, TYPE_NOT_STRING)), updated;
    }
    updated := updated.(powerSource := kind.text);

    r := Ok(());
  }

  /** The configuration of one named board: `config.get("boards")`, then
      `.get(board_name)`. */
  function BoardConfig(boardName: string, file: ConfigFile): Result<Value>
  {
    match Load(file)
    case Err(e) => Err(e)
    case Ok(root) =>
      match Get(root, "boards")
      case None => Err(ConfigParsing(NO_BOARDS))
      case Some(section) =>
        match Get(section, boardName)
        case None => Err(ConfigParsing(BOARD_NOT_FOUND))
        case Some(entry) => Ok(entry)
  }

  /** The board `get_board_from_config` returns. */
  function BoardFromConfig(boardName: string, file: ConfigFile): Result<Board>
  {
    match BoardConfig(boardName, file)
    case Err(e) => Err(e)
    case Ok(entry) =>
      var (res, board) := Populate(Default().(name := boardName), entry);
      if res.Err? then Err(res.error) else Ok(board)
  }

  /** A board the registry returns carries the requested name and the
      three string fields of its entry. */
  lemma BoardFromConfigFields(boardName: string, file: ConfigFile)
    ensures BoardFromConfig(boardName, file).Ok? <==>
              BoardConfig(boardName, file).Ok? &&
              var entry := BoardConfig(boardName, file).value;
              ReadField(entry, "serial").Text? && ReadField(entry, "port").Text? && ReadField(entry, "type").Text?
    ensures BoardFromConfig(boardName, file).Ok? ==>
              var entry := BoardConfig(boardName, file).value;
              BoardFromConfig(boardName, file).value ==
                Board(boardName, ReadField(entry, "serial").text, ReadField(entry, "port").text, ReadField(entry, "type").text)
  {
  }

  /** `get_board_from_config`: looks the board up by name and fills a
      default record from its entry. */
  method GetBoardFromConfig(boardName: string, file: ConfigFile) returns (r: Result<Board>)
    ensures r == BoardFromConfig(boardName, file)
    ensures file.Parsed? && Get(file.root, "boards").None? ==> r == Err(ConfigParsing(NO_BOARDS))
    ensures file.Parsed? && Get(file.root, "boards").Some? && Get(Get(file.root, "boards").value, boardName).None? ==>
              r == Err(ConfigParsing(BOARD_NOT_FOUND))
    ensures r.Ok? ==> BoardConfig(boardName, file).Ok?
    ensures r.Ok? ==> var entry := BoardConfig(boardName, file).value;
                      r.value == Board(boardName, ReadField(entry, "serial").text,
                                       ReadField(entry, "port").text, ReadField(entry, "type").text) &&
                      ReadField(entry, "serial").Text? && ReadField(entry, "port").Text? && ReadField(entry, "type").Text?
  {
    var config := Load(file);
    if config.Err? {
      return Err(config.error);
    }
    var section := Get(config.value, "boards");
    if section.None? {
      return Err(ConfigParsing(NO_BOARDS));
    }
    var entry := Get(section.value, boardName);
    if entry.None? {
      return Err(ConfigParsing(BOARD_NOT_FOUND));
    }

    var board := Default();
    board := board.(name := boardName);
    var res;
    res, board := PopulateBoard(board, entry.value);
    if res.Err? {
      return Err(res.error);
    }
    return Ok(board);
  }

  /** One entry of the `boards` mapping turned into a board, as the loop
      body of `get_all_boards_from_config` does it. */
  function EntryBoard(entry: (Value, Value)): Result<Board>
  {
    match AsStr(entry.0)
    case None => Err(ConfigParsing(NAME_NOT_STRING))
    case Some(name) =>
      var (res, board) := Populate(Default().(name := name), entry.1);
      if res.Err? then Err(res.error) else Ok(board)
  }

  /** The first failing entry decides the error. */
  function CheckEntries(entries: seq<(Value, Value)>): Result<()>
  {
    if entries == [] then Ok(())
    else if EntryBoard(entries[0]).Err? then Err(EntryBoard(entries[0]).error)
    else CheckEntries(entries[1..])
  }

  /** Every entry is checked: the check succeeds exactly when every entry
      yields a board. */
  lemma {:induction false} CheckEntriesOk(entries: seq<(Value, Value)>)
    ensures CheckEntries(entries).Ok? <==> forall i :: 0 <= i < |entries| ==> EntryBoard(entries[i]).Ok?
  {
    if entries != [] {
      CheckEntriesOk(entries[1..]);
      assert forall i :: 1 <= i < |entries| ==> entries[i] == entries[1..][i - 1];
    }
  }

  /** The error reported is that of the first entry that fails. */
  lemma {:induction false} CheckEntriesFirstError(entries: seq<(Value, Value)>, k: nat)
    requires k < |entries| && EntryBoard(entries[k]).Err?
    requires forall j :: 0 <= j < k ==> EntryBoard(entries[j]).Ok?
    ensures CheckEntries(entries) == Err(EntryBoard(entries[k]).error)
  {
    if k > 0 {
      assert EntryBoard(entries[0]).Ok?;
      assert forall j :: 0 <= j < k - 1 ==> entries[1..][j] == entries[j + 1];
      CheckEntriesFirstError(entries[1..], k - 1);
    }
  }

  /** The `boards` section of the configuration, as
      `get_all_boards_from_config` reaches it. */
  function AllEntries(file: ConfigFile): Result<seq<(Value, Value)>>
  {
    match Load(file)
    case Err(e) => Err(e)
    case Ok(root) =>
      match Get(root, "boards")
      case None => Err(ConfigParsing(NO_BOARDS))
      case Some(section) =>
        // `board_configs.unwrap()` when `boards` is not a mapping
        match AsMapping(section)
        case None => Err(Panic(UNWRAP_NONE))
        case Some(entries) => Ok(entries)
  }

  /** What `get_all_boards_from_config` returns as written. */
  function AllBoardsFromConfig(file: ConfigFile): Result<seq<Board>>
  {
    match AllEntries(file)
    case Err(e) => Err(e)
    case Ok(entries) =>
      match CheckEntries(entries)
      case Err(e) => Err(e)
      case Ok(_) => Ok([])
  }

  /** `get_all_boards_from_config`: every entry must have a string key and
      a complete record, but the vector returned is the one created empty
      at the start, which nothing pushes to. */
  method GetAllBoardsFromConfig(file: ConfigFile) returns (r: Result<seq<Board>>)
    ensures r == AllBoardsFromConfig(file)
    ensures r.Ok? ==> r.value == []
    ensures r.Ok? <==> AllEntries(file).Ok? &&
                       forall i :: 0 <= i < |AllEntries(file).value| ==> EntryBoard(AllEntries(file).value[i]).Ok?
  {
    var boards: seq<Board> := [];
    var config := Load(file);
    if config.Err? {
      return Err(config.error);
    }
    var section := Get(config.value, "boards");
    if section.None? {
      return Err(ConfigParsing(NO_BOARDS));
    }
    var mapping := AsMapping(section.value);
    if mapping.None? {
      return Err(Panic(UNWRAP_NONE));
    }
    var entries := mapping.value;
    CheckEntriesOk(entries);

    for i := 0 to |entries|
      invariant CheckEntries(entries) == CheckEntries(entries[i..])
    {
      var board := Default();
      var name := AsStr(entries[i].0);
      if name.None? {
        return Err(ConfigParsing(NAME_NOT_STRING));
      }
      board := board.(name := name.value);
      var res;
      res, board := PopulateBoard(board, entries[i].1);
      if res.Err? {
        return Err(res.error);
      }
      assert entries[i..][1..] == entries[i + 1..];
    }

    return Ok(boards);
  }

  /** The evidently intended registry: every entry's board, in mapping
      order, with the same failure behaviour. */
  function CollectEntries(entries: seq<(Value, Value)>): Result<seq<Board>>
  {
    if entries == [] then Ok([])
    else
      match EntryBoard(entries[0])
      case Err(e) => Err(e)
      case Ok(board) =>
        match CollectEntries(entries[1..])
        case Err(e) => Err(e)
        case Ok(rest) => Ok([board] + rest)
  }

  function CollectedBoards(file: ConfigFile): Result<seq<Board>>
  {
    match AllEntries(file)
    case Err(e) => Err(e)
    case Ok(entries) => CollectEntries(entries)
  }

  /** The corrected collector fails exactly where the check of every entry
      fails, with the same error, and otherwise yields one board per
      entry, in order. */
  lemma {:induction false} CollectEntriesCorrect(entries: seq<(Value, Value)>)
    ensures CollectEntries(entries).Err? <==> CheckEntries(entries).Err?
    ensures CollectEntries(entries).Err? ==> CollectEntries(entries).error == CheckEntries(entries).error
    ensures CollectEntries(entries).Ok? ==>
              |CollectEntries(entries).value| == |entries| &&
              forall i :: 0 <= i < |entries| ==> Ok(CollectEntries(entries).value[i]) == EntryBoard(entries[i])
  {
    if entries != [] {
      CollectEntriesCorrect(entries[1..]);
      assert forall i :: 1 <= i < |entries| ==> entries[i] == entries[1..][i - 1];
    }
  }

  /** The corrected `get_all_boards_from_config`: pushes each board it
      builds. */
  method CollectAllBoards(file: ConfigFile) returns (r: Result<seq<Board>>)
    ensures r == CollectedBoards(file)
    ensures r.Err? <==> AllBoardsFromConfig(file).Err?
    ensures r.Err? ==> r.error == AllBoardsFromConfig(file).error
    ensures r.Ok? ==> |r.value| == |AllEntries(file).value| &&
                      forall i :: 0 <= i < |r.value| ==>
                        AllEntries(file).value[i].0 == Str(r.value[i].name) &&
                        Ok(r.value[i]) == EntryBoard(AllEntries(file).value[i])
  {
    var boards: seq<Board> := [];
    var config := Load(file);
    if config.Err? {
      return Err(config.error);
    }
    var section := Get(config.value, "boards");
    if section.None? {
      return Err(ConfigParsing(NO_BOARDS));
    }
    var mapping := AsMapping(section.value);
    if mapping.None? {
      return Err(Panic(UNWRAP_NONE));
    }
    var entries := mapping.value;
    CollectEntriesCorrect(entries);
    assert entries[0..] == entries;
    assert CollectEntries(entries).Ok? ==> [] + CollectEntries(entries).value == CollectEntries(entries).value;

    for i := 0 to |entries|
      invariant CollectEntries(entries) ==
                  match CollectEntries(entries[i..])
                  case Err(e) => Err(e)
                  case Ok(rest) => Ok(boards + rest)
    {
      var board := Default();
      var name := AsStr(entries[i].0);
      if name.None? {
        return Err(ConfigParsing(NAME_NOT_STRING));
      }
      board := board.(name := name.value);
      var res;
      res, board := PopulateBoard(board, entries[i].1);
      if res.Err? {
        return Err(res.error);
      }
      assert entries[i..][1..] == entries[i + 1..];
      assert EntryBoard(entries[i]) == Ok(board);
      ghost var tail := CollectEntries(entries[i + 1..]);
      if tail.Ok? {
        assert boards + ([board] + tail.value) == (boards + [board]) + tail.value;
      }
      boards := boards + [board];
    }

    assert entries[|entries|..] == [];
    assert boards + [] == boards;
    return Ok(boards);
  }

  /** A one-board configuration on which the two collectors disagree. */
  lemma EmptyRegistryWitness()
    ensures var entry := Mapping([(Str("serial"), Str("YK1")), (Str("port"), Str("1")), (Str("type"), Str("usb"))]);
            var file := Parsed(Mapping([(Str("boards"), Mapping([(Str("icicle"), entry)]))]));
            AllBoardsFromConfig(file) == Ok([]) &&
            CollectedBoards(file) == Ok([Board("icicle", "YK1", "1", "usb")])
  {
    var entry := Mapping([(Str("serial"), Str("YK1")), (Str("port"), Str("1")), (Str("type"), Str("usb"))]);
    assert ReadField(entry, "serial") == Text("YK1");
    assert ReadField(entry, "port") == Text("1");
    assert ReadField(entry, "type") == Text("usb");
    var entries := [(Str("icicle"), entry)];
    var file := Parsed(Mapping([(Str("boards"), Mapping(entries))]));
    assert entries[1..] == [];
    assert EntryBoard(entries[0]) == Ok(Board("icicle", "YK1", "1", "usb"));
    assert AllEntries(file) == Ok(entries);
    assert CheckEntries(entries) == Ok(());
    assert CollectEntries(entries[1..]) == Ok([]);
    assert [Board("icicle", "YK1", "1", "usb")] + [] == [Board("icicle", "YK1", "1", "usb")];
    assert CollectEntries(entries) == Ok([Board("icicle", "YK1", "1", "usb")]);
  }
}
