/// The interactive board list: a selectable list of boards, a pop-up menu
/// of actions over the selected board, and the key dispatch of the event
/// loop.  Rendering and terminal handling are not modelled; the power
/// operations the menu reaches (`Board::is_powered`, `turn_on_board`,
/// `turn_off_board`) are answered by a `Lab` oracle.
module Ui {
  import opened Base
  import opened Yaml
  import opened Boards

  const UNDERFLOW := "attempt to subtract with overflow"
  const OUT_OF_BOUNDS := "index out of bounds"

  // ---------------------------------------------------------------------
  // The wrap-around cursor

  /** Where a cursor move lands, or `Underflow` when `items.len() - 1` is
      evaluated on an empty list (a panic with overflow checks on). */
  datatype Move = To(index: nat) | Underflow

  /** `StatefulList::next`. */
  function NextIndex(selected: Option<nat>, len: nat): (m: Move)
    ensures m.Underflow? <==> selected.Some? && len == 0
    ensures len > 0 ==> m.To? && m.index < len
    ensures selected.None? ==> m == To(0)
  {
    match selected
    case None => To(0)
    case Some(i) =>
      if len == 0 then Underflow
      else if i >= len - 1 then To(0)
      else To(i + 1)
  }

  /** `StatefulList::previous`. */
  function PreviousIndex(selected: Option<nat>, len: nat): (m: Move)
    ensures m.Underflow? <==> selected == Some(0) && len == 0
    ensures len > 0 && (selected.None? || selected.value < len) ==> m.To? && m.index < len
    ensures selected.None? ==> m == To(0)
  {
    match selected
    case None => To(0)
    case Some(i) =>
      if i == 0 then (if len == 0 then Underflow else To(len - 1))
      else To(i - 1)
  }

  /** Within a non-empty list the two moves undo each other. */
  lemma NextPreviousInverse(i: nat, len: nat)
    requires i < len
    ensures PreviousIndex(Some(NextIndex(Some(i), len).index), len) == To(i)
    ensures NextIndex(Some(PreviousIndex(Some(i), len).index), len) == To(i)
  {
  }

  /** What indexing a list by its selection finds. */
  datatype Pick<T> = NoSelection | Picked(item: T) | OutOfBounds

  function PickAt<T>(items: seq<T>, selected: Option<nat>): Pick<T>
  {
    match selected
    case None => NoSelection
    case Some(i) => if i < |items| then Picked(items[i]) else OutOfBounds
  }

  class StatefulList<T> {
    var items: seq<T>
    var selected: Option<nat>

    /** `StatefulList::with_items` (and `default`, with no items). */
    constructor WithItems(items: seq<T>)
      ensures this.items == items && selected == None
    {
      this.items := items;
      selected := None;
    }

    /** Moves down, wrapping from the last item to the first.  `ok` is
        false when the move panics. */
    method Next() returns (ok: bool)
      modifies this
      ensures items == old(items)
      ensures ok <==> NextIndex(old(selected), |items|).To?
      ensures selected == if ok then Some(NextIndex(old(selected), |items|).index) else old(selected)
    {
      var i: nat;
      match selected {
        case Some(s) =>
          if |items| == 0 {
            return false;
          }
          if s >= |items| - 1 {
            i := 0;
          } else {
            i := s + 1;
          }
        case None =>
          i := 0;
      }
      selected := Some(i);
      ok := true;
    }

    /** Moves up, wrapping from the first item to the last. */
    method Previous() returns (ok: bool)
      modifies this
      ensures items == old(items)
      ensures ok <==> PreviousIndex(old(selected), |items|).To?
      ensures selected == if ok then Some(PreviousIndex(old(selected), |items|).index) else old(selected)
    {
      var i: nat;
      match selected {
        case Some(s) =>
          if s == 0 {
            if |items| == 0 {
              return false;
            }
            i := |items| - 1;
          } else {
            i := s - 1;
          }
        case None =>
          i := 0;
      }
      selected := Some(i);
      ok := true;
    }

    method Deselect()
      modifies this
      ensures items == old(items) && selected == None
    {
      selected := None;
    }
  }

  // ---------------------------------------------------------------------
  // The power operations behind the menu

  /** The functions the menu can run; the source installs
      `toggle_power_state` under every label. */
  datatype ActionFn = TogglePowerState

  datatype Action = Action(title: string, run: ActionFn)

  /** The menu `action_menu` installs. */
  const MENU: seq<Action> := [Action("Switch power", TogglePowerState),
                              Action("Reboot", TogglePowerState),
                              Action("Boot test", TogglePowerState)]

  /** A call into the board-level power operations. */
  datatype LabCall = QueryPower(board: Board) | TurnOn(name: string) | TurnOff(name: string)

  datatype LabRun = LabRun(result: Result<()>, calls: seq<LabCall>)

  /** The power operations as seen from the menu: each answer depends on
      the calls made before it. */
  class Lab {
    var calls: seq<LabCall>
    const powered: (seq<LabCall>, Board) -> Result<bool>
    const switched: (seq<LabCall>, LabCall) -> Result<()>

    constructor (powered: (seq<LabCall>, Board) -> Result<bool>, switched: (seq<LabCall>, LabCall) -> Result<()>)
      ensures this.powered == powered && this.switched == switched && calls == []
    {
      this.powered := powered;
      this.switched := switched;
      calls := [];
    }

    method IsPowered(board: Board) returns (r: Result<bool>)
      modifies this
      ensures calls == old(calls) + [QueryPower(board)] && r == powered(old(calls), board)
    {
      r := powered(calls, board);
      calls := calls + [QueryPower(board)];
    }

    method TurnOnBoard(name: string) returns (r: Result<()>)
      modifies this
      ensures calls == old(calls) + [TurnOn(name)] && r == switched(old(calls), TurnOn(name))
    {
      r := switched(calls, TurnOn(name));
      calls := calls + [TurnOn(name)];
    }

    method TurnOffBoard(name: string) returns (r: Result<()>)
      modifies this
      ensures calls == old(calls) + [TurnOff(name)] && r == switched(old(calls), TurnOff(name))
    {
      r := switched(calls, TurnOff(name));
      calls := calls + [TurnOff(name)];
    }
  }

  /** `toggle_power_state`: query the board, then turn it on when it is
      off and off when it is on. */
  function ToggleRun(lab: Lab, calls: seq<LabCall>, board: Board): LabRun
  {
    var query := lab.powered(calls, board);
    var asked := calls + [QueryPower(board)];
    match query
    case Err(e) => LabRun(Err(e), [QueryPower(board)])
    case Ok(on) =>
      if !on then LabRun(lab.switched(asked, TurnOn(board.name)), [QueryPower(board), TurnOn(board.name)])
      else LabRun(lab.switched(asked, TurnOff(board.name)), [QueryPower(board), TurnOff(board.name)])
  }

  /** The board is switched on exactly when it was reported off, switched
      off exactly when it was reported on, and left alone when the query
      failed. */
  lemma ToggleSwitchesOpposite(lab: Lab, calls: seq<LabCall>, board: Board)
    ensures var run := ToggleRun(lab, calls, board);
            var query := lab.powered(calls, board);
            && run.calls[0] == QueryPower(board)
            && (TurnOn(board.name) in run.calls <==> query == Ok(false))
            && (TurnOff(board.name) in run.calls <==> query == Ok(true))
            && (query.Err? ==> run == LabRun(Err(query.error), [QueryPower(board)]))
  {
  }

  method TogglePower(lab: Lab, board: Board) returns (r: Result<()>)
    modifies lab
    ensures lab.calls == old(lab.calls) + ToggleRun(lab, old(lab.calls), board).calls
    ensures r == ToggleRun(lab, old(lab.calls), board).result
  {
    var powered := lab.IsPowered(board);
    if powered.Err? {
      return Err(powered.error);
    }
    if !powered.value {
      r := lab.TurnOnBoard(board.name);
      return;
    }
    r := lab.TurnOffBoard(board.name);
  }

  // ---------------------------------------------------------------------
  // The screen state

  /** Everything the key dispatch reads and writes, as a value. */
  datatype Screen = Screen(boards: seq<Board>, boardSel: Option<nat>, popup: bool,
                           actions: seq<Action>, actionSel: Option<nat>)

  class UiState {
    var boards: StatefulList<Board>
    var showPopup: bool
    var actions: StatefulList<Action>

    ghost predicate Distinct()
      reads this
    {
      boards as object != actions as object
    }

    /** `UIState::new()` followed by pushing every loaded board. */
    constructor (loaded: seq<Board>)
      ensures Distinct() && fresh(boards) && fresh(actions)
      ensures Snapshot() == Screen(loaded, None, false, [], None)
    {
      var boardList := new StatefulList<Board>.WithItems([]);
      for i := 0 to |loaded|
        invariant boardList.items == loaded[..i] && boardList.selected == None
      {
        boardList.items := boardList.items + [loaded[i]];
        assert loaded[..i + 1] == loaded[..i] + [loaded[i]];
      }
      assert loaded[..|loaded|] == loaded;
      var actionList := new StatefulList<Action>.WithItems([]);
      boards := boardList;
      actions := actionList;
      showPopup := false;
    }

    ghost function Snapshot(): Screen
      reads this, boards, actions
    {
      Screen(boards.items, boards.selected, showPopup, actions.items, actions.selected)
    }

    /** `UIState::selected_board`: nothing without a selection, the
        selected board otherwise, and a panic when the selection is past
        the end of the list. */
    function SelectedBoard(): (p: Pick<Board>)
      reads this, boards
      ensures p.NoSelection? <==> boards.selected.None?
      ensures p.Picked? <==> boards.selected.Some? && boards.selected.value < |boards.items|
      ensures p.Picked? ==> p.item == boards.items[boards.selected.value]
    {
      PickAt(boards.items, boards.selected)
    }

    /** `UIState::selected_action`: the function part of the selected
        menu entry. */
    function SelectedAction(): (p: Pick<ActionFn>)
      reads this, actions
      ensures p.NoSelection? <==> actions.selected.None?
      ensures p.Picked? <==> actions.selected.Some? && actions.selected.value < |actions.items|
      ensures p.Picked? ==> p.item == actions.items[actions.selected.value].run
    {
      match PickAt(actions.items, actions.selected)
      case NoSelection => NoSelection
      case OutOfBounds => OutOfBounds
      case Picked(a) => Picked(a.run)
    }
  }

  // ---------------------------------------------------------------------
  // The dispatch rules, on screen values

  datatype Key = Char(c: char) | Left | Down | Up | Enter | OtherKey

  /** One poll of the event loop: an idle poll or a non-key event, or a
      key press. */
  datatype Input = Idle | Press(key: Key)

  /** What one key does: the next screen, the next screen after
      `perform_action` has run on the current one, leaving the loop, or a
      panic. */
  datatype Dispatched = Stay(screen: Screen) | Perform(screen: Screen) | Exit | Crash(reason: string)

  /** `action_menu` on a screen. */
  function MenuScreen(s: Screen): Dispatched
  {
    match PickAt(s.boards, s.boardSel)
    case OutOfBounds => Crash(OUT_OF_BOUNDS)
    case NoSelection => Stay(s)
    case Picked(_) => Stay(s.(popup := true, actions := MENU, actionSel := None))
  }

  function MoveTo(m: Move, s: Screen, onActions: bool): Dispatched
  {
    match m
    case Underflow => Crash(UNDERFLOW)
    case To(i) => if onActions then Stay(s.(actionSel := Some(i))) else Stay(s.(boardSel := Some(i)))
  }

  /** The key match of the event loop. */
  function Dispatch(s: Screen, key: Key): (d: Dispatched)
    ensures d.Exit? <==> key == Char('q')
    ensures d.Perform? <==> s.popup && key == Enter
    ensures d.Stay? || d.Perform? ==> d.screen.boards == s.boards
    ensures d.Stay? && !s.popup && d.screen.popup ==> key == Enter
  {
    if key == Char('q') then Exit
    else if !s.popup then
      match key
      case Left => Stay(s.(boardSel := None))
      case Down => MoveTo(NextIndex(s.boardSel, |s.boards|), s, false)
      case Up => MoveTo(PreviousIndex(s.boardSel, |s.boards|), s, false)
      case Enter => MenuScreen(s)
      case _ => Stay(s)
    else
      match key
      case Left => Stay(s.(actionSel := None))
      case Down => MoveTo(NextIndex(s.actionSel, |s.actions|), s, true)
      case Up => MoveTo(PreviousIndex(s.actionSel, |s.actions|), s, true)
      case Enter => Perform(s)
      case _ => Stay(s)
  }

  /** `perform_action` on a screen. */
  function PerformRun(lab: Lab, calls: seq<LabCall>, s: Screen): LabRun
  {
    match PickAt(s.boards, s.boardSel)
    case OutOfBounds => LabRun(Err(Panic(OUT_OF_BOUNDS)), [])
    case NoSelection => LabRun(Ok(()), [])
    case Picked(board) =>
      match PickAt(s.actions, s.actionSel)
      case OutOfBounds => LabRun(Err(Panic(OUT_OF_BOUNDS)), [])
      case NoSelection => ToggleRun(lab, calls, board)
      case Picked(action) =>
        match action.run
        case TogglePowerState => ToggleRun(lab, calls, board)
  }

  /** The states the dispatch can reach from the initial screen. */
  ghost predicate Reachable(s: Screen)
  {
    && (s.boardSel.Some? ==> s.boardSel.value < |s.boards| || (s.boards == [] && s.boardSel == Some(0)))
    && (!s.popup ==> s.actions == [] && s.actionSel == None)
    && (s.popup ==> s.actions == MENU && PickAt(s.boards, s.boardSel).Picked? &&
                    (s.actionSel.Some? ==> s.actionSel.value < |MENU|))
  }

  lemma InitialReachable(loaded: seq<Board>)
    ensures Reachable(Screen(loaded, None, false, [], None))
  {
  }

  /** Every key keeps the screen reachable; once the pop-up is shown it
      stays shown, over the same board. */
  lemma DispatchPreservesReachable(s: Screen, key: Key)
    requires Reachable(s)
    ensures var d := Dispatch(s, key);
            (d.Stay? || d.Perform?) ==>
              && Reachable(d.screen)
              && (s.popup ==> d.screen.popup && d.screen.boardSel == s.boardSel)
  {
  }

  /** With at least one board, no key panics. */
  lemma DispatchNeverCrashes(s: Screen, key: Key)
    requires Reachable(s) && |s.boards| > 0
    ensures !Dispatch(s, key).Crash?
  {
  }

  /** In the pop-up every entry, and no entry at all, toggles the power of
      the selected board. */
  lemma PerformTogglesSelected(lab: Lab, calls: seq<LabCall>, s: Screen)
    requires Reachable(s) && s.popup
    ensures PerformRun(lab, calls, s) == ToggleRun(lab, calls, s.boards[s.boardSel.value])
  {
  }

  // ---------------------------------------------------------------------
  // The event loop

  datatype Status = Running | Exited | Panicked(reason: string)

  datatype SessionEnd = SessionEnd(status: Status, screen: Screen, calls: seq<LabCall>)

  function IsPanic(r: Result<()>): bool
  {
    r.Err? && r.error.Panic?
  }

  /** The loop over a finite sequence of polls.  The result of
      `perform_action` is discarded unless it is a panic. */
  function Session(lab: Lab, calls: seq<LabCall>, s: Screen, inputs: seq<Input>): SessionEnd
    decreases |inputs|
  {
    if inputs == [] then SessionEnd(Running, s, [])
    else
      match inputs[0]
      case Idle => Session(lab, calls, s, inputs[1..])
      case Press(key) =>
        match Dispatch(s, key)
        case Exit => SessionEnd(Exited, s, [])
        case Crash(reason) => SessionEnd(Panicked(reason), s, [])
        case Stay(next) => Session(lab, calls, next, inputs[1..])
        case Perform(next) =>
          var run := PerformRun(lab, calls, s);
          if IsPanic(run.result) then SessionEnd(Panicked(run.result.error.reason), s, run.calls)
          else
            var rest := Session(lab, calls + run.calls, next, inputs[1..]);
            SessionEnd(rest.status, rest.screen, run.calls + rest.calls)
  }

  ghost predicate LabNeverPanics(lab: Lab)
  {
    && (forall h, b :: !(lab.powered(h, b).Err? && lab.powered(h, b).error.Panic?))
    && (forall h, c :: !IsPanic(lab.switched(h, c)))
  }

  /** With at least one board, and power operations that do not panic,
      the interactive loop never panics, whatever the keys. */
  lemma {:induction false} SessionNeverPanics(lab: Lab, calls: seq<LabCall>, s: Screen, inputs: seq<Input>)
    requires Reachable(s) && |s.boards| > 0 && LabNeverPanics(lab)
    ensures !Session(lab, calls, s, inputs).status.Panicked?
    decreases |inputs|
  {
    if inputs != [] {
      match inputs[0]
      case Idle =>
        SessionNeverPanics(lab, calls, s, inputs[1..]);
      case Press(key) =>
        DispatchNeverCrashes(s, key);
        DispatchPreservesReachable(s, key);
        match Dispatch(s, key)
        case Exit =>
        case Stay(next) =>
          SessionNeverPanics(lab, calls, next, inputs[1..]);
        case Perform(next) =>
          PerformTogglesSelected(lab, calls, s);
          var run := PerformRun(lab, calls, s);
          SessionNeverPanics(lab, calls + run.calls, next, inputs[1..]);
    }
  }

  /** `q` ends the loop in either mode, after the polls before it. */
  lemma {:induction false} QuitEndsSession(lab: Lab, calls: seq<LabCall>, s: Screen, inputs: seq<Input>)
    requires |inputs| > 0 && inputs[|inputs| - 1] == Press(Char('q'))
    ensures Session(lab, calls, s, inputs).status != Running
    decreases |inputs|
  {
    if inputs[0] != Press(Char('q')) {
      assert inputs[1..][|inputs[1..]| - 1] == Press(Char('q'));
      match inputs[0]
      case Idle =>
        QuitEndsSession(lab, calls, s, inputs[1..]);
      case Press(key) =>
        match Dispatch(s, key)
        case Exit =>
        case Crash(_) =>
        case Stay(next) =>
          QuitEndsSession(lab, calls, next, inputs[1..]);
        case Perform(next) =>
          var run := PerformRun(lab, calls, s);
          if !IsPanic(run.result) {
            QuitEndsSession(lab, calls + run.calls, next, inputs[1..]);
          }
    }
  }

  /** On an empty board list, two presses of Down panic, and so does Down
      followed by Enter. */
  lemma EmptyListPanics(lab: Lab, calls: seq<LabCall>)
    ensures var s := Screen([], None, false, [], None);
            && Session(lab, calls, s, [Press(Down), Press(Down)]).status == Panicked(UNDERFLOW)
            && Session(lab, calls, s, [Press(Down), Press(Enter)]).status == Panicked(OUT_OF_BOUNDS)
  {
    var s := Screen([], None, false, [], None);
    assert [Press(Down), Press(Down)][1..] == [Press(Down)];
    assert [Press(Down), Press(Enter)][1..] == [Press(Enter)];
  }

  /** With no boards the pop-up never opens, so no key sequence reaches
      the power operations. */
  lemma {:induction false} EmptyListTouchesNoBoard(lab: Lab, calls: seq<LabCall>, s: Screen, inputs: seq<Input>)
    requires Reachable(s) && s.boards == []
    ensures Session(lab, calls, s, inputs).calls == []
    decreases |inputs|
  {
    if inputs != [] {
      match inputs[0]
      case Idle =>
        EmptyListTouchesNoBoard(lab, calls, s, inputs[1..]);
      case Press(key) =>
        DispatchPreservesReachable(s, key);
        match Dispatch(s, key)
        case Exit =>
        case Crash(_) =>
        case Stay(next) =>
          EmptyListTouchesNoBoard(lab, calls, next, inputs[1..]);
    }
  }

  // ---------------------------------------------------------------------
  // The operations on the UI state

  /** `action_menu`: with a board selected, installs the three actions
      with none selected and shows the pop-up; `ok` is false on a panic. */
  method ActionMenu(ui: UiState) returns (ok: bool)
    requires ui.Distinct()
    modifies ui
    ensures ui.Distinct() && ui.boards == old(ui.boards) && (ui.actions == old(ui.actions) || fresh(ui.actions))
    ensures var d := MenuScreen(old(ui.Snapshot()));
            && (ok <==> d.Stay?)
            && (ok ==> ui.Snapshot() == d.screen)
            && (!ok ==> ui.Snapshot() == old(ui.Snapshot()))
  {
    var selected := ui.SelectedBoard();
    if selected.OutOfBounds? {
      return false;
    }
    if selected.NoSelection? {
      return true;
    }
    ui.actions := new StatefulList<Action>.WithItems(MENU);
    ui.showPopup := true;
    ok := true;
  }

  /** `perform_action`: runs on a copy of the state, which it does not
      change. */
  method PerformAction(ui: UiState, lab: Lab) returns (r: Result<()>)
    modifies lab
    ensures lab.calls == old(lab.calls) + PerformRun(lab, old(lab.calls), ui.Snapshot()).calls
    ensures r == PerformRun(lab, old(lab.calls), ui.Snapshot()).result
  {
    var board := ui.SelectedBoard();
    if board.OutOfBounds? {
      return Err(Panic(OUT_OF_BOUNDS));
    }
    if board.NoSelection? {
      return Ok(());
    }
    var action := ui.SelectedAction();
    if action.OutOfBounds? {
      return Err(Panic(OUT_OF_BOUNDS));
    }
    if action.NoSelection? {
      r := TogglePower(lab, board.item);
    } else {
      match action.item
      case TogglePowerState =>
        r := TogglePower(lab, board.item);
    }
  }

  /** One key press in the event loop. */
  method HandleKey(ui: UiState, lab: Lab, key: Key) returns (status: Status)
    requires ui.Distinct()
    modifies ui, ui.boards, ui.actions, lab
    ensures ui.Distinct() && ui.boards == old(ui.boards) && (ui.actions == old(ui.actions) || fresh(ui.actions))
    ensures match Dispatch(old(ui.Snapshot()), key)
            case Exit => status == Exited && ui.Snapshot() == old(ui.Snapshot()) && lab.calls == old(lab.calls)
            case Crash(reason) => status == Panicked(reason) && ui.Snapshot() == old(ui.Snapshot()) && lab.calls == old(lab.calls)
            case Stay(next) => status == Running && ui.Snapshot() == next && lab.calls == old(lab.calls)
            case Perform(next) =>
              var run := PerformRun(lab, old(lab.calls), old(ui.Snapshot()));
              && ui.Snapshot() == next
              && lab.calls == old(lab.calls) + run.calls
              && status == if IsPanic(run.result) then Panicked(run.result.error.reason) else Running
  {
    if key == Char('q') {
      return Exited;
    }
    status := Running;
    if !ui.showPopup {
      match key
      case Left => ui.boards.Deselect();
      case Down =>
        var ok := ui.boards.Next();
        if !ok { return Panicked(UNDERFLOW); }
      case Up =>
        var ok := ui.boards.Previous();
        if !ok { return Panicked(UNDERFLOW); }
      case Enter =>
        var ok := ActionMenu(ui);
        if !ok { return Panicked(OUT_OF_BOUNDS); }
      case _ =>
    } else {
      match key
      case Left => ui.actions.Deselect();
      case Down =>
        var ok := ui.actions.Next();
        if !ok { return Panicked(UNDERFLOW); }
      case Up =>
        var ok := ui.actions.Previous();
        if !ok { return Panicked(UNDERFLOW); }
      case Enter =>
        var err := PerformAction(ui, lab);
        if IsPanic(err) { return Panicked(err.error.reason); }
      case _ =>
    }
  }

  /** The event loop of `run_interactively`, over a finite run of polls;
      `Running` when the polls run out before the loop ends. */
  method EventLoop(ui: UiState, lab: Lab, inputs: seq<Input>) returns (status: Status)
    requires ui.Distinct()
    modifies ui, ui.boards, ui.actions, lab
    ensures var e := Session(lab, old(lab.calls), old(ui.Snapshot()), inputs);
            status == e.status && ui.Snapshot() == e.screen && lab.calls == old(lab.calls) + e.calls
  {
    ghost var calls0 := lab.calls;
    ghost var total := Session(lab, calls0, ui.Snapshot(), inputs);
    ghost var done: seq<LabCall> := [];
    var boards0 := ui.boards;

    for i := 0 to |inputs|
      invariant ui.Distinct() && ui.boards == boards0
      invariant ui.actions == old(ui.actions) || fresh(ui.actions)
      invariant lab.calls == calls0 + done
      invariant var rest := Session(lab, lab.calls, ui.Snapshot(), inputs[i..]);
                total == SessionEnd(rest.status, rest.screen, done + rest.calls)
    {
      assert inputs[i..][1..] == inputs[i + 1..];
      match inputs[i]
      case Idle =>
      case Press(key) =>
        ghost var before := ui.Snapshot();
        ghost var callsBefore := lab.calls;
        ghost var run := PerformRun(lab, callsBefore, before);
        status := HandleKey(ui, lab, key);
        if status != Running {
          return;
        }
        ghost var d := Dispatch(before, key);
        if d.Perform? {
          AppendAssociative(calls0, done, run.calls);
          ghost var rest := Session(lab, callsBefore + run.calls, d.screen, inputs[i + 1..]);
          AppendAssociative(done, run.calls, rest.calls);
          done := done + run.calls;
        }
    }
    assert inputs[|inputs|..] == [];
    assert done + [] == done;
    status := Running;
  }

  /** `run_interactively`: load the boards, start with them listed and
      nothing selected, then run the loop.  As written the list loaded is
      always empty. */
  method RunInteractively(file: ConfigFile, lab: Lab, inputs: seq<Input>) returns (r: Result<Status>)
    modifies lab
    ensures r.Err? <==> AllBoardsFromConfig(file).Err?
    ensures r.Ok? ==> r.value == Session(lab, old(lab.calls), Screen([], None, false, [], None), inputs).status
    ensures r.Ok? ==> lab.calls == old(lab.calls) + Session(lab, old(lab.calls), Screen([], None, false, [], None), inputs).calls
    ensures lab.calls == old(lab.calls)
  {
    var loaded := GetAllBoardsFromConfig(file);
    if loaded.Err? {
      return Err(loaded.error);
    }
    var ui := new UiState(loaded.value);
    var status := EventLoop(ui, lab, inputs);
    EmptyListTouchesNoBoard(lab, old(lab.calls), Screen([], None, false, [], None), inputs);
    return Ok(status);
  }
}
