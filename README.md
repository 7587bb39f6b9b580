# lab — a model of the board power tool

`lab` switches the power of development boards that hang off Yepkit
hubs: a USB hub driven by `ykushcmd ykush` or a relay board driven by
`ykurcmd`. A YAML configuration names each board under a `boards` mapping
and gives the hub's serial number, the port and the hub kind (`usb` or
`relay`). The tool can switch one board off, on, or off and then on again
(a reboot). It can report whether a board's port is on, switch every
configured board off (`goodnight`), and run an interactive terminal list
where a pop-up menu toggles a board's power.

The model has five modules:

- `Base`: the result and error types, with a Rust panic as an error kind
  that nothing can recover from.
- `Yaml`: a parsed configuration value and key lookup.
- `Boards` (boards/mod.rs): the registry.
- `Ykcmd` (ykcmd/mod.rs): the hub adapter and the power operations.
- `Ui` (ui/mod.rs): the interactive list.

The shell is an oracle. It is a function from the history of events issued
so far and a command line to the command's exit status and standard
output. A `Host` object records each command and each sleep in its `log`.
Each operation has a specification function, which gives the result and
the events issued. The matching method must append exactly those events
to the log and return that result. The properties are proved as lemmas
about the specification functions.

Notes on the code's behaviour that the model keeps:

- A `usb` board is switched with `ykushcmd ykush`, a `relay` board with
  `ykurcmd`.
- Only the text of the listing command is used, searched for the serial
  number; its exit status is never checked.
- A port reads as on exactly when the status output contains `ON`; every
  other output reads as off.
- `goodnight` discards each board's result without reporting it.
- ui/mod.rs calls `Board::is_powered`, `ykcmd::turn_on_board` and
  `ykcmd::turn_off_board`, which the modelled boards/mod.rs and
  ykcmd/mod.rs do not define. In the UI they are a second oracle,
  `Ui.Lab`, which records every call it receives.

## Model

| member | source | states |
|---|---|---|
| Yaml.Load | boards/mod.rs:85-87 | reading and parsing succeed exactly when the file is readable, valid YAML; the value is the parsed document, and a read failure is told apart from a parse failure |
| Yaml.LookupFinds | boards/mod.rs:117-121 | a mapping lookup finds nothing exactly when no entry has the key, and otherwise finds the value of the first entry with that key |
| Yaml.Get | boards/mod.rs:57-58 | looking a key up in anything but a mapping finds nothing |
| Boards.Default | boards/mod.rs:42-52 | every field of the default board is "n/a" |
| Boards.PopulateBoard | boards/mod.rs:54-79 | succeeds exactly when serial, port and type are all present strings. On success the board carries those three values and keeps its name. Otherwise the first bad field decides the error (missing or not a string), and only the fields before it have been overwritten |
| Boards.BoardFromConfigFields | boards/mod.rs:110-128 | a named board is returned exactly when its entry has string serial, port and type; the board has the requested name and those values |
| Boards.GetBoardFromConfig | boards/mod.rs:110-128 | no `boards` key gives "No boards found"; an absent name gives "Requested board not found"; a returned board has the requested name and its entry's fields |
| Boards.CheckEntriesOk | boards/mod.rs:98-105 | reading the whole `boards` mapping succeeds exactly when every entry has a string key and a complete board entry |
| Boards.CheckEntriesFirstError | boards/mod.rs:98-105 | when entries fail, the error is that of the first failing entry in mapping order |
| Boards.GetAllBoardsFromConfig | boards/mod.rs:81-108 | as written: it succeeds exactly when every entry parses, and on success the returned list is always empty |
| Boards.EmptyRegistryWitness | boards/mod.rs:84-107 | a configuration with one well-formed board "icicle" yields an empty list as written, and a one-board list once the board is pushed |
| Boards.CollectEntriesCorrect | boards/mod.rs:98-107 | the corrected loop fails exactly when the original does, with the same error; on success it yields one board per entry, named by its key, in mapping order |
| Boards.CollectAllBoards | boards/mod.rs:81-108 | the corrected loader: the same errors as the original, and on success one board per entry, in mapping order, that entry's name and fields |
| Ykcmd.Host.Sh | ykcmd/mod.rs:113-117 | running a command appends it to the log, and its output is what the shell gives for that history |
| Ykcmd.Host.SleepMs | ykcmd/mod.rs:189 | a sleep is recorded in the log |
| Ykcmd.FormatCommand | ykcmd/mod.rs:86-96 | "usb" selects `ykushcmd ykush` and "relay" selects `ykurcmd`; any other kind fails with "Unsupported yk board type" and leaves the command unchanged |
| Ykcmd.ContainsMeaning | ykcmd/mod.rs:79 | the substring test is true exactly when the pattern occurs at some position |
| Ykcmd.Power | ykcmd/mod.rs:33-54 | the log grows by exactly the switching specification's events, and the result is the specification's. That specification issues `<tool> -s <serial> -<first letter of direction> <port>` once and fails with "failed to power direction" exactly when the command fails |
| Ykcmd.PortStatus | ykcmd/mod.rs:56-84 | the log grows by exactly the status specification's events, and the result is the specification's. That specification issues `<tool> -s <serial> -g <port>` once, fails when the command fails, and otherwise reports whether the output contains "ON" |
| Ykcmd.PowerOff | ykcmd/mod.rs:106-134 | the log grows by exactly the events of the power-off specification, and the result is the specification's |
| Ykcmd.PowerOn | ykcmd/mod.rs:136-164 | the log grows by exactly the events of the power-on specification, and the result is the specification's |
| Ykcmd.Reboot | ykcmd/mod.rs:183-194 | the log grows by exactly the events of the reboot specification, and the result is the specification's |
| Ykcmd.IsPowered | ykcmd/mod.rs:196-221 | the log grows by exactly the events of the status specification, and the result is the specification's |
| Ykcmd.PowerOffBoard | ykcmd/mod.rs:98-104 | looks the board up, then powers it off; the log and result follow the specification |
| Ykcmd.PowerOnBoard | ykcmd/mod.rs:166-172 | looks the board up, then powers it on; the log and result follow the specification |
| Ykcmd.RebootBoard | ykcmd/mod.rs:174-181 | looks the board up, then reboots it; the log and result follow the specification |
| Ykcmd.Sweep | ykcmd/mod.rs:237-241 | powers every board off in mapping order; the log and result follow the sweep specification |
| Ykcmd.Goodnight | ykcmd/mod.rs:223-244 | loads the configuration and sweeps its `boards` mapping; the log and result follow the specification |
| Ykcmd.UnsupportedKindIssuesNothing | ykcmd/mod.rs:86-96 | with a kind other than usb or relay, power-off, power-on, reboot and status fail with "Unsupported yk board type" before any command is issued |
| Ykcmd.NotAttachedIssuesOnlyList | ykcmd/mod.rs:113-127 | when the listing does not contain the serial number, only `<tool> -l ` was issued, and the operation fails with "board with serial <serial> not found" |
| Ykcmd.ListStatusIgnored | ykcmd/mod.rs:113-124 | the exit status of the listing command never changes the result or the events of power-off, power-on, reboot or the status query |
| Ykcmd.PowerOffCommandLine | ykcmd/mod.rs:106-134 | with the hub attached, power-off issues the listing and then exactly `<tool> -s <serial> -d <port>`; it succeeds exactly when that command succeeds |
| Ykcmd.PowerOnCommandLine | ykcmd/mod.rs:136-164 | with the hub attached, power-on issues the listing and then exactly `<tool> -s <serial> -u <port>`; it succeeds exactly when that command succeeds |
| Ykcmd.IsPoweredCommandLine | ykcmd/mod.rs:196-221 | with the hub attached, the status query issues the listing and then exactly `<tool> -s <serial> -g <port>`; it fails exactly when that command fails, else reports whether "ON" occurs in its output |
| Ykcmd.RebootFailFast | ykcmd/mod.rs:187-188 | a failed power-off ends the reboot with the same result and events, and no sleep happens |
| Ykcmd.RebootOrder | ykcmd/mod.rs:183-194 | after a successful power-off, the reboot sleeps exactly 1000 ms once and then runs the power-on, whose result is the reboot's |
| Ykcmd.SwitchHasNoSleep | ykcmd/mod.rs:106-164 | switching a port issues commands only, never a sleep |
| Ykcmd.PowerOffTwice | ykcmd/mod.rs:106-134 | against a hub that keeps listing the serial and accepts every set command, two power-offs in a row both succeed |
| Ykcmd.RegistryToCommandLine | ykcmd/mod.rs:98-104 | the serial and port from a board's configuration entry reach the set command unchanged |
| Ykcmd.GoodnightRejectsBadConfig | ykcmd/mod.rs:225-236 | a configuration that is unreadable, malformed, has no `boards` key, or whose `boards` value is not a mapping gives the matching error, and no command is issued |
| Ykcmd.SweepIgnoresFailures | ykcmd/mod.rs:237-243 | when every key is a string, the sweep succeeds whatever each board's power-off returned |
| Ykcmd.SweepSplit | ykcmd/mod.rs:237-241 | the sweep can be split at any entry preceded only by string keys: the earlier boards run first, and the rest continue from their events |
| Ykcmd.SweepAttemptsEveryBoard | ykcmd/mod.rs:237-241 | each board's whole power-off run comes right after the runs of the boards before it, in mapping order |
| Ykcmd.SweepStopsAtNonStringKey | ykcmd/mod.rs:238 | a non-string key panics after the boards before it, and no later board is touched |
| Ui.NextIndex | ui/mod.rs:49-62 | with no selection the cursor goes to 0; with items it stays inside the list; it panics exactly when there is a selection and the list is empty |
| Ui.PreviousIndex | ui/mod.rs:64-77 | with no selection the cursor goes to 0; with items and an in-range selection it stays inside the list; it panics exactly when the selection is 0 and the list is empty |
| Ui.NextPreviousInverse | ui/mod.rs:49-77 | within a non-empty list, moving down then up, or up then down, returns to the same item |
| Ui.StatefulList.WithItems | ui/mod.rs:32-47 | a new list holds the given items and has no selection |
| Ui.StatefulList.Next | ui/mod.rs:49-62 | the items do not change; the selection moves as the down move says, or the call panics |
| Ui.StatefulList.Previous | ui/mod.rs:64-77 | the items do not change; the selection moves as the up move says, or the call panics |
| Ui.StatefulList.Deselect | ui/mod.rs:79-82 | clears the selection and keeps the items |
| Ui.UiState.constructor | ui/mod.rs:98-105 | the initial state lists the loaded boards, in order, with nothing selected, no pop-up and no actions |
| Ui.UiState.SelectedBoard | ui/mod.rs:107-110 | gives nothing without a selection, the selected board when it is in range, and a panic otherwise |
| Ui.UiState.SelectedAction | ui/mod.rs:112-116 | gives nothing without a selection, the function of the selected entry when it is in range, and a panic otherwise |
| Ui.Lab.IsPowered | ui/mod.rs:122 | the board's power query is recorded as a call, and its answer is the oracle's for the calls made before it |
| Ui.Lab.TurnOnBoard | ui/mod.rs:123 | turning a board on is recorded as a call, and its result is the oracle's for the calls made before it |
| Ui.Lab.TurnOffBoard | ui/mod.rs:126 | turning a board off is recorded as a call, and its result is the oracle's for the calls made before it |
| Ui.ToggleSwitchesOpposite | ui/mod.rs:119-127 | the board is queried first; it is turned on exactly when it was reported off, turned off exactly when it was reported on, and a failed query switches nothing and returns the query's error |
| Ui.TogglePower | ui/mod.rs:119-127 | the calls and the result are those of the toggle specification |
| Ui.Dispatch | ui/mod.rs:265-302 | `q` leaves the loop in both modes, and nothing else does. Enter runs the selected action exactly in pop-up mode. No key changes the board list, and only Enter shows the pop-up |
| Ui.InitialReachable | ui/mod.rs:212-223 | the starting screen satisfies the screen invariant |
| Ui.DispatchPreservesReachable | ui/mod.rs:265-302 | every key keeps the invariant: the board cursor stays in range, no actions exist without the pop-up, and the pop-up always holds the three-entry menu over an existing board. Once shown, the pop-up stays, over the same board |
| Ui.DispatchNeverCrashes | ui/mod.rs:265-302 | with at least one board, no key panics |
| Ui.PerformTogglesSelected | ui/mod.rs:190-207 | in the pop-up, every menu entry, and no entry, toggles the power of the selected board |
| Ui.SessionNeverPanics | ui/mod.rs:225-303 | with at least one board and when the power operations never panic, no key sequence makes the loop panic |
| Ui.QuitEndsSession | ui/mod.rs:270-291 | any key sequence ending in `q` ends the loop |
| Ui.EmptyListPanics | ui/mod.rs:49-62 | with no boards, Down then Down panics on the underflow, and Down then Enter panics on the index |
| Ui.EmptyListTouchesNoBoard | ui/mod.rs:155-161 | with no boards the pop-up never opens, so no key sequence makes any power call |
| Ui.ActionMenu | ui/mod.rs:155-188 | with no board selected, nothing changes. An out-of-range selection panics. Otherwise it installs the three-entry menu with nothing selected and shows the pop-up, leaving the board list alone |
| Ui.PerformAction | ui/mod.rs:190-207 | works on a copy of the state: the calls and result are those of the perform specification |
| Ui.HandleKey | ui/mod.rs:265-302 | the state, calls and loop status after one key are those the dispatch rules give |
| Ui.EventLoop | ui/mod.rs:225-303 | over a finite run of polls, the final state, calls and status are those the session specification gives |
| Ui.RunInteractively | ui/mod.rs:209-223 | in the model, it fails exactly when loading the boards fails. Otherwise the loop starts from an empty list, because the loader as written returns none, and no power operation is ever called |

## Left out

- I/O: the configuration file, the shell and the clock.
  - A `ConfigFile` value stands for the file. Every read sees the same
    contents.
  - The shell is the oracle. There is no `sh -c` spawning, and spawn
    failure is absent: it is an `expect` panic.
  - A sleep is an event in the log, not real time.
- YAML parsing: a parsed document is an abstract `Value` (a string, an
  ordered mapping, or something else). A mapping lookup uses the first
  entry with the key.
- The `dbg!` traces: they print only.
- Invalid UTF-8 in command output: the output is a string in the model,
  so that panic cannot arise.
- main.rs: the command-line front end is not part of this model.
- Ui.UiState: it has no `action_items` widget, `create_centered_rect`, or
  any drawing, and no terminal set-up or clean-up (including the
  "Failed to clean up terminal" panic).
- Ui.RunInteractively: the terminal errors returned with `?` are not
  modelled. They come from `Terminal::new`, `clear` and `enable_raw_mode`
  (ui/mod.rs:215-219), and from `poll`, `read` and `draw` inside the loop
  (ui/mod.rs:265, 268, 284, 305-319).
- Ui.EventLoop: each frame asks `is_powered` of every board, only to
  colour the list. That query is not modelled. Its answer is discarded,
  and it is not among the `Lab` calls.
- Ui.EventLoop: it runs over a finite sequence of polls. An idle poll and
  a non-key event count the same.
- Ui.NextIndex, Ui.PreviousIndex: `items.len() - 1` on an empty list
  (ui/mod.rs:53 and 69) is the panic of a build with overflow checks. A
  release build wraps instead, and that case is not modelled.
- Ui.Lab: the power operations the menu reaches are not part of the
  modelled files. They are an oracle over the history of calls.

## Findings

| source | as written | input that shows it | evidently intended | confidence | as-written member | corrected member |
|---|---|---|---|---|---|---|
| boards/mod.rs:84-107 | every board is parsed and checked, then dropped; `boards` is never pushed, so the empty vector is returned | a configuration with one complete board `icicle` (serial YK1, port 1, type usb) returns an empty list | push each parsed board and return them in mapping order | not executed | Boards.GetAllBoardsFromConfig, Boards.EmptyRegistryWitness | Boards.CollectAllBoards, Boards.CollectEntriesCorrect |

The interactive list is started from the loader as written
(`Ui.RunInteractively`), so it always begins empty. `Ui.EmptyListPanics`
shows what a user then meets. The UI lemmas are stated for any loaded
list, which covers one the corrected loader returns.
