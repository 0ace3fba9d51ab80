# QRsync run control, modelled in Dafny

QRsync is a small Qt front-end for `rsync`. Its main window has a source
and a destination path field, seven option checkboxes, a Run Sync and a
Stop button, and an output pane. All of its logic lives in the slots of
`MainWindow`. This project models that logic with the widgets replaced by
plain values.

- `arguments.dfy`, module `SyncArguments`: how Run Sync turns the checkbox
  state and the two paths into the argument vector for `rsync`.
  - `Options` is the record of the seven checkboxes.
  - `ArgumentVector` is the reference definition: checkbox by checkbox, a
    table (`Checked`, `SwitchName`) says whether each switch is present.
  - `BuildArguments` is the slot's own sequence of conditional appends. It
    is proved equal to the reference definition.
  - The lemmas prove what the list promises: it ends with the two paths;
    each switch appears once exactly when its box is checked; the switches
    keep the fixed order; the length is the number of checked boxes plus
    two; and the vector can be parsed back into the options and paths it
    came from.
- `window.dfy`, module `SyncWindow`: the window's run control.
  - Class `MainWindow` holds the path texts, the checkboxes, the two
    buttons' enabled flags and the process state (not running, starting,
    running). `Valid()` is the invariant every event keeps: Run is
    enabled exactly when Stop is not, and Stop is enabled while a process
    is starting or running. `Responsive()` adds the converse: Stop is
    enabled only while there is a process. A failed launch breaks it
    (see "## Findings").
  - The methods are the slots: browse source, browse destination, run,
    stop and process finished. Two more methods are the process events
    that no slot handles: launched, and failed to launch.
  - `VerdictOf` gives the verdict on a finished run.
  - `BrowsedSource` and `BrowsedDestination` give the text a path field
    holds after a directory dialog.

The switch order is the one `MainWindow.cpp` uses: `--delete` comes right
after `--progress` (line 148). MainWindow.hpp also declares a manual mode,
archive sub-flags, a free-text options field, Contents/Mirror path modes
and syncset load/save members; none of them is implemented in
`MainWindow.cpp`, so none is modelled.

## Model

| member | source | states |
|---|---|---|
| `SyncArguments.BuildArguments` | MainWindow.cpp:144-153 | the slot's appends yield exactly the reference argument vector: one switch per checked box in checkbox order, then source, then destination |
| `SyncArguments.ArgumentsEndWithPaths` | MainWindow.cpp:153 | the list has at least two entries, its last two are the source and the destination in that order, and everything before them is the switch list |
| `SyncArguments.SwitchOccursIffChecked` | MainWindow.cpp:145-151 | each of `-a -v --progress --delete --size-only --ignore-existing --update` occurs exactly once among the switches when its box is checked and not at all otherwise (both directions) |
| `SyncArguments.SwitchNamesDistinct` | MainWindow.cpp:145-151 | two checkboxes contribute the same switch only if they are the same checkbox |
| `SyncArguments.SwitchesInFixedOrder` | MainWindow.cpp:145-151 | every entry before the two paths is one of the seven switches, and their positions in the order `-a`, `-v`, `--progress`, `--delete`, `--size-only`, `--ignore-existing`, `--update` strictly increase along the list |
| `SyncArguments.ArgumentCount` | MainWindow.cpp:145-153 | the list length is the number of checked boxes plus two |
| `SyncArguments.OptionsOfSwitches` | MainWindow.cpp:145-151 | reading which switches are present recovers the full checkbox state, so no box is lost or invented |
| `SyncArguments.ParseArgumentVector` | MainWindow.cpp:144-153 | splitting the vector into switches and its last two entries gives back the options, the source and the destination it was built from |
| `SyncArguments.ArgumentVectorInjective` | MainWindow.cpp:144-153 | two runs pass the same vector to rsync only if their checkboxes and both paths agree |
| `SyncArguments.InitialArguments` | MainWindow.cpp:54-62 | with the checkboxes as a new window shows them (only Verbose and Progress checked) the vector is `["-v", "--progress", source, destination]` |
| `SyncWindow.VerdictOf` | MainWindow.cpp:205 | the verdict is Success exactly when the process exited normally with code 0, and Failed for a crash or any non-zero code |
| `SyncWindow.BrowsedSource` | MainWindow.cpp:117-122 | a cancelled dialog (empty result) keeps the field; otherwise the field becomes the chosen directory followed by one `/`, so dropping the last character gives the directory back |
| `SyncWindow.BrowsedPathsAccepted` | MainWindow.cpp:117-128 | after choosing a directory for both fields neither field is empty, so Run Sync does not refuse; the destination is the directory exactly as chosen |
| `SyncWindow.BrowsedDestination` | MainWindow.cpp:124-129 | a cancelled dialog (empty result) keeps the field; otherwise the field becomes the chosen directory exactly, with no `/` added |
| `SyncWindow.Rejects` | MainWindow.cpp:135-138 | a run is refused exactly when the source or the destination text is empty |
| `SyncWindow.MainWindow.constructor` | MainWindow.cpp:4-15 | a new window has empty paths, Verbose and Progress checked, Run enabled, Stop disabled and no process; `Valid()` and `Responsive()` hold |
| `SyncWindow.MainWindow.OnBrowseSource` | MainWindow.cpp:117-122 | the source field becomes `BrowsedSource` of its old text and the dialog's result; nothing else changes |
| `SyncWindow.MainWindow.OnBrowseDestination` | MainWindow.cpp:124-129 | the destination field becomes `BrowsedDestination` of its old text and the dialog's result; nothing else changes |
| `SyncWindow.MainWindow.OnRunSync` | MainWindow.cpp:131-160 | with an empty source or destination the whole window state is unchanged; otherwise Run is disabled, Stop enabled, the process is starting, and the argument vector of the current boxes and paths is appended to the launches; both invariants hold afterwards |
| `SyncWindow.MainWindow.OnProcessStarted` | MainWindow.cpp:159 | a starting process becomes running; nothing else changes |
| `SyncWindow.MainWindow.OnFailedToStart` | MainWindow.cpp:9-11 | a launch failure only stops the process: with no slot connected to it, Run stays disabled and Stop enabled, so `Responsive()` is false afterwards |
| `SyncWindow.MainWindow.OnStopSync` | MainWindow.cpp:162-167 | a kill is sent exactly when the process is running (not while it is starting, not when there is none); otherwise nothing changes; `Valid()` is kept |
| `SyncWindow.MainWindow.OnRsyncFinished` | MainWindow.cpp:204-210 | the reported verdict is `VerdictOf` the exit status and code; Run is enabled again, Stop disabled, the process no longer runs; both invariants hold afterwards |
| `SyncWindow.FailedLaunchLeavesRunDisabled` | MainWindow.cpp:140-141 | a session whose launch fails ends with Run disabled, Stop enabled and no process, so `Responsive()` fails: Stop does nothing, Run cannot be clicked and no finished event can come |
| `SyncWindow.MainWindow.OnFailedToStartHandled` | MainWindow.cpp:204-210 | a launch-error handler that resets the buttons as the finished slot does keeps `Valid()` and `Responsive()`: Run enabled, Stop disabled, no process |
| `SyncWindow.HandledFailedLaunchReenablesRun` | MainWindow.cpp:208-209 | with that handler, the same failed-launch session ends with Run enabled again |

## Left out

- Widget construction, layouts, the menu bar and the About box (MainWindow.cpp:19-112, 186-191): these only build the GUI. `HelpViewer` and `main` only build a dialog and start the event loop.
- The output pane: the clear at line 142, the echoed command line and banners (155-157, 165, 206) and the relayed stdout/stderr of rsync (194-202). These are display text and asynchronous I/O. The model keeps `launched`, the argument vectors handed to rsync, in place of the text.
- Process control is abstract. `QProcess::start` is the step to the starting state that records the vector. The launch then either succeeds (`OnProcessStarted`) or fails (`OnFailedToStart`). `QProcess::kill` is recorded as `killSent`, and the process stops running only at the finished event.
- `SyncWindow.MainWindow.OnRsyncFinished`: requires a running process, because the process object reports finished only for a process that was launched; after a failed launch it reports an error instead.
- `SyncWindow.MainWindow.OnProcessStarted` and `SyncWindow.MainWindow.OnFailedToStart` require a starting process, because the process object reports either event only after `start` and only once.
- The directory dialog itself (lines 118, 125): the browse methods take the string it returned, with `""` for a cancelled dialog.
- The syncset slots (lines 169-184) only show a "Not Implemented" box, and the syncset store they would use is only declared in MainWindow.hpp. Manual mode, the archive sub-flags, extra options and path modes are declared there but never created or wired. No behaviour for them is modelled.
- `SyncWindow.MainWindow.OnRunSync`: requires `runEnabled`, because the slot is connected only to the Run button's click (line 85) and a disabled button delivers no click. Without this precondition a second start on a running process would be possible in the model but not in the program.
- The exit code is an unbounded `int` rather than a C `int`; the verdict only compares it with 0, so the width does not matter.
- The warning box shown for a refused run (line 136) is display only; the refusal itself is modelled as leaving the window unchanged.
- Typing into the path fields and toggling the checkboxes are not modelled as operations. The user may change them at any time, and the model expresses this by assigning the `sourceText`, `destinationText` and `options` fields directly.
- Paths are compared with `""` only, as `QString::isEmpty` does: a path of blanks is accepted.

## Findings

| source | as written | input that shows it | evidently intended | confidence | as-written member | corrected member |
|---|---|---|---|---|---|---|
| MainWindow.cpp:9-11 | Run is disabled and Stop enabled before `start` (lines 140-141). Only the output and finished signals are connected, so a launch error has no handler. | Run Sync with both paths set when `rsync` is not on the path: the launch fails, no finished signal follows, Stop finds no running process, and Run stays disabled until the window is closed | a launch error re-enables Run and disables Stop, as the finished slot does | not executed; relies on Qt reporting a failed launch through its error signal and never through finished | `SyncWindow.FailedLaunchLeavesRunDisabled` | `SyncWindow.MainWindow.OnFailedToStartHandled` |
