# wetsuit main loop

A model of the coordination core of wetsuit's `main.go`: the `Application`
object, the `for app.Running` loop that runs on GTK's thread, the error
dialogs it shows one at a time, `Do`'s wrapper, `SetStatus`, `Quit` and the
`Callbacks` routing table.

The loop is modelled as a sequential state machine:

- `MainLoop.AppState` is a snapshot of the fields of `Application`: `Running`,
  `ShowingError`, the pending `Work` closures and `Errors` (the values whose
  senders are blocked on the unbuffered channels, oldest first), the error
  dialogs on screen, a log of what was done (closures run, done channels
  signalled, errors shown, `Disable` calls, dialogs destroyed, processes
  killed), the stored Mopidy status, the status-bar label and the process
  handle.
- The functions of `MainLoop` give the effect of each piece of `main.go` on
  that snapshot; `Run` is the loop over a finite sequence of ticks, each tick
  being the background activity before an iteration (sends on the channels,
  `SetStatus` calls, `StartMopidy` setting the process handle) and the GTK signals that iteration's
  `gtk.MainIteration` dispatches (a dialog's response, a quit request).
- `App.Application` is a class with those fields; its methods change them in
  place, step by step as the Go code does. Each is proved to have the effect
  of the matching `MainLoop` function on `State()`, except `NonFatal`,
  `Disable` and `Execute` (partial steps of an iteration, proved only about
  the fields they change) and `Callbacks` (which builds a table and changes
  no field).
- `MainLoop.Valid` is the invariant that the constructor establishes and
  every method requiring it keeps (every method except `NonFatal`, `Disable`
  and `Execute`, which do only part of an iteration and are called only
  inside `Iterate`): `ShowingError` holds
  exactly when one error dialog is open, so at most one is ever open; every
  send on a `done` channel comes right after the wrapped closure ran; the
  status bar shows the whole label, icon and text, of the stored status
  whenever that status has one.
- `Status` holds the status-to-label table of `SetStatus` and its inverse.

Modules: `Options` (the optional value), `Status`, `MainLoop`, `App`.

Three behaviours of the code that are easy to misread:

- A dialog dismissed while `gtk.MainIteration` runs clears `ShowingError`
  before the error check of the same iteration, so the next waiting error
  can be shown in that same iteration, not only in a later one
  (`MainLoop.DismissalRevealsNext`).
- No teardown runs after the loop ends: `Quit` kills the process before it
  clears `Running`, and that is the only kill in `main.go`.
- `SetStatus` changes the label only for Connecting, Connected and Failed;
  any other status is stored and leaves the label as it was.

## Model

| member | source | states |
|---|---|---|
| `App.Application.constructor` | main.go:35-38 | the application starts running, with no error showing, empty queues, no dialog and an empty log; status NotStarted and no process handle stand for the Mopidy handle not created yet; the invariant holds |
| `App.Application.SendWork` | main.go:136 | sending a closure on Work appends it behind all closures already waiting; nothing else changes |
| `App.Application.SendError` | main.go:76 | sending an error on Errors appends it behind all errors already waiting; nothing else changes |
| `App.Application.Do` | main.go:134-141 | Do queues its wrapper: the closure together with a done channel that is signalled after it runs |
| `MainLoop.DoCompletes` | main.go:136-140 | in any run, every send on a done channel is immediately preceded by the call of the closure its Do wrapped, so a released Do caller finds its closure already run |
| `App.Application.Execute` | main.go:136-139 | calling a taken closure logs the call and, for Do's wrapper, the send on its done channel after it |
| `App.Application.SetStatus` | main.go:144-157 | the status is always stored; the label comes from the status table; a status without a case leaves the label unchanged; afterwards the status bar shows the whole label of a status that has one |
| `Status.ApplyStatusAgrees` | main.go:148-156 | Connecting, Connected and Failed get their whole table label, icon and text, and read back as themselves; any other status leaves the label exactly as it was |
| `Status.LabelRoundTrip` | main.go:149-156 | exactly the three statuses of the switch have a label, and reading the label's text back gives the status |
| `Status.LabelsDistinct` | main.go:149-156 | two statuses never share a label |
| `Status.ConnectIcon` | main.go:150-155 | of the labelled statuses only Connected shows the connect icon |
| `App.Application.Quit` | main.go:160-165 | Quit kills the process exactly when the handle is present and always clears Running |
| `MainLoop.QuitValid` | main.go:160-165 | Quit clears Running, logs a kill exactly when there is a process handle, changes nothing else and keeps the invariant |
| `MainLoop.NoIterationAfterQuit` | main.go:83-106 | once Quit has run the loop performs no iteration and changes nothing |
| `MainLoop.RunStopsAtQuit` | main.go:83-106 | a running loop performs iterations up to and including the first one that dispatches a quit request and none after; Running ends false exactly when such an iteration occurred |
| `App.Application.Respond` | main.go:126-129 | the dialog's response callback destroys the open dialog and clears ShowingError; no dialog is left open |
| `MainLoop.RespondValid` | main.go:126-129 | dismissing leaves no dialog open and ShowingError false, logs the destruction of the dialog that was open, and keeps the invariant |
| `App.Application.NonFatal` | main.go:124-131 | NonFatal opens one more dialog carrying the error's message and logs that the error was shown |
| `App.Application.Disable` | main.go:101 | Disable is logged after the error is shown |
| `App.Application.MainIteration` | main.go:84 | gtk.MainIteration runs the handler of each dispatched signal in order |
| `MainLoop.DispatchFrame` | main.go:84 | for the two signals modelled (a dialog's response and a quit request), gtk.MainIteration leaves both queues, the status, the label and the process handle alone, shows no error and runs no work; it clears Running exactly when a quit request is dispatched; without a response it leaves ShowingError and the dialogs alone, after a response no dialog is open |
| `App.Application.Iterate` | main.go:84-105 | one iteration has the effect of MainLoop.Iteration: dispatch GTK signals, run at most one closure, then take at most one error if none is showing, and keeps the invariant |
| `MainLoop.IterationRunsOldestWork` | main.go:87-92 | an iteration runs at most one closure, the oldest waiting one, which leaves the queue; with none waiting it runs nothing |
| `MainLoop.TakeWorkFrame` | main.go:87-92 | with no work pending the receive changes nothing; otherwise it removes the oldest closure and adds exactly it to the executed work, touching nothing else |
| `MainLoop.ShowingErrorBlocks` | main.go:96-105 | while an error is showing and not dismissed, an iteration leaves the error queue untouched, opens no dialog and shows nothing |
| `MainLoop.IterationTakesError` | main.go:96-101 | an iteration takes an error exactly when one waits and none is showing after gtk.MainIteration; it takes the oldest, sets ShowingError, the only open dialog carries that error's message, and the log ends with the error shown and then Disable |
| `MainLoop.DismissalRevealsNext` | main.go:96-101 | a dialog dismissed during gtk.MainIteration lets the oldest waiting error be shown in the same iteration |
| `MainLoop.TakeErrorFrame` | main.go:96-101 | taking an error moves it from the queue to the shown errors and keeps the invariant |
| `MainLoop.IterationValid` | main.go:96-99 | an iteration keeps the invariant: ShowingError holds exactly when one dialog is open |
| `App.Application.RunLoop` | main.go:83-106 | the loop iterates while Running holds and ends in the state MainLoop.Run gives, after MainLoop.Iterations iterations |
| `MainLoop.RunValid` | main.go:83-106 | any run of iterations and dismissals keeps the invariant, so at most one error dialog is ever open |
| `MainLoop.ErrorsInArrivalOrder` | main.go:96-101 | the errors shown followed by those waiting are exactly the errors that had arrived followed by those sent during the iterations performed: each error is shown once, in the order sent |
| `MainLoop.WorkInArrivalOrder` | main.go:87-92 | the closures run followed by those waiting are exactly those that had arrived followed by those sent during the iterations performed: each runs once, in the order sent |
| `App.Application.Deliver` | main.go:73-80 | the goroutines' sends and SetStatus calls before an iteration take effect in order |
| `MainLoop.ReceiveAllFrame` | main.go:73-80 | background activity queues exactly the errors and closures it sent, in the order sent |
| `MainLoop.ReceiveAllKeeps` | main.go:73-80 | background activity leaves Running, ShowingError, the dialogs and the log alone |
| `App.Application.SetHandle` | main.go:79 | StartMopidy leaving a process handle (or nil) sets the handle Quit reads and changes nothing else |
| `MainLoop.ReceiveAllHandle` | main.go:79 | after background activity the process handle is the one the last handle change left, or the old one when there was none |
| `MainLoop.StepFrame` | main.go:83-106 | one tick keeps the invariant, forwards exactly the errors and closures sent before it, and clears Running exactly on a quit request |
| `App.Application.Callbacks` | main.go:169-180 | the table connects exactly eight (widget, signal) pairs; exactly ("main-window", "destroy") and ("menu-quit", "activate") go to the quit handler; each other pair goes to its own handler |

## Left out

- Startup (main.go:31-71): `runtime.LockOSThread`, `gtk.Init`, `exec.LookPath`, `user.Current`, `filepath.Join`, `config.Load`, `gui.Init` and `ShowAll` are OS, file-system and toolkit calls with no logic of their own here.
- `Fatal` (main.go:110-120): it ends the process with `os.Exit(1)` and may run a nested GTK loop; process termination is outside a state-machine model.
- GTK itself: creating, showing and destroying dialogs and rendering the status bar are recorded only as their effect on the dialogs on screen, the log and the label; `gtk.MainIteration` is modelled as the handlers of the signals it dispatches.
- Goroutines and channel blocking: a blocked sender is modelled as a queued value, and `Do`'s wait on `<-done` as the Signalled event; the `StatusLock` mutex is left out, with `SetStatus` treated as one atomic step.
- `App.Application.RunLoop`: runs the loop over a finite sequence of ticks and stops when they run out, because the Go loop only ends on Quit and a verified loop must terminate.
- Work closures are opaque: running one is logged, but its own effects (it may call SetStatus or Quit) are not modelled.
- `InitMopidy`, `StartMopidy` and the `MopidyProc` type are not part of this model. Only their effects on the handle and the status are modelled, as the background actions `HandleSet` and `StatusSet`. The status enumeration is declared there, so its members other than Connecting, Connected and Failed are represented by NotStarted.
- `Quit` and `SetStatus` assume `app.Mopidy` and its `Cmd` are non-nil. In main.go, `new(Application)` leaves `app.Mopidy` nil until the goroutine's `InitMopidy` (main.go:74) sets it. So a quit request dispatched, or a `SetStatus` run, before that point dereferences nil and panics (main.go:148, 161). The model has no such panic: `MainLoop.Initial`'s NotStarted status and None process stand for the `MopidyProc` that does not exist yet, and a quit in the first tick stops the loop cleanly.
- Of the eight routes `Callbacks` connects, `gtk.MainIteration` dispatches only the two quit routes in the model, plus the error dialogs' responses. The signals of the other six routes (output window, start, stop and restart server, sources, output-window delete) are not dispatched, because their handlers are not part of this model. `MainLoop.DispatchFrame` does not promise anything about those signals, and in main.go the start, stop and restart handlers can change the status and the process handle during `gtk.MainIteration`.
- The bodies of the callback handlers and of `Disable` are not part of this model; the quit handler is taken to call `Quit`, and `Disable` is recorded as an event.
- The label shown before the first SetStatus call comes from the GUI builder, which is not part of this model; the model starts with an empty label.
