/**
 * The Application object of main.go (lines 16-28) with the methods that
 * change its fields in place. Every method except NonFatal, Disable and
 * Execute (partial steps of an iteration, proved only about the fields they
 * change) and Callbacks (a table, no field changed) is proved to have the
 * effect of the matching function of MainLoop on State(), so the lemmas
 * proved there hold of the object.
 */
module App {
  import opened Options
  import opened Status
  import opened MainLoop

  /** The handlers Callbacks hands to the GUI builder. */
  datatype Handler =
    | QuitCallback
    | OutputWindowCallback
    | StartMopidyCallback
    | StopMopidyCallback
    | RestartMopidyCallback
    | SourcesCallback
    | OutputWindowDeleteCallback

  /** Widget name, then signal name, to handler. */
  type CallbackTable = map<string, map<string, Handler>>

  /** The handler a table connects to a widget's signal, if any. */
  function Route(cb: CallbackTable, widget: string, signal: string): Option<Handler>
  {
    if widget in cb && signal in cb[widget] then Some(cb[widget][signal]) else None
  }

  /** The (widget, signal) pairs that quit the application. */
  const QuitRoutes: set<(string, string)> := {("main-window", "destroy"), ("menu-quit", "activate")}

  /** Every (widget, signal) pair Callbacks connects. */
  const AllRoutes: set<(string, string)> := QuitRoutes + {
    ("menu-server-output", "activate"),
    ("menu-server-start", "activate"),
    ("menu-server-stop", "activate"),
    ("menu-server-restart", "activate"),
    ("menu-sources", "activate"),
    ("output-window", "delete-event")}

  class Application {
    var running: bool
    var showingError: bool
    var work: seq<Work>        // closures whose senders wait on the Work channel
    var errors: seq<Error>     // errors whose senders wait on the Errors channel
    var dialogs: seq<Dialog>   // error dialogs on screen
    var log: seq<Event>
    var status: MopidyStatus   // app.Mopidy.Status
    var statusLabel: Label     // what the GUI's status bar shows
    var process: Option<nat>   // app.Mopidy.Cmd.Process

    /** The fields as a value. */
    function State(): AppState
      reads this
    {
      AppState(running, showingError, work, errors, dialogs, log, status, statusLabel, process)
    }

    ghost predicate Valid()
      reads this
    {
      MainLoop.Valid(State())
    }

    /** new(Application) with its channels made and Running set (main.go:35-38). */
    constructor ()
      ensures State() == Initial && Valid()
    {
      running := true;
      showingError := false;
      work := [];
      errors := [];
      dialogs := [];
      log := [];
      status := NotStarted;
      statusLabel := Blank;
      process := None;
      new;
      InitialValid();
    }

    /** A goroutine's `app.Work <- f`: the closure waits its turn behind those sent before it. */
    method SendWork(w: Work)
      requires Valid()
      modifies this
      ensures Valid()
      ensures State() == Receive(old(State()), WorkSent(w))
    {
      work := work + [w];
    }

    /** A goroutine's `app.Errors <- err` (main.go:76). */
    method SendError(e: Error)
      requires Valid()
      modifies this
      ensures Valid()
      ensures State() == Receive(old(State()), ErrorSent(e))
    {
      errors := errors + [e];
    }

    /**
     * Do's send (main.go:134-139): the closure `job` wrapped so that it sends
     * on the done channel `token` after it returns. The caller's wait on that
     * channel is the Signalled event the wrapper logs. Each call of Do makes
     * a new done channel, so callers pass a token no earlier call used.
     */
    method Do(job: nat, token: nat)
      requires Valid()
      modifies this
      ensures Valid()
      ensures State() == Receive(old(State()), WorkSent(Work(job, Some(token))))
    {
      SendWork(Work(job, Some(token)));
    }

    /** StartMopidy (main.go:79) leaving a process handle, or nil, in app.Mopidy.Cmd.Process. */
    method SetHandle(h: Option<nat>)
      requires Valid()
      modifies this
      ensures Valid()
      ensures State() == Receive(old(State()), HandleSet(h))
    {
      process := h;
    }

    /** SetStatus (main.go:144-157): store the status, then update the label from the table. */
    method SetStatus(st: MopidyStatus)
      requires Valid()
      modifies this
      ensures Valid()
      ensures State() == MainLoop.SetStatus(old(State()), st)
      ensures status == st && Agrees(status, statusLabel)
      ensures st == NotStarted ==> statusLabel == old(statusLabel)
    {
      status := st;
      statusLabel := ApplyStatus(statusLabel, st);
      ApplyStatusAgrees(old(statusLabel), st);
    }

    /** Quit (main.go:160-165): kill the process if there is a handle, then stop the loop. */
    method Quit()
      requires Valid()
      modifies this
      ensures Valid()
      ensures State() == MainLoop.Quit(old(State()))
      ensures !running
      ensures log == old(log) + (if old(process).Some? then [Killed(old(process).value)] else [])
    {
      if process.Some? {
        log := log + [Killed(process.value)];
      }
      running := false;
      QuitValid(old(State()));
    }

    /** The response callback of a NonFatal dialog (main.go:126-129): destroy it, clear ShowingError. */
    method Respond()
      requires Valid()
      modifies this
      ensures Valid()
      ensures State() == MainLoop.Respond(old(State()))
      ensures !showingError && dialogs == []
    {
      if dialogs != [] {
        var d := dialogs[0];
        dialogs := dialogs[1..];
        log := log + [Destroyed(d)];
        showingError := false;
      }
      RespondValid(old(State()));
    }

    /** NonFatal (main.go:124-131): create a dialog with the error's message and show it. */
    method NonFatal(e: Error)
      modifies this`dialogs, this`log
      ensures dialogs == old(dialogs) + [Dialog(e.message)]
      ensures log == old(log) + [Displayed(e)]
    {
      dialogs := dialogs + [Dialog(e.message)];
      log := log + [Displayed(e)];
    }

    /** app.Disable(), which the loop calls after showing an error. */
    method Disable()
      modifies this`log
      ensures log == old(log) + [Disabled]
    {
      log := log + [Disabled];
    }

    /** Call a closure taken from the Work channel; Do's wrapper then sends on its done channel. */
    method Execute(w: Work)
      modifies this`log
      ensures log == old(log) + WorkEvents(w)
    {
      log := log + [Ran(w)];
      if w.done.Some? {
        log := log + [Signalled(w.done.value)];
      }
    }

    /** gtk.MainIteration: run the handler of each signal it dispatches. */
    method MainIteration(native: seq<Native>)
      requires Valid()
      modifies this
      ensures Valid()
      ensures State() == Dispatch(old(State()), native)
    {
      for i := 0 to |native|
        invariant Valid()
        invariant Dispatch(State(), native[i..]) == Dispatch(old(State()), native)
      {
        assert native[i..][1..] == native[i + 1..];
        match native[i]
        case Response => Respond();
        case QuitSignal => Quit();
      }
    }

    /** One pass of the body of `for app.Running` (main.go:84-105). */
    method Iterate(native: seq<Native>)
      requires Valid()
      modifies this
      ensures Valid()
      ensures State() == Iteration(old(State()), native)
    {
      MainIteration(native);
      ghost var dispatched := State();

      // run the oldest waiting closure, if any
      if work != [] {
        var f := work[0];
        work := work[1..];
        Execute(f);
      }
      assert State() == TakeWork(dispatched);
      ghost var worked := State();

      // take the oldest waiting error unless a dialog is up
      if !showingError {
        if errors != [] {
          var e := errors[0];
          errors := errors[1..];
          showingError := true;
          NonFatal(e);
          Disable();
          assert log == worked.log + [Displayed(e), Disabled];
        }
      }
      assert State() == TakeError(worked);
      IterationValid(old(State()), native);
    }

    /** What the background goroutines do before an iteration, in order. */
    method Deliver(bs: seq<Background>)
      requires Valid()
      modifies this
      ensures Valid()
      ensures State() == ReceiveAll(old(State()), bs)
    {
      for i := 0 to |bs|
        invariant Valid()
        invariant ReceiveAll(State(), bs[i..]) == ReceiveAll(old(State()), bs)
      {
        assert bs[i..][1..] == bs[i + 1..];
        match bs[i]
        case WorkSent(w) => SendWork(w);
        case ErrorSent(e) => SendError(e);
        case StatusSet(st) => SetStatus(st);
        case HandleSet(h) => SetHandle(h);
      }
    }

    /**
     * The loop of main (main.go:83-106) over a finite run of ticks: it goes on
     * while Running holds and returns how many iterations it performed.
     */
    method RunLoop(ticks: seq<Tick>) returns (iterations: nat)
      requires Valid()
      modifies this
      ensures Valid()
      ensures State() == Run(old(State()), ticks)
      ensures iterations == Iterations(old(State()), ticks)
    {
      iterations := 0;
      while running && iterations < |ticks|
        invariant iterations <= |ticks|
        invariant Valid()
        invariant Run(State(), ticks[iterations..]) == Run(old(State()), ticks)
        invariant iterations + Iterations(State(), ticks[iterations..]) == Iterations(old(State()), ticks)
        decreases |ticks| - iterations
      {
        assert ticks[iterations..][1..] == ticks[iterations + 1..];
        Deliver(ticks[iterations].background);
        Iterate(ticks[iterations].native);
        iterations := iterations + 1;
      }
    }

    /**
     * Callbacks (main.go:169-180): the table from widget and signal to
     * handler that the GUI builder connects.
     */
    method Callbacks() returns (cb: CallbackTable)
      ensures forall w: string, sig: string :: Route(cb, w, sig).Some? <==> (w, sig) in AllRoutes
      ensures forall w: string, sig: string :: Route(cb, w, sig) == Some(QuitCallback) <==> (w, sig) in QuitRoutes
      ensures Route(cb, "menu-server-output", "activate") == Some(OutputWindowCallback)
      ensures Route(cb, "menu-server-start", "activate") == Some(StartMopidyCallback)
      ensures Route(cb, "menu-server-stop", "activate") == Some(StopMopidyCallback)
      ensures Route(cb, "menu-server-restart", "activate") == Some(RestartMopidyCallback)
      ensures Route(cb, "menu-sources", "activate") == Some(SourcesCallback)
      ensures Route(cb, "output-window", "delete-event") == Some(OutputWindowDeleteCallback)
    {
      cb := map[];
      cb := cb["main-window" := map["destroy" := QuitCallback]];
      cb := cb["menu-quit" := map["activate" := QuitCallback]];
      cb := cb["menu-server-output" := map["activate" := OutputWindowCallback]];
      cb := cb["menu-server-start" := map["activate" := StartMopidyCallback]];
      cb := cb["menu-server-stop" := map["activate" := StopMopidyCallback]];
      cb := cb["menu-server-restart" := map["activate" := RestartMopidyCallback]];
      cb := cb["menu-sources" := map["activate" := SourcesCallback]];
      cb := cb["output-window" := map["delete-event" := OutputWindowDeleteCallback]];
    }
  }
}
