/**
 * The main loop of the application as a sequential state machine
 * (main.go:16-28, 83-106, 126-129, 136-139, 144-165).
 *
 * An AppState is a snapshot of the fields of an Application. Each function
 * below is the effect of one piece of main.go on that snapshot; the class in
 * application.dfy performs the same steps on its fields and is proved equal
 * to these functions. The lemmas state what the loop guarantees: one work
 * item and at most one error per iteration, no second error dialog while one
 * is showing, first-in first-out delivery of work and errors, and no
 * iteration after Quit.
 */
module MainLoop {
  import opened Options
  import opened Status

  /**
   * A function sent on the Work channel. `job` names the closure; `done` is
   * the completion channel of the wrapper Do builds around it, and is None
   * for a closure sent on the channel directly.
   */
  datatype Work = Work(job: nat, done: Option<nat>)

  /** An error sent on the Errors channel; NonFatal shows its message. */
  datatype Error = Error(message: string)

  /** A message dialog created by NonFatal. */
  datatype Dialog = Dialog(message: string)

  /** What the application has done, in order. */
  datatype Event =
    | Ran(work: Work)           // the main thread called a work closure
    | Signalled(token: nat)     // Do's wrapper sent true on its done channel
    | Displayed(error: Error)   // NonFatal showed a dialog for the error
    | Disabled                  // the main loop called app.Disable()
    | Destroyed(dialog: Dialog) // a dialog's response callback destroyed it
    | Killed(pid: nat)          // Quit killed the Mopidy process

  /**
   * A GTK signal dispatched during gtk.MainIteration: the response of an open
   * error dialog, or a quit request (main-window "destroy" or menu-quit
   * "activate", both routed to the quit handler, which calls Quit).
   */
  datatype Native = Response | QuitSignal

  /** What background goroutines do while the main thread is between iterations. */
  datatype Background =
    | WorkSent(work: Work)            // app.Work <- f, including Do's wrapper
    | ErrorSent(error: Error)         // app.Errors <- err
    | StatusSet(status: MopidyStatus) // app.SetStatus(status)
    | HandleSet(handle: Option<nat>)  // StartMopidy starting a process, or its handle going back to nil

  /** The activity that precedes one iteration of the main loop and the signals that iteration dispatches. */
  datatype Tick = Tick(background: seq<Background>, native: seq<Native>)

  /**
   * The fields of Application. The unbuffered channels become the queues of
   * values whose senders are blocked on them; `dialogs` are the error dialogs
   * currently on screen; `process` is the Mopidy process handle (None for nil).
   */
  datatype AppState = AppState(
    running: bool,
    showingError: bool,
    work: seq<Work>,
    errors: seq<Error>,
    dialogs: seq<Dialog>,
    log: seq<Event>,
    status: MopidyStatus,
    statusLabel: Label,
    process: Option<nat>)

  /**
   * The state main() sets up before its loop (main.go:35-38). In main.go the
   * Mopidy handle itself is still nil here; NotStarted and a None process
   * stand for the MopidyProc that InitMopidy has not yet created.
   */
  const Initial: AppState := AppState(true, false, [], [], [], [], NotStarted, Blank, None)

  // ---------------------------------------------------------------------------
  // Transitions
  // ---------------------------------------------------------------------------

  /** The response callback NonFatal connects to its dialog: destroy it and clear ShowingError. */
  function Respond(s: AppState): AppState
  {
    if s.dialogs == [] then s
    else s.(dialogs := s.dialogs[1..], log := s.log + [Destroyed(s.dialogs[0])], showingError := false)
  }

  /** The Killed event Quit logs: one exactly when there is a process handle. */
  function KillEvents(process: Option<nat>): seq<Event>
  {
    if process.Some? then [Killed(process.value)] else []
  }

  /** Quit: kill the process when its handle is not nil, then stop the loop. */
  function Quit(s: AppState): AppState
  {
    s.(log := s.log + KillEvents(s.process), running := false)
  }

  /** SetStatus: store the status and update the label from the status table. */
  function SetStatus(s: AppState, st: MopidyStatus): AppState
  {
    s.(status := st, statusLabel := ApplyStatus(s.statusLabel, st))
  }

  /** The handler GTK runs for one dispatched signal. */
  function Handle(s: AppState, n: Native): AppState
  {
    match n
    case Response => Respond(s)
    case QuitSignal => Quit(s)
  }

  /** gtk.MainIteration: run the handlers of the signals it dispatches, in order. */
  function Dispatch(s: AppState, native: seq<Native>): AppState
    decreases |native|
  {
    if native == [] then s else Dispatch(Handle(s, native[0]), native[1..])
  }

  /** What calling a work closure logs: the call, and for Do's wrapper the send on `done` after it. */
  function WorkEvents(w: Work): seq<Event>
  {
    [Ran(w)] + (if w.done.Some? then [Signalled(w.done.value)] else [])
  }

  /** The non-blocking receive on Work: run the oldest pending closure, if any. */
  function TakeWork(s: AppState): AppState
  {
    if s.work == [] then s
    else s.(work := s.work[1..], log := s.log + WorkEvents(s.work[0]))
  }

  /**
   * The guarded non-blocking receive on Errors: unless an error is showing,
   * take the oldest pending error, set ShowingError, show it and call Disable.
   */
  function TakeError(s: AppState): AppState
  {
    if s.showingError || s.errors == [] then s
    else
      var e := s.errors[0];
      s.(errors := s.errors[1..], showingError := true,
         dialogs := s.dialogs + [Dialog(e.message)],
         log := s.log + [Displayed(e), Disabled])
  }

  /** One pass of the body of `for app.Running` (main.go:84-105). */
  function Iteration(s: AppState, native: seq<Native>): AppState
  {
    TakeError(TakeWork(Dispatch(s, native)))
  }

  /** The effect of one background action. */
  function Receive(s: AppState, b: Background): AppState
  {
    match b
    case WorkSent(w) => s.(work := s.work + [w])
    case ErrorSent(e) => s.(errors := s.errors + [e])
    case StatusSet(st) => SetStatus(s, st)
    case HandleSet(h) => s.(process := h)
  }

  function ReceiveAll(s: AppState, bs: seq<Background>): AppState
    decreases |bs|
  {
    if bs == [] then s else ReceiveAll(Receive(s, bs[0]), bs[1..])
  }

  /** One tick: the background activity, then one iteration. */
  function Step(s: AppState, t: Tick): AppState
  {
    Iteration(ReceiveAll(s, t.background), t.native)
  }

  /** The `for app.Running` loop over a finite run of ticks: it stops as soon as Running is false. */
  function Run(s: AppState, ticks: seq<Tick>): AppState
    decreases |ticks|
  {
    if !s.running || ticks == [] then s else Run(Step(s, ticks[0]), ticks[1..])
  }

  /** How many iterations Run performs. */
  function Iterations(s: AppState, ticks: seq<Tick>): (n: nat)
    ensures n <= |ticks|
    ensures n == 0 <==> !s.running || ticks == []
    decreases |ticks|
  {
    if !s.running || ticks == [] then 0 else 1 + Iterations(Step(s, ticks[0]), ticks[1..])
  }

  /** The index of the first tick that dispatches a quit request, or |ticks| when none does. */
  function FirstQuit(ticks: seq<Tick>): (k: nat)
    ensures k <= |ticks|
    decreases |ticks|
  {
    if ticks == [] then 0
    else if QuitSignal in ticks[0].native then 0
    else 1 + FirstQuit(ticks[1..])
  }

  // ---------------------------------------------------------------------------
  // Views of the log and the queues
  // ---------------------------------------------------------------------------

  /** The errors shown in dialogs, oldest first. */
  function Shown(log: seq<Event>): seq<Error>
    decreases |log|
  {
    if log == [] then []
    else (if log[0].Displayed? then [log[0].error] else []) + Shown(log[1..])
  }

  /** The work closures called, oldest first. */
  function Executed(log: seq<Event>): seq<Work>
    decreases |log|
  {
    if log == [] then []
    else (if log[0].Ran? then [log[0].work] else []) + Executed(log[1..])
  }

  /** Every error the loop has accepted: those already shown, then those waiting. */
  function Arrived(s: AppState): seq<Error>
  {
    Shown(s.log) + s.errors
  }

  /** Every work item the loop has accepted: those already run, then those waiting. */
  function Accepted(s: AppState): seq<Work>
  {
    Executed(s.log) + s.work
  }

  function PostedErrors(bs: seq<Background>): seq<Error>
    decreases |bs|
  {
    if bs == [] then []
    else (if bs[0].ErrorSent? then [bs[0].error] else []) + PostedErrors(bs[1..])
  }

  function PostedWork(bs: seq<Background>): seq<Work>
    decreases |bs|
  {
    if bs == [] then []
    else (if bs[0].WorkSent? then [bs[0].work] else []) + PostedWork(bs[1..])
  }

  function TickErrors(ticks: seq<Tick>): seq<Error>
    decreases |ticks|
  {
    if ticks == [] then [] else PostedErrors(ticks[0].background) + TickErrors(ticks[1..])
  }

  function TickWork(ticks: seq<Tick>): seq<Work>
    decreases |ticks|
  {
    if ticks == [] then [] else PostedWork(ticks[0].background) + TickWork(ticks[1..])
  }

  // ---------------------------------------------------------------------------
  // The invariant
  // ---------------------------------------------------------------------------

  /** Every send on a done channel comes right after the call of the closure Do wrapped. */
  ghost predicate SignalsFollowRuns(log: seq<Event>)
  {
    forall i :: 0 <= i < |log| && log[i].Signalled? ==>
      0 < i && log[i - 1].Ran? && log[i - 1].work.done == Some(log[i].token)
  }

  /**
   * ShowingError is set exactly when one error dialog is open, so at most one
   * is ever open; a Do caller released by its done channel finds its closure
   * already run; the status bar agrees with the stored status.
   */
  ghost predicate Valid(s: AppState)
  {
    && |s.dialogs| <= 1
    && (s.showingError <==> |s.dialogs| == 1)
    && SignalsFollowRuns(s.log)
    && Agrees(s.status, s.statusLabel)
  }

  // ---------------------------------------------------------------------------
  // Lemmas about the log views
  // ---------------------------------------------------------------------------

  lemma {:induction false} ShownAppend(a: seq<Event>, b: seq<Event>)
    ensures Shown(a + b) == Shown(a) + Shown(b)
    decreases |a|
  {
    if a == [] {
      assert a + b == b;
    } else {
      var head := if a[0].Displayed? then [a[0].error] else [];
      assert (a + b)[0] == a[0];
      assert (a + b)[1..] == a[1..] + b;
      ShownAppend(a[1..], b);
      calc {
        Shown(a + b);
        head + Shown(a[1..] + b);
        head + (Shown(a[1..]) + Shown(b));
        (head + Shown(a[1..])) + Shown(b);
        Shown(a) + Shown(b);
      }
    }
  }

  lemma {:induction false} ExecutedAppend(a: seq<Event>, b: seq<Event>)
    ensures Executed(a + b) == Executed(a) + Executed(b)
    decreases |a|
  {
    if a == [] {
      assert a + b == b;
    } else {
      var head := if a[0].Ran? then [a[0].work] else [];
      assert (a + b)[0] == a[0];
      assert (a + b)[1..] == a[1..] + b;
      ExecutedAppend(a[1..], b);
      calc {
        Executed(a + b);
        head + Executed(a[1..] + b);
        head + (Executed(a[1..]) + Executed(b));
        (head + Executed(a[1..])) + Executed(b);
        Executed(a) + Executed(b);
      }
    }
  }

  /** Appending events that are not sends on a done channel keeps SignalsFollowRuns. */
  lemma AppendQuiet(log: seq<Event>, x: seq<Event>)
    requires SignalsFollowRuns(log)
    requires forall k :: 0 <= k < |x| ==> !x[k].Signalled?
    ensures SignalsFollowRuns(log + x)
  {
    var l := log + x;
    forall i | |log| <= i < |l|
      ensures !l[i].Signalled?
    {
      assert l[i] == x[i - |log|];
    }
    forall i | 0 <= i < |log|
      ensures l[i] == log[i]
    {
    }
  }

  /** Running a work closure keeps SignalsFollowRuns. */
  lemma AppendWork(log: seq<Event>, w: Work)
    requires SignalsFollowRuns(log)
    ensures SignalsFollowRuns(log + WorkEvents(w))
  {
    var l := log + WorkEvents(w);
    assert l[|log|] == Ran(w);
    assert |l| > |log| + 1 ==> l[|log| + 1] == Signalled(w.done.value);
    forall i | 0 <= i < |log|
      ensures l[i] == log[i]
    {
    }
  }

  lemma SingleViews(ev: Event)
    ensures Shown([ev]) == (if ev.Displayed? then [ev.error] else [])
    ensures Executed([ev]) == (if ev.Ran? then [ev.work] else [])
  {
    assert [ev][1..] == [];
  }

  /** Running a closure shows no error and executes exactly that closure. */
  lemma WorkEventsViews(w: Work)
    ensures Shown(WorkEvents(w)) == [] && Executed(WorkEvents(w)) == [w]
  {
    var tail := if w.done.Some? then [Signalled(w.done.value)] else [];
    SingleViews(Ran(w));
    if w.done.Some? {
      SingleViews(Signalled(w.done.value));
    }
    ShownAppend([Ran(w)], tail);
    ExecutedAppend([Ran(w)], tail);
  }

  /** Taking an error shows exactly that error and executes nothing. */
  lemma ErrorEventsViews(e: Error)
    ensures Shown([Displayed(e), Disabled]) == [e] && Executed([Displayed(e), Disabled]) == []
  {
    SingleViews(Displayed(e));
    SingleViews(Disabled);
    assert [Displayed(e), Disabled] == [Displayed(e)] + [Disabled];
    ShownAppend([Displayed(e)], [Disabled]);
    ExecutedAppend([Displayed(e)], [Disabled]);
  }

  // ---------------------------------------------------------------------------
  // Lemmas about single transitions
  // ---------------------------------------------------------------------------

  lemma InitialValid()
    ensures Valid(Initial)
  {
  }

  /** Dismissing the open dialog destroys it and clears ShowingError: afterwards no dialog is open. */
  lemma RespondValid(s: AppState)
    requires Valid(s)
    ensures Valid(Respond(s))
    ensures !Respond(s).showingError && Respond(s).dialogs == []
    ensures s.showingError ==> Respond(s).log == s.log + [Destroyed(s.dialogs[0])]
  {
    if s.dialogs != [] {
      AppendQuiet(s.log, [Destroyed(s.dialogs[0])]);
    }
  }

  /** Quit stops the loop, logs a kill exactly when the handle is present, and touches nothing else. */
  lemma QuitValid(s: AppState)
    requires Valid(s)
    ensures Valid(Quit(s))
    ensures !Quit(s).running
    ensures Quit(s).log == s.log + KillEvents(s.process)
    ensures Quit(s).(running := s.running, log := s.log) == s
  {
    AppendQuiet(s.log, KillEvents(s.process));
  }

  lemma ReceiveValid(s: AppState, b: Background)
    requires Valid(s)
    ensures Valid(Receive(s, b))
  {
    if b.StatusSet? {
      ApplyStatusAgrees(s.statusLabel, b.status);
    }
  }

  lemma {:induction false} ReceiveAllValid(s: AppState, bs: seq<Background>)
    requires Valid(s)
    ensures Valid(ReceiveAll(s, bs))
    decreases |bs|
  {
    if bs != [] {
      ReceiveValid(s, bs[0]);
      ReceiveAllValid(Receive(s, bs[0]), bs[1..]);
    }
  }

  /**
   * What gtk.MainIteration can change: the running flag (cleared exactly when
   * a quit request is dispatched), the dialogs and ShowingError (only through
   * a dialog response, after which none is open), and the log, by events that
   * neither show an error nor run work. The queues, the status and the
   * process handle are untouched.
   */
  lemma {:induction false} DispatchFrame(s: AppState, native: seq<Native>)
    requires Valid(s)
    ensures var r := Dispatch(s, native);
      && Valid(r)
      && r.work == s.work && r.errors == s.errors
      && r.status == s.status && r.statusLabel == s.statusLabel && r.process == s.process
      && Shown(r.log) == Shown(s.log) && Executed(r.log) == Executed(s.log)
      && r.running == (s.running && QuitSignal !in native)
      && (Response !in native ==> r.showingError == s.showingError && r.dialogs == s.dialogs)
      && (Response in native ==> !r.showingError && r.dialogs == [])
    decreases |native|
  {
    if native != [] {
      var h := Handle(s, native[0]);
      match native[0] {
        case Response =>
          RespondValid(s);
          if s.dialogs != [] {
            ShownAppend(s.log, [Destroyed(s.dialogs[0])]);
            ExecutedAppend(s.log, [Destroyed(s.dialogs[0])]);
          }
        case QuitSignal =>
          QuitValid(s);
          ShownAppend(s.log, KillEvents(s.process));
          ExecutedAppend(s.log, KillEvents(s.process));
      }
      DispatchFrame(h, native[1..]);
      assert native == [native[0]] + native[1..];
    }
  }

  /** Running a work closure keeps the invariant and adds it to the executed work. */
  lemma TakeWorkFrame(s: AppState)
    requires Valid(s)
    ensures var r := TakeWork(s);
      && Valid(r)
      && r.running == s.running && r.showingError == s.showingError && r.errors == s.errors
      && r.dialogs == s.dialogs && r.status == s.status && r.statusLabel == s.statusLabel
      && r.process == s.process
      && Shown(r.log) == Shown(s.log)
      && Accepted(r) == Accepted(s)
      && (s.work == [] ==> r == s)
      && (s.work != [] ==> r.work == s.work[1..] && Executed(r.log) == Executed(s.log) + [s.work[0]])
  {
    if s.work != [] {
      var w := s.work[0];
      var r := TakeWork(s);
      AppendWork(s.log, w);
      ShownAppend(s.log, WorkEvents(w));
      ExecutedAppend(s.log, WorkEvents(w));
      WorkEventsViews(w);
      calc {
        Accepted(r);
        Executed(s.log) + [w] + s.work[1..];
        { assert s.work == [w] + s.work[1..]; }
        Executed(s.log) + s.work;
      }
    }
  }

  /** Taking an error keeps the invariant and moves it from the queue to the shown errors. */
  lemma TakeErrorFrame(s: AppState)
    requires Valid(s)
    ensures var r := TakeError(s);
      && Valid(r)
      && r.running == s.running && r.work == s.work
      && r.status == s.status && r.statusLabel == s.statusLabel && r.process == s.process
      && Executed(r.log) == Executed(s.log)
      && Arrived(r) == Arrived(s)
  {
    if !s.showingError && s.errors != [] {
      var e := s.errors[0];
      var x := [Displayed(e), Disabled];
      AppendQuiet(s.log, x);
      ShownAppend(s.log, x);
      ExecutedAppend(s.log, x);
      ErrorEventsViews(e);
      assert s.errors == [e] + s.errors[1..];
    }
  }

  /** Any number of iterations and dismissals keep the invariant: never more than one error dialog. */
  lemma IterationValid(s: AppState, native: seq<Native>)
    requires Valid(s)
    ensures Valid(Iteration(s, native))
  {
    DispatchFrame(s, native);
    TakeWorkFrame(Dispatch(s, native));
    TakeErrorFrame(TakeWork(Dispatch(s, native)));
  }

  // ---------------------------------------------------------------------------
  // Lemmas about one iteration
  // ---------------------------------------------------------------------------

  /**
   * An iteration runs at most one pending work item, the oldest; with none
   * pending it runs nothing and the work queue stays empty.
   */
  lemma IterationRunsOldestWork(s: AppState, native: seq<Native>)
    requires Valid(s)
    ensures var r := Iteration(s, native);
      && (s.work == [] ==> r.work == [] && Executed(r.log) == Executed(s.log))
      && (s.work != [] ==> r.work == s.work[1..] && Executed(r.log) == Executed(s.log) + [s.work[0]])
  {
    DispatchFrame(s, native);
    TakeWorkFrame(Dispatch(s, native));
    TakeErrorFrame(TakeWork(Dispatch(s, native)));
  }

  /**
   * While an error is showing (and no response dismisses it during
   * gtk.MainIteration), an iteration leaves the error queue alone, opens no
   * dialog and shows nothing.
   */
  lemma ShowingErrorBlocks(s: AppState, native: seq<Native>)
    requires Valid(s) && s.showingError && Response !in native
    ensures var r := Iteration(s, native);
      && r.errors == s.errors && r.dialogs == s.dialogs && r.showingError
      && Shown(r.log) == Shown(s.log)
  {
    DispatchFrame(s, native);
    TakeWorkFrame(Dispatch(s, native));
  }

  /**
   * An iteration takes an error exactly when one is pending and no error is
   * showing after gtk.MainIteration. The error it takes is the oldest; it sets
   * ShowingError, the only open dialog shows that error's message, and the
   * log ends with the error shown and then Disable called.
   */
  lemma IterationTakesError(s: AppState, native: seq<Native>)
    requires Valid(s)
    ensures var r := Iteration(s, native);
      && (r.errors != s.errors <==> s.errors != [] && !Dispatch(s, native).showingError)
      && (r.errors == s.errors || r.errors == s.errors[1..])
      && (r.errors != s.errors ==>
            && r.showingError
            && r.dialogs == [Dialog(s.errors[0].message)]
            && |r.log| >= 2
            && r.log[|r.log| - 2..] == [Displayed(s.errors[0]), Disabled])
  {
    var d := Dispatch(s, native);
    DispatchFrame(s, native);
    var t := TakeWork(d);
    TakeWorkFrame(d);
    assert t.errors == s.errors && t.showingError == d.showingError;
    var r := TakeError(t);
    assert r == Iteration(s, native);
    if !t.showingError && t.errors != [] {
      assert t.dialogs == [];
      assert r.log == t.log + [Displayed(s.errors[0]), Disabled];
    } else {
      assert r == t;
    }
  }

  /**
   * A dialog dismissed during gtk.MainIteration lets the oldest waiting error
   * surface in the same iteration, in the one dialog then open.
   */
  lemma DismissalRevealsNext(s: AppState, native: seq<Native>)
    requires Valid(s) && Response in native && s.errors != []
    ensures var r := Iteration(s, native);
      r.errors == s.errors[1..] && r.dialogs == [Dialog(s.errors[0].message)] && r.showingError
  {
    DispatchFrame(s, native);
    TakeWorkFrame(Dispatch(s, native));
  }

  /** One background action queues exactly the error or closure it sent and leaves the rest alone. */
  lemma ReceiveFrame(s: AppState, b: Background)
    ensures var r := Receive(s, b);
      && r.running == s.running && r.showingError == s.showingError && r.dialogs == s.dialogs
      && r.log == s.log
      && r.process == (if b.HandleSet? then b.handle else s.process)
      && Arrived(r) == Arrived(s) + (if b.ErrorSent? then [b.error] else [])
      && Accepted(r) == Accepted(s) + (if b.WorkSent? then [b.work] else [])
  {
  }

  /** Background activity leaves Running, ShowingError, the dialogs and the log alone. */
  lemma {:induction false} ReceiveAllKeeps(s: AppState, bs: seq<Background>)
    ensures var r := ReceiveAll(s, bs);
      && r.running == s.running && r.showingError == s.showingError && r.dialogs == s.dialogs
      && r.log == s.log
    decreases |bs|
  {
    if bs != [] {
      ReceiveAllKeeps(Receive(s, bs[0]), bs[1..]);
    }
  }

  /**
   * After background activity the process handle is the one the last
   * HandleSet left, or the old one when there was none.
   */
  lemma {:induction false} ReceiveAllHandle(s: AppState, bs: seq<Background>)
    ensures (forall i :: 0 <= i < |bs| ==> !bs[i].HandleSet?) ==> ReceiveAll(s, bs).process == s.process
    ensures forall i :: 0 <= i < |bs| && bs[i].HandleSet? && (forall j :: i < j < |bs| ==> !bs[j].HandleSet?) ==>
              ReceiveAll(s, bs).process == bs[i].handle
    decreases |bs|
  {
    if bs != [] {
      var m := Receive(s, bs[0]);
      ReceiveAllHandle(m, bs[1..]);
      assert ReceiveAll(s, bs) == ReceiveAll(m, bs[1..]);
      forall i | 0 <= i < |bs| && bs[i].HandleSet? && (forall j :: i < j < |bs| ==> !bs[j].HandleSet?)
        ensures ReceiveAll(s, bs).process == bs[i].handle
      {
        if i > 0 {
          assert bs[1..][i - 1] == bs[i];
          assert forall j :: i - 1 < j < |bs| - 1 ==> bs[1..][j] == bs[j + 1];
        } else {
          assert forall j :: 0 <= j < |bs| - 1 ==> bs[1..][j] == bs[j + 1];
        }
      }
      if forall i :: 0 <= i < |bs| ==> !bs[i].HandleSet? {
        assert forall j :: 0 <= j < |bs| - 1 ==> bs[1..][j] == bs[j + 1];
      }
    }
  }

  /** Background activity queues exactly the errors and work it sent, in order. */
  lemma {:induction false} ReceiveAllFrame(s: AppState, bs: seq<Background>)
    ensures var r := ReceiveAll(s, bs);
      && Arrived(r) == Arrived(s) + PostedErrors(bs)
      && Accepted(r) == Accepted(s) + PostedWork(bs)
    decreases |bs|
  {
    if bs != [] {
      var m := Receive(s, bs[0]);
      assert ReceiveAll(s, bs) == ReceiveAll(m, bs[1..]);
      ReceiveFrame(s, bs[0]);
      ReceiveAllFrame(m, bs[1..]);
      var e := if bs[0].ErrorSent? then [bs[0].error] else [];
      var w := if bs[0].WorkSent? then [bs[0].work] else [];
      assert PostedErrors(bs) == e + PostedErrors(bs[1..]);
      assert PostedWork(bs) == w + PostedWork(bs[1..]);
      assert Arrived(s) + e + PostedErrors(bs[1..]) == Arrived(s) + PostedErrors(bs);
      assert Accepted(s) + w + PostedWork(bs[1..]) == Accepted(s) + PostedWork(bs);
    }
  }

  /** One tick forwards exactly the errors and work its background sent, and clears Running exactly on a quit request. */
  lemma StepFrame(s: AppState, t: Tick)
    requires Valid(s)
    ensures var r := Step(s, t);
      && Valid(r)
      && r.running == (s.running && QuitSignal !in t.native)
      && Arrived(r) == Arrived(s) + PostedErrors(t.background)
      && Accepted(r) == Accepted(s) + PostedWork(t.background)
  {
    var a := ReceiveAll(s, t.background);
    ReceiveAllValid(s, t.background);
    ReceiveAllKeeps(s, t.background);
    ReceiveAllFrame(s, t.background);
    DispatchFrame(a, t.native);
    var d := Dispatch(a, t.native);
    TakeWorkFrame(d);
    TakeErrorFrame(TakeWork(d));
  }

  // ---------------------------------------------------------------------------
  // Lemmas about whole runs
  // ---------------------------------------------------------------------------

  /** A run of the loop keeps the invariant: ShowingError holds exactly when the one open dialog is. */
  lemma {:induction false} RunValid(s: AppState, ticks: seq<Tick>)
    requires Valid(s)
    ensures Valid(Run(s, ticks))
    decreases |ticks|
  {
    if s.running && ticks != [] {
      StepFrame(s, ticks[0]);
      RunValid(Step(s, ticks[0]), ticks[1..]);
    }
  }

  /**
   * Errors are shown in exactly the order they were sent, each once: what has
   * been shown, followed by what still waits, is what had arrived before the
   * run followed by every error sent during the iterations it performed.
   */
  lemma {:induction false} ErrorsInArrivalOrder(s: AppState, ticks: seq<Tick>)
    requires Valid(s)
    ensures var r := Run(s, ticks);
      Shown(r.log) + r.errors == Shown(s.log) + s.errors + TickErrors(ticks[..Iterations(s, ticks)])
    decreases |ticks|
  {
    if s.running && ticks != [] {
      var n := Iterations(s, ticks);
      StepFrame(s, ticks[0]);
      ErrorsInArrivalOrder(Step(s, ticks[0]), ticks[1..]);
      assert ticks[..n][1..] == ticks[1..][..n - 1];
    } else {
      assert ticks[..0] == [];
    }
  }

  /** Work runs in exactly the order it was sent, each item once. */
  lemma {:induction false} WorkInArrivalOrder(s: AppState, ticks: seq<Tick>)
    requires Valid(s)
    ensures var r := Run(s, ticks);
      Executed(r.log) + r.work == Executed(s.log) + s.work + TickWork(ticks[..Iterations(s, ticks)])
    decreases |ticks|
  {
    if s.running && ticks != [] {
      var n := Iterations(s, ticks);
      StepFrame(s, ticks[0]);
      WorkInArrivalOrder(Step(s, ticks[0]), ticks[1..]);
      assert ticks[..n][1..] == ticks[1..][..n - 1];
    } else {
      assert ticks[..0] == [];
    }
  }

  /**
   * A running loop performs iterations up to and including the first one
   * whose gtk.MainIteration dispatches a quit request, and none after it; the
   * loop ends with Running false exactly when such an iteration occurred.
   */
  lemma {:induction false} RunStopsAtQuit(s: AppState, ticks: seq<Tick>)
    requires Valid(s) && s.running
    ensures Iterations(s, ticks) == if FirstQuit(ticks) < |ticks| then FirstQuit(ticks) + 1 else |ticks|
    ensures !Run(s, ticks).running <==> FirstQuit(ticks) < |ticks|
    decreases |ticks|
  {
    if ticks != [] {
      StepFrame(s, ticks[0]);
      if QuitSignal !in ticks[0].native {
        RunStopsAtQuit(Step(s, ticks[0]), ticks[1..]);
      }
    }
  }

  /** Once Quit has run, the loop performs no further iteration and changes nothing. */
  lemma NoIterationAfterQuit(s: AppState, ticks: seq<Tick>)
    ensures Iterations(Quit(s), ticks) == 0
    ensures Run(Quit(s), ticks) == Quit(s)
  {
  }

  /**
   * After a released Do caller's done channel is sent on, its wrapped closure
   * has already run. Each Do makes a fresh done channel, so a token names one
   * caller's channel; the lemma holds whatever tokens are used.
   */
  lemma DoCompletes(s: AppState, ticks: seq<Tick>, i: nat)
    requires Valid(s)
    requires i < |Run(s, ticks).log| && Run(s, ticks).log[i].Signalled?
    ensures var log := Run(s, ticks).log;
      0 < i && log[i - 1].Ran? && log[i - 1].work.done == Some(log[i].token)
  {
    RunValid(s, ticks);
  }
}
