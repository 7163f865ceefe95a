/** The long-event queue of Verse/LongEventHandler.cs: a FIFO queue of events, the slot
    of the event being run, and the list of actions to run once the current event is
    finished, drained by a non-reentrant loop.

    An `Action` is modelled by what it does to this handler: its own id (appended to the
    `executed` trace when it runs), the actions it registers with ExecuteWhenFinished
    while it runs (`spawns`, in order), and whether it then throws. Events run on
    another thread, scene loading and enumerator time budgets are inputs of the update
    (`asyncFinished`, `StepOutcome`). */
module LongEvents {
  import opened Common

  type ActionId = nat

  datatype Action = Action(id: ActionId, spawns: seq<Action>, throws: bool)

  /** Number of actions in the tree of `a`. */
  function Size(a: Action): nat
    decreases a, 1
  {
    1 + TotalSize(a.spawns)
  }

  function TotalSize(s: seq<Action>): nat
    decreases s, 0
  {
    if |s| == 0 then 0 else Size(s[0]) + TotalSize(s[1..])
  }

  lemma {:induction false} TotalSizeAppend(a: seq<Action>, b: seq<Action>)
    ensures TotalSize(a + b) == TotalSize(a) + TotalSize(b)
    decreases |a|
  {
    if |a| > 0 {
      assert (a + b)[1..] == a[1..] + b;
      TotalSizeAppend(a[1..], b);
    } else {
      assert a + b == b;
    }
  }

  /** The order in which the drain loop runs the list `l`: the head first, and what it
      registers goes to the back of the list. */
  function DrainOrder(l: seq<Action>): seq<Action>
    decreases TotalSize(l)
  {
    if |l| == 0 then []
    else
      TotalSizeAppend(l[1..], l[0].spawns);
      assert TotalSize(l) == 1 + TotalSize(l[0].spawns) + TotalSize(l[1..]);
      [l[0]] + DrainOrder(l[1..] + l[0].spawns)
  }

  function Ids(l: seq<Action>): (r: seq<ActionId>)
    ensures |r| == |l| && forall i :: 0 <= i < |l| ==> r[i] == l[i].id
  {
    seq(|l|, i requires 0 <= i < |l| => l[i].id)
  }

  /** QueuedLongEvent. A null `levelToLoad` is the empty string (the source only asks
      NullOrEmpty of it); `hasEnumerator` is `eventActionEnumerator != null`. */
  datatype QueuedLongEvent = QueuedLongEvent(
    eventAction: Option<Action>,
    hasEnumerator: bool,
    levelToLoad: string,
    eventTextKey: Option<string>,
    eventText: string,
    doAsynchronously: bool,
    exceptionHandler: Option<ActionId>,
    alreadyDisplayed: bool,
    canEverUseStandardWindow: bool)
  {
    predicate UseAnimatedDots()
      ensures UseAnimatedDots() ==> !UseStandardWindow()
      ensures !UseAnimatedDots() && canEverUseStandardWindow ==> UseStandardWindow()
    {
      doAsynchronously || hasEnumerator
    }

    predicate ShouldWaitUntilDisplayed()
      ensures alreadyDisplayed || |eventText| == 0 ==> !ShouldWaitUntilDisplayed()
      ensures ShouldWaitUntilDisplayed() ==> UseStandardWindow()
    {
      !alreadyDisplayed && UseStandardWindow() && |eventText| > 0
    }

    predicate UseStandardWindow()
      ensures hasEnumerator || doAsynchronously || !canEverUseStandardWindow ==> !UseStandardWindow()
    {
      canEverUseStandardWindow && !doAsynchronously && !hasEnumerator
    }
  }

  /** A standard-window event never shows animated dots, and an event waits to be
      displayed only in a standard window, before its first display, with some text. */
  lemma WindowPredicates(e: QueuedLongEvent)
    ensures e.UseStandardWindow() ==> !e.hasEnumerator && !e.doAsynchronously
    ensures !(e.UseStandardWindow() && e.UseAnimatedDots())
    ensures e.ShouldWaitUntilDisplayed() ==> e.UseStandardWindow() && !e.alreadyDisplayed && e.eventText != ""
  {
  }

  /** What the enumerator of an enumerator event did in this frame. */
  datatype StepOutcome = StillRunning | Finished | Threw

  /** The handler's static fields, the `executed` trace and the engine log. */
  datatype HandlerState = HandlerState(
    eventQueue: seq<QueuedLongEvent>,
    currentEvent: Option<QueuedLongEvent>,
    toExecuteWhenFinished: seq<Action>,
    executingToExecuteWhenFinished: bool,
    executed: seq<ActionId>,
    log: Log)

  const LongEventErrorText := "Exception from long event: "
  const FinishActionErrorText := "Could not execute post-long-event action. Exception: "
  const AlreadyExecutingText := "Already executing."

  predicate AnyEventNowOrWaiting(s: HandlerState)
  {
    s.currentEvent.Some? || |s.eventQueue| > 0
  }

  /** ForcePause: the game is paused while an event runs or waits in the queue. */
  predicate ForcePause(s: HandlerState)
    ensures s.currentEvent.Some? || |s.eventQueue| > 0 ==> ForcePause(s)
    ensures s.currentEvent.None? && s.eventQueue == [] ==> !ForcePause(s)
  {
    AnyEventNowOrWaiting(s)
  }

  /** Queueing an event of any kind makes the handler busy; clearing the queue leaves it
      busy exactly when an event is current. */
  lemma QueueKeepsBusy(s: HandlerState, e: QueuedLongEvent)
    ensures AnyEventNowOrWaiting(s.(eventQueue := s.eventQueue + [e]))
    ensures AnyEventNowOrWaiting(s.(eventQueue := [])) <==> s.currentEvent.Some?
    ensures ForcePause(s) <==> AnyEventNowOrWaiting(s)
  {
  }

  /** AnyEventWhichDoesntUseStandardWindowNowOrWaiting. */
  predicate AnyNonStandardNowOrWaiting(s: HandlerState)
  {
    (s.currentEvent.Some? && !s.currentEvent.value.UseStandardWindow())
    || exists i :: 0 <= i < |s.eventQueue| && !s.eventQueue[i].UseStandardWindow()
  }

  /** Running one action: its id is traced, what it registers is appended to the finish
      list (no drain starts meanwhile), and a throw is logged with `errorText`. */
  function Invoked(s: HandlerState, a: Action, errorText: string): HandlerState
  {
    s.(executed := s.executed + [a.id],
       toExecuteWhenFinished := s.toExecuteWhenFinished + a.spawns,
       log := if a.throws then s.log.Error(errorText) else s.log)
  }

  /** The drain loop from state `s` over the remaining list `l`. */
  function RunFinish(s: HandlerState, l: seq<Action>): HandlerState
    decreases TotalSize(l)
  {
    if |l| == 0 then s
    else
      TotalSizeAppend(l[1..], l[0].spawns);
      assert TotalSize(l) == 1 + TotalSize(l[0].spawns) + TotalSize(l[1..]);
      RunFinish(Invoked(s, l[0], FinishActionErrorText), l[1..] + l[0].spawns)
  }

  /** ExecuteToExecuteWhenFinished. */
  function Drained(s: HandlerState): HandlerState
  {
    if s.executingToExecuteWhenFinished then s.(log := s.log.Warn(AlreadyExecutingText))
    else RunFinish(s.(executingToExecuteWhenFinished := true), s.toExecuteWhenFinished)
           .(toExecuteWhenFinished := [], executingToExecuteWhenFinished := false)
  }

  /** ExecuteWhenFinished. */
  function WhenFinished(s: HandlerState, a: Action): HandlerState
  {
    var s1 := s.(toExecuteWhenFinished := s.toExecuteWhenFinished + [a]);
    if (s.currentEvent.None? || s.currentEvent.value.ShouldWaitUntilDisplayed()) && !s.executingToExecuteWhenFinished
    then Drained(s1)
    else s1
  }

  /** The three QueueLongEvent overloads build an event this way. */
  function NewEvent(s: HandlerState, action: Option<Action>, hasEnumerator: bool, levelToLoad: string,
                    textKey: Option<string>, doAsynchronously: bool, exceptionHandler: Option<ActionId>): QueuedLongEvent
  {
    QueuedLongEvent(action, hasEnumerator, levelToLoad, textKey, "", doAsynchronously, exceptionHandler,
                    false, !AnyNonStandardNowOrWaiting(s))
  }

  /** An event entering the slot gets its text: empty for a null key, else the
      translation of the key. */
  function WithText(e: QueuedLongEvent, translate: string -> string): QueuedLongEvent
  {
    e.(eventText := if e.eventTextKey.None? then "" else translate(e.eventTextKey.value))
  }

  /** UpdateCurrentSynchronousEvent: the new state and `sceneChanged`. */
  function SynchronousUpdate(s: HandlerState): (HandlerState, bool)
    requires s.currentEvent.Some?
  {
    var e := s.currentEvent.value;
    if e.ShouldWaitUntilDisplayed() then (s, false)
    else
      var s1 := if e.eventAction.Some? then Invoked(s, e.eventAction.value, LongEventErrorText) else s;
      if e.eventAction.Some? && e.eventAction.value.throws then
        (s1.(executed := s1.executed + (if e.exceptionHandler.Some? then [e.exceptionHandler.value] else []),
             currentEvent := None), false)
      else (Drained(s1.(currentEvent := None)), |e.levelToLoad| > 0)
  }

  /** UpdateCurrentEnumeratorEvent, given what the enumerator did this frame. */
  function EnumeratorUpdate(s: HandlerState, step: StepOutcome): HandlerState
    requires s.currentEvent.Some?
  {
    var e := s.currentEvent.value;
    match step
    case StillRunning => s
    case Finished => Drained(s.(currentEvent := None))
    case Threw =>
      s.(log := s.log.Error(LongEventErrorText),
         executed := s.executed + (if e.exceptionHandler.Some? then [e.exceptionHandler.value] else []),
         currentEvent := None)
  }

  /** UpdateCurrentAsynchronousEvent, given whether the thread (and the level load, if
      any) has finished. */
  function AsynchronousUpdate(s: HandlerState, asyncFinished: bool): HandlerState
    requires s.currentEvent.Some?
  {
    if asyncFinished then Drained(s.(currentEvent := None)) else s
  }

  /** LongEventsUpdate: update the current event, then fill an empty slot from the queue. */
  function Update(s: HandlerState, translate: string -> string, step: StepOutcome, asyncFinished: bool): (HandlerState, bool)
  {
    var (s1, sceneChanged) :=
      if s.currentEvent.None? then (s, false)
      else if s.currentEvent.value.hasEnumerator then (EnumeratorUpdate(s, step), false)
      else if s.currentEvent.value.doAsynchronously then (AsynchronousUpdate(s, asyncFinished), false)
      else SynchronousUpdate(s);
    if s1.currentEvent.None? && |s1.eventQueue| > 0 then
      (s1.(currentEvent := Some(WithText(s1.eventQueue[0], translate)), eventQueue := s1.eventQueue[1..]), sceneChanged)
    else (s1, sceneChanged)
  }

  // ---------------------------------------------------------------------------
  // Properties of the drain
  // ---------------------------------------------------------------------------

  /** The log entries of a run of `l` whose throwing actions are caught and logged. */
  function ThrowErrors(l: seq<Action>): (r: seq<LogEntry>)
    ensures |r| <= |l|
    ensures forall e :: e in r ==> e == LogEntry(LogLevel.Error, FinishActionErrorText)
  {
    if |l| == 0 then []
    else (if l[0].throws then [LogEntry(LogLevel.Error, FinishActionErrorText)] else []) + ThrowErrors(l[1..])
  }

  /** The drain loop traces what DrainOrder runs, logs one error per throwing action, in
      that order, and touches neither the queue nor the slot. */
  lemma {:induction false} RunFinishEffect(s: HandlerState, l: seq<Action>)
    ensures RunFinish(s, l).executed == s.executed + Ids(DrainOrder(l))
    ensures RunFinish(s, l).eventQueue == s.eventQueue && RunFinish(s, l).currentEvent == s.currentEvent
    ensures RunFinish(s, l).executingToExecuteWhenFinished == s.executingToExecuteWhenFinished
    ensures RunFinish(s, l).log.onceKeys == s.log.onceKeys
    ensures RunFinish(s, l).log.entries == s.log.entries + ThrowErrors(DrainOrder(l))
  {
    RunFinishExecuted(s, l);
    RunFinishFrame(s, l);
    RunFinishLog(s, l);
  }

  lemma {:induction false} RunFinishExecuted(s: HandlerState, l: seq<Action>)
    ensures RunFinish(s, l).executed == s.executed + Ids(DrainOrder(l))
    decreases TotalSize(l)
  {
    if |l| > 0 {
      TotalSizeAppend(l[1..], l[0].spawns);
      assert TotalSize(l) == 1 + TotalSize(l[0].spawns) + TotalSize(l[1..]);
      var s1 := Invoked(s, l[0], FinishActionErrorText);
      var rest := l[1..] + l[0].spawns;
      RunFinishExecuted(s1, rest);
      var d := DrainOrder(l);
      var dr := DrainOrder(rest);
      assert d == [l[0]] + dr;
      assert Ids(d) == [l[0].id] + Ids(dr);
    }
  }

  lemma {:induction false} RunFinishFrame(s: HandlerState, l: seq<Action>)
    ensures RunFinish(s, l).eventQueue == s.eventQueue && RunFinish(s, l).currentEvent == s.currentEvent
    ensures RunFinish(s, l).executingToExecuteWhenFinished == s.executingToExecuteWhenFinished
    ensures RunFinish(s, l).log.onceKeys == s.log.onceKeys
    decreases TotalSize(l)
  {
    if |l| > 0 {
      TotalSizeAppend(l[1..], l[0].spawns);
      assert TotalSize(l) == 1 + TotalSize(l[0].spawns) + TotalSize(l[1..]);
      RunFinishFrame(Invoked(s, l[0], FinishActionErrorText), l[1..] + l[0].spawns);
    }
  }

  lemma {:induction false} RunFinishLog(s: HandlerState, l: seq<Action>)
    ensures RunFinish(s, l).log.entries == s.log.entries + ThrowErrors(DrainOrder(l))
    decreases TotalSize(l)
  {
    if |l| > 0 {
      TotalSizeAppend(l[1..], l[0].spawns);
      assert TotalSize(l) == 1 + TotalSize(l[0].spawns) + TotalSize(l[1..]);
      var s1 := Invoked(s, l[0], FinishActionErrorText);
      var rest := l[1..] + l[0].spawns;
      RunFinishLog(s1, rest);
      var d := DrainOrder(l);
      var dr := DrainOrder(rest);
      assert d == [l[0]] + dr;
      assert d[0] == l[0] && d[1..] == dr;
    }
  }

  /** FIFO: the drain runs the list it is given first, in order, before anything those
      actions register. */
  lemma {:induction false} DrainOrderFifo(l: seq<Action>)
    ensures |l| <= |DrainOrder(l)| && DrainOrder(l)[..|l|] == l
    decreases TotalSize(l)
  {
    if |l| > 0 {
      TotalSizeAppend(l[1..], l[0].spawns);
      assert TotalSize(l) == 1 + TotalSize(l[0].spawns) + TotalSize(l[1..]);
      var rest := l[1..] + l[0].spawns;
      DrainOrderFifo(rest);
      assert DrainOrder(rest)[..|l| - 1] == rest[..|l| - 1] == l[1..];
      assert DrainOrder(l)[..|l|] == [l[0]] + DrainOrder(rest)[..|l| - 1];
    }
  }

  /** Every action of every tree in the list runs exactly once in count: the drain runs
      as many actions as the trees hold, and whatever a run action registers runs too. */
  lemma {:induction false} DrainOrderComplete(l: seq<Action>)
    ensures |DrainOrder(l)| == TotalSize(l)
    ensures forall a, b :: a in DrainOrder(l) && b in a.spawns ==> b in DrainOrder(l)
    decreases TotalSize(l)
  {
    if |l| > 0 {
      TotalSizeAppend(l[1..], l[0].spawns);
      assert TotalSize(l) == 1 + TotalSize(l[0].spawns) + TotalSize(l[1..]);
      var rest := l[1..] + l[0].spawns;
      DrainOrderComplete(rest);
      DrainOrderFifo(rest);
      var d := DrainOrder(l);
      forall a, b | a in d && b in a.spawns ensures b in d {
        if a in DrainOrder(rest) {
        } else {
          assert a == l[0];
          var j :| 0 <= j < |l[0].spawns| && l[0].spawns[j] == b;
          assert rest[|l| - 1 + j] == b;
          assert DrainOrder(rest)[|l| - 1 + j] == b;
        }
      }
    }
  }

  /** A drain that is not already in progress runs the whole list in DrainOrder and ends
      with an empty list and the flag reset; one in progress only warns. */
  lemma DrainedEffect(s: HandlerState)
    ensures s.executingToExecuteWhenFinished ==>
      Drained(s) == s.(log := s.log.Warn(AlreadyExecutingText))
    ensures !s.executingToExecuteWhenFinished ==>
      Drained(s).executed == s.executed + Ids(DrainOrder(s.toExecuteWhenFinished))
      && Drained(s).toExecuteWhenFinished == [] && !Drained(s).executingToExecuteWhenFinished
      && Drained(s).eventQueue == s.eventQueue && Drained(s).currentEvent == s.currentEvent
  {
    if !s.executingToExecuteWhenFinished {
      RunFinishEffect(s.(executingToExecuteWhenFinished := true), s.toExecuteWhenFinished);
    }
  }

  /** ExecuteWhenFinished with no current event (or one still waiting to be displayed)
      and no drain in progress runs the new action after the ones already listed. */
  lemma WhenFinishedRunsNow(s: HandlerState, a: Action)
    requires (s.currentEvent.None? || s.currentEvent.value.ShouldWaitUntilDisplayed()) && !s.executingToExecuteWhenFinished
    ensures var l := s.toExecuteWhenFinished + [a];
      WhenFinished(s, a).executed == s.executed + Ids(DrainOrder(l))
      && |l| <= |DrainOrder(l)| && DrainOrder(l)[..|l|] == l
      && WhenFinished(s, a).toExecuteWhenFinished == []
  {
    var l := s.toExecuteWhenFinished + [a];
    DrainedEffect(s.(toExecuteWhenFinished := l));
    DrainOrderFifo(l);
  }

  /** Otherwise ExecuteWhenFinished only appends. */
  lemma WhenFinishedDefers(s: HandlerState, a: Action)
    requires !((s.currentEvent.None? || s.currentEvent.value.ShouldWaitUntilDisplayed()) && !s.executingToExecuteWhenFinished)
    ensures WhenFinished(s, a) == s.(toExecuteWhenFinished := s.toExecuteWhenFinished + [a])
  {
  }

  // ---------------------------------------------------------------------------
  // Properties of the queue and the update
  // ---------------------------------------------------------------------------

  /** The window order: once an event that does not use the standard window is current
      or queued, every event queued after it has canEverUseStandardWindow false. */
  ghost predicate WindowOrder(s: HandlerState)
  {
    (forall i, j :: 0 <= i < j < |s.eventQueue| && !s.eventQueue[i].UseStandardWindow() ==>
       !s.eventQueue[j].canEverUseStandardWindow)
    && (s.currentEvent.Some? && !s.currentEvent.value.UseStandardWindow() ==>
          forall j :: 0 <= j < |s.eventQueue| ==> !s.eventQueue[j].canEverUseStandardWindow)
  }

  /** Queueing appends at the tail, and keeps the window order. */
  lemma QueueKeepsWindowOrder(s: HandlerState, action: Option<Action>, hasEnumerator: bool, levelToLoad: string,
                              textKey: Option<string>, doAsynchronously: bool, exceptionHandler: Option<ActionId>)
    requires WindowOrder(s)
    ensures var e := NewEvent(s, action, hasEnumerator, levelToLoad, textKey, doAsynchronously, exceptionHandler);
      WindowOrder(s.(eventQueue := s.eventQueue + [e]))
      && (AnyNonStandardNowOrWaiting(s) ==> !e.UseStandardWindow())
  {
    var e := NewEvent(s, action, hasEnumerator, levelToLoad, textKey, doAsynchronously, exceptionHandler);
    var q := s.eventQueue + [e];
    forall i, j | 0 <= i < j < |q| && !q[i].UseStandardWindow() ensures !q[j].canEverUseStandardWindow {
      if j == |q| - 1 {
        assert !s.eventQueue[i].UseStandardWindow();
      }
    }
  }

  lemma DrainedKeepsSlot(s: HandlerState)
    ensures Drained(s).eventQueue == s.eventQueue && Drained(s).currentEvent == s.currentEvent
  {
    DrainedEffect(s);
  }

  /** The update keeps the window order. */
  lemma UpdateKeepsWindowOrder(s: HandlerState, translate: string -> string, step: StepOutcome, asyncFinished: bool)
    requires WindowOrder(s)
    ensures WindowOrder(Update(s, translate, step, asyncFinished).0)
  {
    if s.currentEvent.Some? {
      DrainedKeepsSlot(s.(currentEvent := None));
      var e := s.currentEvent.value;
      if !e.hasEnumerator && !e.doAsynchronously && !e.ShouldWaitUntilDisplayed() && e.eventAction.Some? && !e.eventAction.value.throws {
        DrainedKeepsSlot(Invoked(s, e.eventAction.value, LongEventErrorText).(currentEvent := None));
      }
    }
    var s' := Update(s, translate, step, asyncFinished).0;
    if s'.eventQueue != s.eventQueue {
      assert s'.eventQueue == s.eventQueue[1..];
      forall j | 0 <= j < |s'.eventQueue| ensures s'.currentEvent.Some? && !s'.currentEvent.value.UseStandardWindow() ==> !s'.eventQueue[j].canEverUseStandardWindow {
        assert s'.eventQueue[j] == s.eventQueue[j + 1];
      }
    }
  }

  /** The current event is still running after this frame's update. */
  predicate StillBusy(s: HandlerState, step: StepOutcome, asyncFinished: bool)
  {
    s.currentEvent.Some?
    && (if s.currentEvent.value.hasEnumerator then step == StillRunning
        else if s.currentEvent.value.doAsynchronously then !asyncFinished
        else s.currentEvent.value.ShouldWaitUntilDisplayed())
  }

  /** The slot: an empty slot takes the head of the queue, with its text; the queue moves
      only by handing its head to the slot, and a busy event keeps the slot and the
      queue as they are. */
  lemma UpdateFillsSlot(s: HandlerState, translate: string -> string, step: StepOutcome, asyncFinished: bool)
    ensures var s' := Update(s, translate, step, asyncFinished).0;
      (s.currentEvent.None? && |s.eventQueue| > 0 ==>
         s'.currentEvent == Some(WithText(s.eventQueue[0], translate)) && s'.eventQueue == s.eventQueue[1..])
      && (s.currentEvent.None? && |s.eventQueue| == 0 ==> s'.currentEvent.None? && s'.eventQueue == [])
      && (s'.eventQueue == s.eventQueue
          || (|s.eventQueue| > 0 && s'.eventQueue == s.eventQueue[1..]
              && s'.currentEvent == Some(WithText(s.eventQueue[0], translate))))
      && (StillBusy(s, step, asyncFinished) ==> Update(s, translate, step, asyncFinished) == (s, false))
  {
    if s.currentEvent.Some? {
      DrainedKeepsSlot(s.(currentEvent := None));
      var e := s.currentEvent.value;
      if e.eventAction.Some? {
        DrainedKeepsSlot(Invoked(s, e.eventAction.value, LongEventErrorText).(currentEvent := None));
      }
    }
  }

  /** A synchronous event still waiting to be displayed does not run. */
  lemma SynchronousWaits(s: HandlerState)
    requires s.currentEvent.Some? && s.currentEvent.value.ShouldWaitUntilDisplayed()
    ensures SynchronousUpdate(s) == (s, false)
  {
  }

  /** A synchronous event that runs without throwing frees the slot, reports a scene
      change exactly when it has a level to load, and drains the finish list, which then
      includes what the event's action registered. */
  lemma SynchronousSucceeds(s: HandlerState)
    requires s.currentEvent.Some? && !s.currentEvent.value.ShouldWaitUntilDisplayed()
    requires s.currentEvent.value.eventAction.Some? ==> !s.currentEvent.value.eventAction.value.throws
    requires !s.executingToExecuteWhenFinished
    ensures var e := s.currentEvent.value;
      var own := if e.eventAction.Some? then [e.eventAction.value] else [];
      var l := s.toExecuteWhenFinished + (if e.eventAction.Some? then e.eventAction.value.spawns else []);
      SynchronousUpdate(s).0.currentEvent.None?
      && SynchronousUpdate(s).1 == (|e.levelToLoad| > 0)
      && SynchronousUpdate(s).0.toExecuteWhenFinished == []
      && SynchronousUpdate(s).0.executed == s.executed + Ids(own) + Ids(DrainOrder(l))
  {
    var e := s.currentEvent.value;
    var s1 := if e.eventAction.Some? then Invoked(s, e.eventAction.value, LongEventErrorText) else s;
    DrainedEffect(s1.(currentEvent := None));
    if e.eventAction.Some? {
      assert Ids([e.eventAction.value]) == [e.eventAction.value.id];
    } else {
      assert Ids([]) == [];
      assert s.toExecuteWhenFinished + [] == s.toExecuteWhenFinished;
    }
  }

  /** A synchronous event whose action throws frees the slot, logs the error, calls the
      exception handler, and does not drain the finish list. */
  lemma SynchronousThrows(s: HandlerState)
    requires s.currentEvent.Some? && !s.currentEvent.value.ShouldWaitUntilDisplayed()
    requires s.currentEvent.value.eventAction.Some? && s.currentEvent.value.eventAction.value.throws
    ensures var e := s.currentEvent.value;
      var a := e.eventAction.value;
      SynchronousUpdate(s).0.currentEvent.None? && !SynchronousUpdate(s).1
      && SynchronousUpdate(s).0.toExecuteWhenFinished == s.toExecuteWhenFinished + a.spawns
      && SynchronousUpdate(s).0.log.entries == s.log.entries + [LogEntry(LogLevel.Error, LongEventErrorText)]
      && SynchronousUpdate(s).0.executed == s.executed + [a.id] + (if e.exceptionHandler.Some? then [e.exceptionHandler.value] else [])
  {
  }

  // ---------------------------------------------------------------------------
  // The handler
  // ---------------------------------------------------------------------------

  class LongEventHandler {
    var eventQueue: seq<QueuedLongEvent>
    var currentEvent: Option<QueuedLongEvent>
    var toExecuteWhenFinished: seq<Action>
    var executingToExecuteWhenFinished: bool
    /** The ids of the actions run so far, in order: the observable effect of running them. */
    var executed: seq<ActionId>

    function State(logger: Logger): HandlerState
      reads this, logger
    {
      HandlerState(eventQueue, currentEvent, toExecuteWhenFinished, executingToExecuteWhenFinished, executed, logger.log)
    }

    constructor()
      ensures eventQueue == [] && currentEvent.None? && toExecuteWhenFinished == []
      ensures !executingToExecuteWhenFinished && executed == []
    {
      eventQueue := [];
      currentEvent := None;
      toExecuteWhenFinished := [];
      executingToExecuteWhenFinished := false;
      executed := [];
    }

    method IsAnyEventNowOrWaiting(logger: Logger) returns (r: bool)
      ensures r == AnyEventNowOrWaiting(State(logger))
    {
      r := currentEvent.Some? || |eventQueue| > 0;
    }

    /** QueueLongEvent(Action, textKey, doAsynchronously, exceptionHandler). */
    method QueueLongEvent(logger: Logger, action: Option<Action>, textKey: Option<string>, doAsynchronously: bool, exceptionHandler: Option<ActionId>)
      modifies this
      ensures State(logger) == old(State(logger)).(eventQueue := old(eventQueue) + [NewEvent(old(State(logger)), action, false, "", textKey, doAsynchronously, exceptionHandler)])
      ensures AnyEventNowOrWaiting(State(logger))
    {
      var e := NewEvent(State(logger), action, false, "", textKey, doAsynchronously, exceptionHandler);
      eventQueue := eventQueue + [e];
    }

    /** QueueLongEvent(IEnumerable, textKey, exceptionHandler): never asynchronous. */
    method QueueLongEventEnumerator(logger: Logger, textKey: Option<string>, exceptionHandler: Option<ActionId>)
      modifies this
      ensures State(logger) == old(State(logger)).(eventQueue := old(eventQueue) + [NewEvent(old(State(logger)), None, true, "", textKey, false, exceptionHandler)])
      ensures AnyEventNowOrWaiting(State(logger))
    {
      var e := NewEvent(State(logger), None, true, "", textKey, false, exceptionHandler);
      eventQueue := eventQueue + [e];
    }

    /** QueueLongEvent(preLoadLevelAction, levelToLoad, textKey, doAsynchronously, exceptionHandler). */
    method QueueLongEventLevel(logger: Logger, preLoadLevelAction: Option<Action>, levelToLoad: string, textKey: Option<string>,
                               doAsynchronously: bool, exceptionHandler: Option<ActionId>)
      modifies this
      ensures State(logger) == old(State(logger)).(eventQueue := old(eventQueue) + [NewEvent(old(State(logger)), preLoadLevelAction, false, levelToLoad, textKey, doAsynchronously, exceptionHandler)])
      ensures AnyEventNowOrWaiting(State(logger))
    {
      var e := NewEvent(State(logger), preLoadLevelAction, false, levelToLoad, textKey, doAsynchronously, exceptionHandler);
      eventQueue := eventQueue + [e];
    }

    /** ClearQueuedEvents: the queue is emptied, the current event stays. */
    method ClearQueuedEvents(logger: Logger)
      modifies this
      ensures State(logger) == old(State(logger)).(eventQueue := [])
      ensures AnyEventNowOrWaiting(State(logger)) <==> currentEvent.Some?
    {
      eventQueue := [];
    }

    /** DrawLongEventWindowContents on a repaint: the current event is displayed. */
    method MarkDisplayed(logger: Logger)
      modifies this
      ensures State(logger) == old(State(logger)).(currentEvent :=
        if old(currentEvent).Some? then Some(old(currentEvent).value.(alreadyDisplayed := true)) else None)
    {
      if currentEvent.Some? {
        currentEvent := Some(currentEvent.value.(alreadyDisplayed := true));
      }
    }

    /** ExecuteWhenFinished. */
    method ExecuteWhenFinished(a: Action, logger: Logger)
      modifies this, logger
      ensures State(logger) == WhenFinished(old(State(logger)), a)
      decreases if executingToExecuteWhenFinished then 0 else 3
    {
      toExecuteWhenFinished := toExecuteWhenFinished + [a];
      if (currentEvent.None? || currentEvent.value.ShouldWaitUntilDisplayed()) && !executingToExecuteWhenFinished {
        ExecuteToExecuteWhenFinished(logger);
      }
    }

    /** ExecuteToExecuteWhenFinished: non-reentrant; runs every listed action, including
        the ones appended while it runs, then clears the list and the flag. */
    method ExecuteToExecuteWhenFinished(logger: Logger)
      modifies this, logger
      ensures State(logger) == Drained(old(State(logger)))
      decreases if executingToExecuteWhenFinished then 0 else 2
    {
      if executingToExecuteWhenFinished {
        logger.log := logger.log.Warn(AlreadyExecutingText);
        return;
      }
      ghost var s0 := State(logger);
      executingToExecuteWhenFinished := true;
      var i := 0;
      while i < |toExecuteWhenFinished|
        invariant 0 <= i <= |toExecuteWhenFinished|
        invariant executingToExecuteWhenFinished
        invariant RunFinish(State(logger), toExecuteWhenFinished[i..])
                    .(toExecuteWhenFinished := [], executingToExecuteWhenFinished := false) == Drained(s0)
        decreases TotalSize(toExecuteWhenFinished[i..])
      {
        var l := toExecuteWhenFinished;
        assert l[i..][0] == l[i] && l[i..][1..] == l[i + 1..];
        Invoke(l[i], FinishActionErrorText, logger);
        assert toExecuteWhenFinished[i + 1..] == l[i + 1..] + l[i].spawns;
        TotalSizeAppend(l[i + 1..], l[i].spawns);
        assert TotalSize(l[i..]) == 1 + TotalSize(l[i].spawns) + TotalSize(l[i + 1..]);
        i := i + 1;
      }
      toExecuteWhenFinished := [];
      executingToExecuteWhenFinished := false;
    }

    /** Running an action in one of the two places the handler runs them: inside a drain,
        or as the current event's own action (the slot is taken, so nothing it registers
        starts a drain). */
    method Invoke(a: Action, errorText: string, logger: Logger)
      requires executingToExecuteWhenFinished || (currentEvent.Some? && !currentEvent.value.ShouldWaitUntilDisplayed())
      modifies this, logger
      ensures State(logger) == Invoked(old(State(logger)), a, errorText)
      decreases if executingToExecuteWhenFinished then 1 else 4
    {
      executed := executed + [a.id];
      var j := 0;
      while j < |a.spawns|
        invariant 0 <= j <= |a.spawns|
        invariant State(logger) == old(State(logger)).(executed := old(executed) + [a.id],
                                                       toExecuteWhenFinished := old(toExecuteWhenFinished) + a.spawns[..j])
      {
        assert a.spawns[..j + 1] == a.spawns[..j] + [a.spawns[j]];
        ExecuteWhenFinished(a.spawns[j], logger);
        j := j + 1;
      }
      assert a.spawns[..j] == a.spawns;
      if a.throws {
        logger.log := logger.log.Error(errorText);
      }
    }

    /** LongEventsUpdate. */
    method LongEventsUpdate(translate: string -> string, step: StepOutcome, asyncFinished: bool, logger: Logger)
      returns (sceneChanged: bool)
      modifies this, logger
      ensures (State(logger), sceneChanged) == Update(old(State(logger)), translate, step, asyncFinished)
    {
      sceneChanged := false;
      if currentEvent.Some? {
        if currentEvent.value.hasEnumerator {
          UpdateCurrentEnumeratorEvent(step, logger);
        } else if currentEvent.value.doAsynchronously {
          UpdateCurrentAsynchronousEvent(asyncFinished, logger);
        } else {
          sceneChanged := UpdateCurrentSynchronousEvent(logger);
        }
      }
      if currentEvent.None? && |eventQueue| > 0 {
        var e := eventQueue[0];
        eventQueue := eventQueue[1..];
        currentEvent := Some(WithText(e, translate));
      }
    }

    method UpdateCurrentEnumeratorEvent(step: StepOutcome, logger: Logger)
      requires currentEvent.Some?
      modifies this, logger
      ensures State(logger) == EnumeratorUpdate(old(State(logger)), step)
    {
      match step {
        case StillRunning =>
        case Finished =>
          currentEvent := None;
          ExecuteToExecuteWhenFinished(logger);
        case Threw =>
          logger.log := logger.log.Error(LongEventErrorText);
          if currentEvent.value.exceptionHandler.Some? {
            executed := executed + [currentEvent.value.exceptionHandler.value];
          }
          currentEvent := None;
      }
    }

    method UpdateCurrentAsynchronousEvent(asyncFinished: bool, logger: Logger)
      requires currentEvent.Some?
      modifies this, logger
      ensures State(logger) == AsynchronousUpdate(old(State(logger)), asyncFinished)
    {
      if asyncFinished {
        currentEvent := None;
        ExecuteToExecuteWhenFinished(logger);
      }
    }

    method UpdateCurrentSynchronousEvent(logger: Logger) returns (sceneChanged: bool)
      requires currentEvent.Some?
      modifies this, logger
      ensures (State(logger), sceneChanged) == SynchronousUpdate(old(State(logger)))
    {
      sceneChanged := false;
      var e := currentEvent.value;
      if e.ShouldWaitUntilDisplayed() {
        return;
      }
      if e.eventAction.Some? {
        Invoke(e.eventAction.value, LongEventErrorText, logger);
        if e.eventAction.value.throws {
          if e.exceptionHandler.Some? {
            executed := executed + [e.exceptionHandler.value];
          } else {
            assert executed + [] == executed;
          }
          currentEvent := None;
          return;
        }
      }
      if |e.levelToLoad| > 0 {
        sceneChanged := true;
      }
      currentEvent := None;
      ExecuteToExecuteWhenFinished(logger);
    }
  }
}
