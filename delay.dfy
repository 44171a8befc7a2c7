/**
 * The delayed branch of `toRandomLocation`: a one-shot deferred teleport
 * task, the `complete` flag it sets when it starts, and (with cancel-on-move)
 * a repeating watcher that compares the player's position with the snapshot
 * taken when the delay began.
 */
module DelayWatch {
  import opened Locations

  /** The player moved: some coordinate differs from the snapshot. */
  predicate Moved(snapshot: Position, current: Position)
  {
    snapshot.x != current.x || snapshot.y != current.y || snapshot.z != current.z
  }

  datatype DelayState = DelayState(
    complete: bool,       // the AtomicBoolean set when the deferred task starts
    taskCancelled: bool,  // the deferred task was cancelled through its task id
    watching: bool,       // the repeating watcher is scheduled and has not stopped
    snapshot: Position,   // the player's position when the delay began
    cancelNotices: nat,   // teleport-canceled messages sent
    runs: nat)            // times the deferred teleport started

  datatype DelayEvent = WatcherTick(current: Position) | TaskDue

  /** The state when the delay begins; the watcher exists only with cancel-on-move. */
  function Begin(snapshot: Position, cancelOnMove: bool): DelayState
  {
    DelayState(false, false, cancelOnMove, snapshot, 0, 0)
  }

  /** One run of the watcher with the player at `current`; a stopped watcher does not run. */
  function Tick(s: DelayState, current: Position): DelayState
  {
    if !s.watching then s
    else if s.complete then s.(watching := false)
    else if Moved(s.snapshot, current) then
      s.(taskCancelled := true, watching := false, cancelNotices := s.cancelNotices + 1)
    else s
  }

  /**
   * One tick: after the task started the watcher stops without cancelling;
   * before it, a move cancels the task, stops the watcher and sends one notice;
   * otherwise the watcher keeps observing.
   */
  lemma TickCases(s: DelayState, current: Position)
    requires DelayInv(s) && s.watching
    ensures s.complete ==> Tick(s, current) == s.(watching := false)
    ensures !s.complete && Moved(s.snapshot, current) ==>
              var t := Tick(s, current);
              t.taskCancelled && !t.watching && t.cancelNotices == 1 && t.runs == 0
    ensures !s.complete && !Moved(s.snapshot, current) ==> Tick(s, current) == s
  {
  }

  /** The deferred task comes due: it runs once unless it was cancelled. */
  function Due(s: DelayState): DelayState
  {
    if s.taskCancelled || s.complete then s else s.(complete := true, runs := s.runs + 1)
  }

  function Apply(s: DelayState, e: DelayEvent): DelayState
  {
    match e
    case WatcherTick(current) => Tick(s, current)
    case TaskDue => Due(s)
  }

  function RunDelay(s: DelayState, events: seq<DelayEvent>): DelayState
    decreases |events|
  {
    if events == [] then s else RunDelay(Apply(s, events[0]), events[1..])
  }

  /**
   * The teleport runs at most once and exactly when `complete` is set; a
   * cancellation happens at most once, sends exactly one notice, stops the
   * watcher, and never coexists with a run.
   */
  ghost predicate DelayInv(s: DelayState)
  {
    && s.runs == (if s.complete then 1 else 0)
    && s.cancelNotices == (if s.taskCancelled then 1 else 0)
    && !(s.complete && s.taskCancelled)
    && (s.taskCancelled ==> !s.watching)
  }

  lemma {:induction false} RunDelayKeepsInv(s: DelayState, events: seq<DelayEvent>)
    requires DelayInv(s)
    ensures DelayInv(RunDelay(s, events))
    ensures RunDelay(s, events).snapshot == s.snapshot
    decreases |events|
  {
    if events != [] {
      RunDelayKeepsInv(Apply(s, events[0]), events[1..]);
    }
  }

  lemma {:induction false} RunDelayAppend(s: DelayState, a: seq<DelayEvent>, b: seq<DelayEvent>)
    ensures RunDelay(s, a + b) == RunDelay(RunDelay(s, a), b)
    decreases |a|
  {
    if a != [] {
      assert (a + b)[0] == a[0] && (a + b)[1..] == a[1..] + b;
      RunDelayAppend(Apply(s, a[0]), a[1..], b);
    } else {
      assert a + b == b;
    }
  }

  /** Whatever happens after the delay began: at most one run, at most one notice, never both. */
  lemma DelayOutcomes(snapshot: Position, cancelOnMove: bool, events: seq<DelayEvent>)
    ensures var s := RunDelay(Begin(snapshot, cancelOnMove), events);
            && s.runs <= 1 && s.cancelNotices <= 1
            && !(s.runs == 1 && s.cancelNotices == 1)
            && (s.taskCancelled ==> s.runs == 0)
  {
    RunDelayKeepsInv(Begin(snapshot, cancelOnMove), events);
  }

  /** Once the deferred task was cancelled nothing changes any more. */
  lemma {:induction false} CancelIsFinal(s: DelayState, events: seq<DelayEvent>)
    requires DelayInv(s) && s.taskCancelled
    ensures RunDelay(s, events) == s
    decreases |events|
  {
    if events != [] {
      CancelIsFinal(Apply(s, events[0]), events[1..]);
    }
  }

  /** Before the task is due, the watcher is still watching or has already cancelled it. */
  lemma {:induction false} NotDueYet(s: DelayState, events: seq<DelayEvent>)
    requires DelayInv(s) && !s.complete && (s.watching || s.taskCancelled)
    requires TaskDue !in events
    ensures var t := RunDelay(s, events);
            !t.complete && (t.watching || t.taskCancelled)
    decreases |events|
  {
    if events != [] {
      assert events[0] != TaskDue;
      NotDueYet(Apply(s, events[0]), events[1..]);
    }
  }

  /**
   * With cancel-on-move, a tick that sees the player moved before the task
   * came due prevents the teleport for good, with exactly one cancel notice.
   */
  lemma MoveBeforeDueCancels(snapshot: Position, before: seq<DelayEvent>, current: Position, after: seq<DelayEvent>)
    requires TaskDue !in before
    requires Moved(snapshot, current)
    ensures var s := RunDelay(Begin(snapshot, true), before + [WatcherTick(current)] + after);
            s.runs == 0 && s.taskCancelled && s.cancelNotices == 1
  {
    var s0 := Begin(snapshot, true);
    NotDueYet(s0, before);
    RunDelayKeepsInv(s0, before);
    var s1 := RunDelay(s0, before);
    var s2 := Tick(s1, current);
    assert s2.taskCancelled;
    assert DelayInv(s2);
    RunDelayAppend(s0, before, [WatcherTick(current)]);
    assert RunDelay(s1, [WatcherTick(current)]) == s2;
    RunDelayAppend(s0, before + [WatcherTick(current)], after);
    CancelIsFinal(s2, after);
  }

  /** Without cancel-on-move there is no watcher: the task is never cancelled and runs once it is due. */
  lemma {:induction false} NoWatcherNoCancel(s: DelayState, events: seq<DelayEvent>)
    requires DelayInv(s) && !s.watching && !s.taskCancelled
    ensures var t := RunDelay(s, events);
            !t.taskCancelled && t.cancelNotices == 0
            && (TaskDue in events ==> t.runs == 1)
            && (s.complete ==> t.complete)
    decreases |events|
  {
    if events != [] {
      NoWatcherNoCancel(Apply(s, events[0]), events[1..]);
      RunDelayKeepsInv(Apply(s, events[0]), events[1..]);
    }
  }

  /** The deferred task and the watcher, updated in place. */
  class DelayedTeleport {
    const delay: int
    const snapshot: Position
    var complete: bool
    var taskCancelled: bool
    var watching: bool
    ghost var cancelNotices: nat
    ghost var runs: nat

    ghost function State(): DelayState
      reads this
    {
      DelayState(complete, taskCancelled, watching, snapshot, cancelNotices, runs)
    }

    constructor (delay: int, snapshot: Position, cancelOnMove: bool)
      ensures State() == Begin(snapshot, cancelOnMove) && this.delay == delay
    {
      this.delay := delay;
      this.snapshot := snapshot;
      complete, taskCancelled, watching := false, false, cancelOnMove;
      cancelNotices, runs := 0, 0;
    }

    /** One run of the watcher; `notify` says the cancel message is to be sent. */
    method WatcherTick(current: Position) returns (notify: bool)
      modifies this
      ensures State() == Tick(old(State()), current)
      ensures notify <==> cancelNotices == old(cancelNotices) + 1
    {
      notify := false;
      if watching {
        if complete {
          watching := false;
        } else if Moved(snapshot, current) {
          taskCancelled := true;
          watching := false;
          cancelNotices := cancelNotices + 1;
          notify := true;
        }
      }
    }

    /** The deferred task comes due; `run` says the teleport starts now. */
    method TaskDue() returns (run: bool)
      modifies this
      ensures State() == Due(old(State()))
      ensures run <==> runs == old(runs) + 1
    {
      run := !taskCancelled && !complete;
      if run {
        complete := true;
        runs := runs + 1;
      }
    }
  }
}
