/** The loop that turns a session stream into events and heartbeats, as a state machine over its steps.
    It keeps one read of the stream going and, whenever that takes too long, yields a heartbeat. */
module HeartbeatLoop {
  import opened Values

  // ---------- the session stream and the reads of it ----------

  /** A session stream: its events, and whether it then ends or fails. */
  datatype Source<E> = Source(events: seq<E>, fails: bool)

  datatype Read<E> = Got(event: E) | Stopped | Failed

  /** What the n-th read of the stream gives. */
  function ReadAt<E>(source: Source<E>, n: nat): Read<E> {
    if n < |source.events| then Got(source.events[n]) else if source.fails then Failed else Stopped
  }

  datatype Task<E> = Running | Finished(read: Read<E>) | Cancelled

  // ---------- states and steps ----------

  datatype Exit =
    | Ended         // the stream was over
    | Disconnected  // the client had gone
    | Raised        // an exception came out of a read or of the connection check
    | Interrupted   // the loop was cancelled or closed from outside

  /** Where the loop is suspended. */
  datatype Pc = AtTop | Waiting | AtHeartbeat | AtEvent | Exited(how: Exit)

  datatype Yield<E> = Heartbeat | Event(event: E)

  /** All read tasks ever created, the last one being `pending`, and everything yielded so far. */
  datatype State<E> = State(pc: Pc, tasks: seq<Task<E>>, yielded: seq<Yield<E>>) {
    function Pending(): Task<E>
      requires tasks != []
    {
      tasks[|tasks| - 1]
    }

    function WithPending(task: Task<E>): State<E>
      requires tasks != []
    {
      this.(tasks := tasks[|tasks| - 1 := task])
    }
  }

  /** The choices of the environment.  `late` says that a cancelled read finished all the same. */
  datatype Action =
    | ReadFinishes
    | SeesConnected
    | SeesDisconnected(late: bool)
    | CheckFails(late: bool)
    | TimesOut
    | WakesUp
    | Resumes
    | Interrupts(late: bool)

  function Start<E>(): State<E> {
    State(AtTop, [Running], [])
  }

  /** `pending.cancel()` and waiting for the task: it ends, one way or the other. */
  function Settle<E>(source: Source<E>, state: State<E>, late: bool): State<E>
    requires state.tasks != []
  {
    if !state.Pending().Running? then state
    else state.WithPending(if late then Finished(ReadAt(source, |state.tasks| - 1)) else Cancelled)
  }

  /** Leaving through the settled read: the failure of the read comes out instead of the intended exit. */
  function Leave<E>(state: State<E>, how: Exit): State<E>
    requires state.tasks != []
  {
    state.(pc := Exited(if state.Pending() == Finished(Failed) then Raised else how))
  }

  /** The `finally` block: only an unfinished read is cancelled and awaited. */
  function Finalize<E>(source: Source<E>, state: State<E>, late: bool, how: Exit): State<E>
    requires state.tasks != []
  {
    if state.Pending().Running? then Leave(Settle(source, state, late), how) else state.(pc := Exited(how))
  }

  /** One step; None when the action is not possible in the state. */
  function Next<E>(source: Source<E>, state: State<E>, action: Action): (after: Option<State<E>>)
    requires state.tasks != []
    ensures after.Some? ==> after.value.tasks != []
  {
    match action
    case ReadFinishes =>
      if state.pc.Exited? || !state.Pending().Running? then None
      else Some(state.WithPending(Finished(ReadAt(source, |state.tasks| - 1))))
    case SeesConnected =>
      if state.pc != AtTop then None else Some(state.(pc := Waiting))
    case SeesDisconnected(late) =>
      if state.pc != AtTop then None else Some(Leave(Settle(source, state, late), Disconnected))
    case CheckFails(late) =>
      if state.pc != AtTop then None else Some(Finalize(source, state, late, Raised))
    case TimesOut =>
      if state.pc != Waiting || !state.Pending().Running? then None
      else Some(state.(pc := AtHeartbeat, yielded := state.yielded + [Heartbeat]))
    case WakesUp =>
      if state.pc != Waiting || !state.Pending().Finished? then None
      else (
        match state.Pending().read
        case Got(event) => Some(state.(pc := AtEvent, yielded := state.yielded + [Event(event)]))
        case Stopped => Some(state.(pc := Exited(Ended)))
        case Failed => Some(state.(pc := Exited(Raised))))
    case Resumes =>
      if state.pc == AtHeartbeat then Some(state.(pc := AtTop))
      else if state.pc == AtEvent then Some(state.(pc := AtTop, tasks := state.tasks + [Running]))
      else None
    case Interrupts(late) =>
      if state.pc.Exited? then None else Some(Finalize(source, state, late, Interrupted))
  }

  /** The state after a run; None when some action was not possible. */
  function Run<E>(source: Source<E>, actions: seq<Action>): (result: Option<State<E>>)
    ensures result.Some? ==> result.value.tasks != []
  {
    if actions == [] then Some(Start())
    else
      var before := Run(source, actions[..|actions| - 1]);
      if before.None? then None else Next(source, before.value, actions[|actions| - 1])
  }

  // ---------- what every run keeps ----------

  function EventsOf<E>(yielded: seq<Yield<E>>): seq<E> {
    if yielded == [] then []
    else
      var last := yielded[|yielded| - 1];
      EventsOf(yielded[..|yielded| - 1]) + (if last.Event? then [last.event] else [])
  }

  /** The number of events delivered. */
  function Delivered<E>(state: State<E>): nat {
    |EventsOf(state.yielded)|
  }

  ghost predicate Invariant<E>(source: Source<E>, state: State<E>) {
    var last := |state.tasks| - 1;
    && state.tasks != []
    && last <= |source.events|
    && (forall i :: 0 <= i < last ==> state.tasks[i] == Finished(ReadAt(source, i)))
    && (state.tasks[last].Finished? ==> state.tasks[last].read == ReadAt(source, last))
    && (state.tasks[last].Cancelled? ==> state.pc.Exited?)
    && (state.tasks[last].Running? ==> !state.pc.Exited? && state.pc != AtEvent)
    && (state.pc == AtEvent ==> state.tasks[last].Finished? && last < |source.events|)
    && Delivered(state) <= |source.events|
    && EventsOf(state.yielded) == source.events[..Delivered(state)]
    && (Delivered(state) == last || (Delivered(state) == last + 1 && (state.pc == AtEvent || state.pc.Exited?)))
    && (state.pc == AtEvent ==> Delivered(state) == last + 1)
    && (Delivered(state) == last + 1 ==> state.tasks[last].Finished?)
    && (state.pc == Exited(Ended) ==> Delivered(state) == |source.events| && !source.fails)
  }

  lemma YieldAppend<E>(yielded: seq<Yield<E>>, item: Yield<E>)
    ensures EventsOf(yielded + [item]) == EventsOf(yielded) + if item.Event? then [item.event] else []
  {
    assert (yielded + [item])[..|yielded|] == yielded;
  }

  /** The steps that yield something. */
  lemma YieldKeepsInvariant<E>(source: Source<E>, state: State<E>, action: Action)
    requires action.TimesOut? || action.WakesUp?
    requires Invariant(source, state) && Next(source, state, action).Some?
    ensures Invariant(source, Next(source, state, action).value)
  {
    hide EventsOf;
    if action.TimesOut? {
      YieldAppend(state.yielded, Heartbeat);
    } else if state.Pending().read.Got? {
      YieldAppend(state.yielded, Event(state.Pending().read.event));
    }
  }

  lemma NextKeepsInvariant<E>(source: Source<E>, state: State<E>, action: Action)
    requires Invariant(source, state) && Next(source, state, action).Some?
    ensures Invariant(source, Next(source, state, action).value)
  {
    hide EventsOf;
    if action.TimesOut? || action.WakesUp? {
      YieldKeepsInvariant(source, state, action);
    }
  }

  lemma {:induction false} RunKeepsInvariant<E>(source: Source<E>, actions: seq<Action>)
    requires Run(source, actions).Some?
    ensures Invariant(source, Run(source, actions).value)
  {
    if actions != [] {
      RunKeepsInvariant(source, actions[..|actions| - 1]);
      NextKeepsInvariant(source, Run(source, actions[..|actions| - 1]).value, actions[|actions| - 1]);
    }
  }

  /** A step that ends at an event has just delivered it; no other step delivers anything. */
  lemma NextDelivers<E>(source: Source<E>, state: State<E>, action: Action)
    requires state.tasks != [] && Next(source, state, action).Some?
    ensures var after := Next(source, state, action).value;
      && (after.pc == AtEvent && state.pc != AtEvent ==>
            && |after.yielded| == |state.yielded| + 1
            && after.yielded[|after.yielded| - 1].Event?
            && EventsOf(after.yielded) == EventsOf(state.yielded) + [after.yielded[|after.yielded| - 1].event])
      && (after.pc != AtEvent || state.pc == AtEvent ==> EventsOf(after.yielded) == EventsOf(state.yielded))
  {
    hide EventsOf;
    var after := Next(source, state, action).value;
    if after.yielded != state.yielded {
      YieldAppend(state.yielded, after.yielded[|after.yielded| - 1]);
    }
  }

  /** That a read finishes is noticed only later. */
  lemma ReadingStaysPut<E>(source: Source<E>, state: State<E>)
    requires state.tasks != [] && Next(source, state, ReadFinishes).Some?
    ensures var after := Next(source, state, ReadFinishes).value; after.pc == state.pc && after.yielded == state.yielded
  {
  }

  /** The number of events that were read. */
  ghost function EventsRead<E>(tasks: seq<Task<E>>): nat {
    if tasks == [] then 0
    else
      var last := tasks[|tasks| - 1];
      EventsRead(tasks[..|tasks| - 1]) + (if last.Finished? && last.read.Got? then 1 else 0)
  }

  /** In every interleaving: at most one read is outstanding, and none after any exit; the events delivered
      are a beginning of the stream, each once and in order; at most one event was read without being
      delivered, which is final only after an early exit; and the loop ends by itself only when all is delivered. */
  lemma EveryRun<E>(source: Source<E>, actions: seq<Action>)
    requires Run(source, actions).Some?
    ensures var state := Run(source, actions).value;
      && (forall i :: 0 <= i < |state.tasks| - 1 ==> !state.tasks[i].Running?)
      && (state.pc.Exited? ==> forall task :: task in state.tasks ==> !task.Running?)
      && EventsOf(state.yielded) <= source.events
      && Delivered(state) <= EventsRead(state.tasks) <= Delivered(state) + 1
      && (state.pc == Exited(Ended) ==> EventsOf(state.yielded) == source.events && !source.fails)
  {
    hide Run, Invariant, EventsOf, EventsRead;
    RunKeepsInvariant(source, actions);
    InvariantMeans(source, Run(source, actions).value);
    CountReads(source, Run(source, actions).value);
  }

  lemma InvariantMeans<E>(source: Source<E>, state: State<E>)
    requires Invariant(source, state)
    ensures forall i :: 0 <= i < |state.tasks| - 1 ==> !state.tasks[i].Running?
    ensures state.pc.Exited? ==> forall task :: task in state.tasks ==> !task.Running?
    ensures EventsOf(state.yielded) <= source.events
    ensures state.pc == Exited(Ended) ==> EventsOf(state.yielded) == source.events && !source.fails
  {
  }

  lemma CountReads<E>(source: Source<E>, state: State<E>)
    requires Invariant(source, state)
    ensures Delivered(state) <= EventsRead(state.tasks) <= Delivered(state) + 1
  {
    AllReadsCount(source, state.tasks[..|state.tasks| - 1]);
    hide EventsOf;
  }

  lemma {:induction false} AllReadsCount<E>(source: Source<E>, tasks: seq<Task<E>>)
    requires |tasks| <= |source.events|
    requires forall i :: 0 <= i < |tasks| ==> tasks[i] == Finished(ReadAt(source, i))
    ensures EventsRead(tasks) == |tasks|
  {
    if tasks != [] {
      AllReadsCount(source, tasks[..|tasks| - 1]);
    }
  }

  // ---------- how a run ends, and how it goes on ----------

  /** The read that was pending last came back with a failure. */
  predicate ReadFailed<E>(state: State<E>)
    requires state.tasks != []
  {
    state.Pending() == Finished(Failed)
  }

  /** The exit of a run is told by its last action: a disconnection seen, a failing check or an interruption, unless
      the failure of a read comes out instead; or a read that found nothing more, where the source decides whether
      that was the end or a failure.  No other action ends a run. */
  lemma EveryExit<E>(source: Source<E>, actions: seq<Action>)
    requires Run(source, actions).Some? && Run(source, actions).value.pc.Exited?
    ensures actions != []
    ensures var last := |actions| - 1;
      var before, state := Run(source, actions[..last]), Run(source, actions).value;
      && before.Some?
      && (match actions[last]
          case SeesDisconnected(_) => state.pc.how == if ReadFailed(state) then Raised else Disconnected
          case CheckFails(_) => state.pc.how == Raised
          case WakesUp =>
            && Delivered(state) == |source.events|
            && state.pc.how == if source.fails then Raised else Ended
          case Interrupts(_) =>
            state.pc.how == if before.value.Pending().Running? && ReadFailed(state) then Raised else Interrupted
          case _ => false)
      && (ReadFailed(state) ==> source.fails && Delivered(state) == |source.events|)
  {
    var last := |actions| - 1;
    RunKeepsInvariant(source, actions[..last]);
    RunKeepsInvariant(source, actions);
    ExitStep(source, Run(source, actions[..last]).value, actions[last]);
  }

  lemma ExitStep<E>(source: Source<E>, state: State<E>, action: Action)
    requires Invariant(source, state) && Next(source, state, action).Some?
    requires Invariant(source, Next(source, state, action).value)
    requires Next(source, state, action).value.pc.Exited?
    ensures var after := Next(source, state, action).value;
      && (match action
          case SeesDisconnected(_) => after.pc.how == if ReadFailed(after) then Raised else Disconnected
          case CheckFails(_) => after.pc.how == Raised
          case WakesUp =>
            && Delivered(after) == |source.events|
            && after.pc.how == if source.fails then Raised else Ended
          case Interrupts(_) =>
            after.pc.how == if state.Pending().Running? && ReadFailed(after) then Raised else Interrupted
          case _ => false)
      && (ReadFailed(after) ==> source.fails && Delivered(after) == |source.events|)
  {
    hide EventsOf;
  }

  /** Where a run stands, each action is possible exactly when the loop waits for it: a heartbeat goes out only while
      a read is running, a result is taken only when there is one, and no state is stuck. */
  lemma PossibleIff<E>(source: Source<E>, state: State<E>, late: bool)
    requires Invariant(source, state)
    ensures Next(source, state, TimesOut).Some? <==> state.pc == Waiting && state.Pending().Running?
    ensures Next(source, state, WakesUp).Some? <==> state.pc == Waiting && state.Pending().Finished?
    ensures Next(source, state, ReadFinishes).Some? <==> state.Pending().Running?
    ensures Next(source, state, Resumes).Some? <==> state.pc == AtHeartbeat || state.pc == AtEvent
    ensures Next(source, state, SeesConnected).Some? <==> state.pc == AtTop
    ensures Next(source, state, SeesDisconnected(late)).Some? <==> state.pc == AtTop
    ensures Next(source, state, CheckFails(late)).Some? <==> state.pc == AtTop
    ensures Next(source, state, Interrupts(late)).Some? <==> !state.pc.Exited?
  {
    hide EventsOf;
  }

  /** What the actions that do not end the loop do: a new read is started after an event and only then. */
  lemma GoesOn<E>(source: Source<E>, state: State<E>, action: Action)
    requires Invariant(source, state) && Next(source, state, action).Some?
    requires !Next(source, state, action).value.pc.Exited?
    ensures var after := Next(source, state, action).value;
      && (action == SeesConnected ==> after.pc == Waiting)
      && (action == TimesOut ==> after.pc == AtHeartbeat && after.yielded == state.yielded + [Heartbeat])
      && (action == WakesUp ==> after.pc == AtEvent)
      && (action == Resumes ==> after.pc == AtTop)
      && (action == ReadFinishes ==> after.pc == state.pc && after.Pending().Finished?)
      && (action != TimesOut && action != WakesUp ==> after.yielded == state.yielded)
      && |after.tasks| == |state.tasks| + (if action == Resumes && state.pc == AtEvent then 1 else 0)
      && (|after.tasks| > |state.tasks| ==> after.Pending().Running?)
      && (action.SeesConnected? || action.TimesOut? || action.WakesUp? || action.Resumes? || action.ReadFinishes?)
  {
    hide EventsOf;
  }

  /** A read that is still running when the loop is left is cancelled, unless it finishes all the same. */
  lemma LeftoverSettled<E>(source: Source<E>, state: State<E>, action: Action, late: bool)
    requires action in {SeesDisconnected(late), CheckFails(late), Interrupts(late)}
    requires Invariant(source, state) && Next(source, state, action).Some?
    ensures var after := Next(source, state, action).value;
      && |after.tasks| == |state.tasks|
      && after.Pending() ==
         (if !state.Pending().Running? then state.Pending()
          else if late then Finished(ReadAt(source, Delivered(state))) else Cancelled)
  {
    hide EventsOf;
  }

  function Heartbeats<E>(yielded: seq<Yield<E>>): nat {
    if yielded == [] then 0
    else Heartbeats(yielded[..|yielded| - 1]) + (if yielded[|yielded| - 1].Heartbeat? then 1 else 0)
  }

  function Timeouts(actions: seq<Action>): nat {
    if actions == [] then 0
    else Timeouts(actions[..|actions| - 1]) + (if actions[|actions| - 1].TimesOut? then 1 else 0)
  }

  /** There is one heartbeat for every timeout. */
  lemma {:induction false} HeartbeatPerTimeout<E>(source: Source<E>, actions: seq<Action>)
    requires Run(source, actions).Some?
    ensures Heartbeats(Run(source, actions).value.yielded) == Timeouts(actions)
  {
    if actions != [] {
      var last := |actions| - 1;
      HeartbeatPerTimeout(source, actions[..last]);
      var before, state := Run(source, actions[..last]).value, Run(source, actions).value;
      if state.yielded != before.yielded {
        assert state.yielded[..|state.yielded| - 1] == before.yielded;
      }
    }
  }

  /** A step yields a heartbeat, stops there, and yields nothing else; or it yields none. */
  lemma YieldsAtMost<E>(source: Source<E>, state: State<E>, action: Action)
    requires state.tasks != [] && Next(source, state, action).Some?
    ensures var after := Next(source, state, action).value;
      Heartbeats(after.yielded) == Heartbeats(state.yielded)
        + (if after.pc.AtHeartbeat? && !state.pc.AtHeartbeat? then 1 else 0)
  {
    var after := Next(source, state, action).value;
    if after.yielded != state.yielded {
      assert after.yielded[..|after.yielded| - 1] == state.yielded;
    }
  }

  // ---------- the loop as an object ----------

  /** The suspended loop: `pending` is reassigned when an event has been delivered. */
  class Loop<E> {
    const source: Source<E>
    var pc: Pc
    var pending: Task<E>
    ghost var earlier: seq<Task<E>>
    ghost var yielded: seq<Yield<E>>

    ghost function Abstract(): (state: State<E>)
      reads this
      ensures state.tasks != []
    {
      State(pc, earlier + [pending], yielded)
    }

    constructor (source: Source<E>)
      ensures this.source == source && Abstract() == Start()
    {
      this.source := source;
      pc, pending, earlier, yielded := AtTop, Running, [], [];
    }

    /** Takes one step; what it yields, if it yields, is returned. */
    method Take(action: Action, read: Read<E>) returns (item: Option<Yield<E>>)
      requires Next(source, Abstract(), action).Some?
      requires read == ReadAt(source, |earlier|)
      modifies this
      ensures Abstract() == Next(source, old(Abstract()), action).value
      ensures yielded == old(yielded) + if item.Some? then [item.value] else []
    {
      item := None;
      match action {
        case ReadFinishes =>
          pending := Finished(read);
        case SeesConnected =>
          pc := Waiting;
        case SeesDisconnected(late) =>
          Cancel(late, read);
          pc := Exited(if pending == Finished(Failed) then Raised else Disconnected);
        case CheckFails(late) =>
          Finally(late, read, Raised);
        case TimesOut =>
          pc := AtHeartbeat;
          item := Some(Heartbeat);
          yielded := yielded + [Heartbeat];
        case WakesUp =>
          match pending.read {
            case Got(event) =>
              pc := AtEvent;
              item := Some(Event(event));
              yielded := yielded + [Event(event)];
            case Stopped =>
              pc := Exited(Ended);
            case Failed =>
              pc := Exited(Raised);
          }
        case Resumes =>
          if pc == AtEvent {
            earlier := earlier + [pending];
            pending := Running;
          }
          pc := AtTop;
        case Interrupts(late) =>
          Finally(late, read, Interrupted);
      }
    }

    method Cancel(late: bool, read: Read<E>)
      modifies this`pending
      ensures pending == if !old(pending).Running? then old(pending) else if late then Finished(read) else Cancelled
    {
      if pending.Running? {
        pending := if late then Finished(read) else Cancelled;
      }
    }

    method Finally(late: bool, read: Read<E>, how: Exit)
      modifies this`pending, this`pc
      ensures pending == if !old(pending).Running? then old(pending) else if late then Finished(read) else Cancelled
      ensures pc == Exited(if old(pending).Running? && pending == Finished(Failed) then Raised else how)
    {
      pc := Exited(how);
      if pending.Running? {
        Cancel(late, read);
        if pending == Finished(Failed) {
          pc := Exited(Raised);
        }
      }
    }
  }
}
