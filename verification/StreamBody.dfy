/** The body of a streaming chat response: which frames are sent, in every run. */
module StreamBody {
  import opened Keys
  import opened Values
  import opened Sse
  import EventStream
  import HeartbeatLoop

  type Source = HeartbeatLoop.Source<SessionEvent>

  type Project = Section -> Option<Section>

  /** What is fixed when the body starts.  An empty session id means that there is none. */
  datatype Setup = Setup(
    first: SessionEvent, source: Source, traceId: string, sessionId: string, settings: Settings, project: Project)

  /** A sent frame, with the reason for sending it. */
  datatype Sent =
    | FromEvent(frame: Frame)
    | InsertedHeartbeat(frame: Frame)
    | SyntheticCompleted(frame: Frame)
    | SyntheticError(frame: Frame)

  /** How the body came to its end. */
  datatype Ending =
    | AfterTerminalEvent(shown: bool)  // a completed or error event was handled, and perhaps shown
    | AfterCompleted                   // the stream was over; a completed frame was added
    | NothingToComplete                // the stream was over, but the client had gone or there is no session
    | AfterError                       // an exception; an error frame was added
    | Aborted                          // cancelled or closed from outside

  /** Where the body is suspended. */
  datatype Pc =
    | Encoding(event: SessionEvent)
    | Sending(event: SessionEvent)
    | InLoop
    | SendingHeartbeat
    | Checking
    | SendingCompleted
    | SendingError
    | Done(how: Ending)

  datatype Status = StatusCompleted | StatusFailed | StatusCancelled

  /** `denied` records the policy decisions taken so far, one per handled event. */
  datatype State = State(
    pc: Pc, sent: seq<Sent>, terminalEventSent: bool, status: Status,
    loop: HeartbeatLoop.State<SessionEvent>, denied: seq<bool>)

  /** The choices of the environment. */
  datatype Signal =
    | PolicyAnswers(denied: bool)
    | CallFails
    | ClientResumes
    | LoopSteps(action: HeartbeatLoop.Action)
    | ConnectionAnswers(disconnected: bool, durationMs: nat)
    | IsCancelled
    | IsClosed

  function Start(setup: Setup): State {
    State(Encoding(setup.first), [], false, StatusCompleted, HeartbeatLoop.Start(), [])
  }

  /** After an event was handled: a terminal one ends the body, after any other the loop goes on, or starts. */
  function AfterEvent(setup: Setup, state: State, event: SessionEvent, shown: bool): (after: Option<State>)
    requires state.loop.tasks != []
    ensures after.Some? ==> after.value.loop.tasks != []
  {
    if event.eventType.ResponseError? then
      Some(state.(pc := Done(AfterTerminalEvent(shown)), terminalEventSent := true, status := StatusFailed))
    else if event.eventType.ResponseCompleted? then
      Some(state.(pc := Done(AfterTerminalEvent(shown)), terminalEventSent := true))
    else if |state.denied| <= 1 then
      Some(state.(pc := InLoop))
    else
      ResumeLoop(setup, state)
  }

  function ResumeLoop(setup: Setup, state: State): (after: Option<State>)
    requires state.loop.tasks != []
    ensures after.Some? ==> after.value.loop.tasks != []
  {
    var loop := HeartbeatLoop.Next(setup.source, state.loop, HeartbeatLoop.Resumes);
    if loop.None? then None else Some(state.(pc := InLoop, loop := loop.value))
  }

  /** The `except Exception` branch. */
  function OnException(setup: Setup, state: State): State {
    var frame := SyntheticError(StreamErrorFrame(setup.traceId, setup.sessionId));
    state.(pc := SendingError, sent := state.sent + [frame], status := StatusFailed)
  }

  /** Leaving at once.  A cancellation is noted, unless it hits the exception branch. */
  function Abort(state: State, cancelled: bool): State {
    var status := if cancelled && !state.pc.SendingError? then StatusCancelled else state.status;
    state.(pc := Done(Aborted), status := status)
  }

  /** What the body does with a step of the loop. */
  function AfterLoopStep(setup: Setup, state: State, loop: HeartbeatLoop.State<SessionEvent>): State {
    var stepped := state.(loop := loop);
    match loop.pc
    case AtHeartbeat =>
      var frame := InsertedHeartbeat(HeartbeatFrame(setup.traceId, setup.settings));
      stepped.(pc := SendingHeartbeat, sent := stepped.sent + [frame])
    case AtEvent =>
      if loop.yielded != [] && loop.yielded[|loop.yielded| - 1].Event?
      then stepped.(pc := Encoding(loop.yielded[|loop.yielded| - 1].event)) else stepped
    case Exited(Raised) => OnException(setup, stepped)
    case Exited(Interrupted) => Abort(stepped, true)
    case Exited(_) =>
      if setup.sessionId != "" then stepped.(pc := Checking) else stepped.(pc := Done(NothingToComplete))
    case _ => stepped
  }

  /** One step; None when the signal is not possible in the state. */
  function Next(setup: Setup, state: State, signal: Signal): (after: Option<State>)
    requires state.loop.tasks != []
    ensures after.Some? ==> after.value.loop.tasks != []
  {
    match signal
    case PolicyAnswers(denied) =>
      if !state.pc.Encoding? then None
      else
        var event := state.pc.event;
        var frame := if denied then None else EncodeEvent(event, setup.settings, setup.project);
        var handled := state.(denied := state.denied + [denied]);
        if frame.Some? then Some(handled.(pc := Sending(event), sent := handled.sent + [FromEvent(frame.value)]))
        else AfterEvent(setup, handled, event, false)
    case CallFails =>
      if state.pc.Encoding? || state.pc.Checking? then Some(OnException(setup, state)) else None
    case ClientResumes =>
      if state.pc.Sending? then AfterEvent(setup, state, state.pc.event, true)
      else if state.pc.SendingHeartbeat? then ResumeLoop(setup, state)
      else if state.pc.SendingCompleted? then Some(state.(pc := Done(AfterCompleted), terminalEventSent := true))
      else if state.pc.SendingError? then Some(state.(pc := Done(AfterError)))
      else None
    case LoopSteps(action) =>
      var loop := HeartbeatLoop.Next(setup.source, state.loop, action);
      if loop.None? then None
      else if state.pc.InLoop? then Some(AfterLoopStep(setup, state, loop.value))
      else if state.pc.SendingHeartbeat? && action.ReadFinishes? then Some(state.(loop := loop.value))
      else None
    case ConnectionAnswers(disconnected, durationMs) =>
      if !state.pc.Checking? then None
      else if disconnected then Some(state.(pc := Done(NothingToComplete)))
      else
        var frame := CompletedFrame(setup.traceId, setup.sessionId, durationMs, setup.settings);
        Some(state.(pc := SendingCompleted, sent := state.sent + [SyntheticCompleted(frame)]))
    case IsCancelled =>
      if state.pc.InLoop? || state.pc.Done? then None else Some(Abort(state, true))
    case IsClosed =>
      if IsSending(state.pc) then Some(Abort(state, false)) else None
  }

  predicate IsSending(pc: Pc) {
    pc.Sending? || pc.SendingHeartbeat? || pc.SendingCompleted? || pc.SendingError?
  }

  /** The state after a run; None when some signal was not possible. */
  function Run(setup: Setup, signals: seq<Signal>): (result: Option<State>)
    ensures result.Some? ==> result.value.loop.tasks != []
  {
    if signals == [] then Some(Start(setup))
    else
      var before := Run(setup, signals[..|signals| - 1]);
      if before.None? then None else Next(setup, before.value, signals[|signals| - 1])
  }

  // ---------- what the frames are ----------

  function Stream(setup: Setup): seq<SessionEvent> {
    [setup.first] + setup.source.events
  }

  /** The frames of events that are neither denied nor without a public form, in order. */
  function Encodings(setup: Setup, events: seq<SessionEvent>, denied: seq<bool>): seq<Frame>
    requires |events| == |denied|
  {
    if events == [] then []
    else
      var last := |events| - 1;
      var frame := EncodeEvent(events[last], setup.settings, setup.project);
      Encodings(setup, events[..last], denied[..last])
      + (if !denied[last] && frame.Some? then [frame.value] else [])
  }

  /** What is left of the sent frames without inserted heartbeats and synthetic frames. */
  function Shown(sent: seq<Sent>): seq<Frame> {
    if sent == [] then []
    else
      var last := |sent| - 1;
      Shown(sent[..last]) + (if sent[last].FromEvent? then [sent[last].frame] else [])
  }

  predicate IsFinal(sent: Sent) {
    IsTerminal(sent.frame.event)
  }

  ghost predicate NoneFinal(sent: seq<Sent>) {
    forall i :: 0 <= i < |sent| ==> !IsFinal(sent[i])
  }

  /** The last frame ends the stream, and is the only one to do so. */
  ghost predicate EndsFinal(sent: seq<Sent>) {
    sent != [] && IsFinal(sent[|sent| - 1]) && NoneFinal(sent[..|sent| - 1])
  }

  // ---------- what every run keeps ----------

  /** Where the body and its loop stand in the stream, after `|denied|` handled events. */
  ghost predicate Placed(setup: Setup, state: State) {
    var n, stream := |state.denied|, Stream(setup);
    && HeartbeatLoop.Invariant(setup.source, state.loop)
    && n <= |stream|
    && match state.pc
       case Encoding(event) =>
         && n < |stream|
         && event == stream[n]
         && Delivers(state.loop, n)
       case Sending(event) =>
         && n >= 1
         && event == stream[n - 1]
         && Delivers(state.loop, n - 1)
       case InLoop =>
         n >= 1 && HeartbeatLoop.Delivered(state.loop) == n - 1 && (state.loop.pc.AtTop? || state.loop.pc.Waiting?)
       case SendingHeartbeat => n >= 1 && HeartbeatLoop.Delivered(state.loop) == n - 1 && state.loop.pc.AtHeartbeat?
       case Checking => setup.sessionId != "" && Quiet(state.loop)
       case Done(AfterTerminalEvent(_)) => n >= 1 && Quiet(state.loop)
       case Done(Aborted) => true
       case _ => Quiet(state.loop)
  }

  /** The loop has not started, stands at an event, or is over: nothing is being read. */
  ghost predicate Quiet(loop: HeartbeatLoop.State<SessionEvent>) {
    loop == HeartbeatLoop.Start() || loop.pc.AtEvent? || loop.pc.Exited?
  }

  /** The loop has not started, or stands at its n-th event. */
  ghost predicate Delivers(loop: HeartbeatLoop.State<SessionEvent>, n: nat) {
    if n == 0 then loop == HeartbeatLoop.Start()
    else loop.pc.AtEvent? && HeartbeatLoop.Delivered(loop) == n
  }

  lemma ResumeKeepsPlaced(setup: Setup, state: State)
    requires HeartbeatLoop.Invariant(setup.source, state.loop)
    requires HeartbeatLoop.Delivered(state.loop) == |state.denied| - 1
    requires ResumeLoop(setup, state).Some?
    ensures Placed(setup, ResumeLoop(setup, state).value)
  {
    hide HeartbeatLoop.EventsOf;
    HeartbeatLoop.NextKeepsInvariant(setup.source, state.loop, HeartbeatLoop.Resumes);
    HeartbeatLoop.NextDelivers(setup.source, state.loop, HeartbeatLoop.Resumes);
  }

  lemma EventKeepsPlaced(setup: Setup, state: State, event: SessionEvent, shown: bool)
    requires HeartbeatLoop.Invariant(setup.source, state.loop)
    requires 1 <= |state.denied| <= |Stream(setup)|
    requires Delivers(state.loop, |state.denied| - 1)
    requires AfterEvent(setup, state, event, shown).Some?
    ensures Placed(setup, AfterEvent(setup, state, event, shown).value)
  {
    hide HeartbeatLoop.Invariant, ResumeLoop;
    if !IsTerminal(event.eventType) && |state.denied| > 1 {
      ResumeKeepsPlaced(setup, state);
    }
  }

  lemma NextKeepsPlaced(setup: Setup, state: State, signal: Signal)
    requires Placed(setup, state) && Next(setup, state, signal).Some?
    ensures Placed(setup, Next(setup, state, signal).value)
  {
    hide EncodeEvent, HeartbeatLoop.EventsOf, HeartbeatLoop.Next, ResumeLoop, AfterEvent;
    match signal {
      case LoopSteps(action) =>
        LoopStepKeepsPlaced(setup, state, action);
      case PolicyAnswers(denied) =>
        var handled := state.(denied := state.denied + [denied]);
        if AfterEvent(setup, handled, state.pc.event, false).Some? {
          EventKeepsPlaced(setup, handled, state.pc.event, false);
        }
      case ClientResumes =>
        if state.pc.Sending? {
          EventKeepsPlaced(setup, state, state.pc.event, true);
        } else if state.pc.SendingHeartbeat? {
          ResumeKeepsPlaced(setup, state);
        }
      case _ =>
    }
  }

  lemma LoopStepKeepsPlaced(setup: Setup, state: State, action: HeartbeatLoop.Action)
    requires Placed(setup, state) && Next(setup, state, LoopSteps(action)).Some?
    ensures Placed(setup, Next(setup, state, LoopSteps(action)).value)
  {
    hide EncodeEvent, HeartbeatLoop.EventsOf, HeartbeatLoop.Next;
    HeartbeatLoop.NextKeepsInvariant(setup.source, state.loop, action);
    HeartbeatLoop.NextDelivers(setup.source, state.loop, action);
    if action.ReadFinishes? {
      HeartbeatLoop.ReadingStaysPut(setup.source, state.loop);
    }
  }

  /** The shown frames are those of the events handled so far. */
  ghost predicate Framed(setup: Setup, state: State) {
    && |state.denied| <= |Stream(setup)|
    && Shown(state.sent) == Encodings(setup, Stream(setup)[..|state.denied|], state.denied)
  }

  ghost predicate AllWellMade(setup: Setup, state: State) {
    forall i :: 0 <= i < |state.sent| ==> WellMade(setup, state.sent[i])
  }

  /** A frame that shows no event is one the body makes itself. */
  ghost predicate WellMade(setup: Setup, sent: Sent) {
    match sent
    case FromEvent(_) => true
    case InsertedHeartbeat(frame) => frame == HeartbeatFrame(setup.traceId, setup.settings)
    case SyntheticCompleted(frame) =>
      && setup.sessionId != ""
      && exists durationMs: nat :: frame == CompletedFrame(setup.traceId, setup.sessionId, durationMs, setup.settings)
    case SyntheticError(frame) => frame == StreamErrorFrame(setup.traceId, setup.sessionId)
  }

  lemma ShownAppend(sent: seq<Sent>, next: Sent)
    ensures Shown(sent + [next]) == Shown(sent) + if next.FromEvent? then [next.frame] else []
  {
    assert (sent + [next])[..|sent|] == sent;
  }

  lemma EncodingsAppend(setup: Setup, denied: seq<bool>, answer: bool)
    requires |denied| < |Stream(setup)|
    ensures var n, stream := |denied|, Stream(setup);
      var frame := EncodeEvent(stream[n], setup.settings, setup.project);
      Encodings(setup, stream[..n + 1], denied + [answer])
      == Encodings(setup, stream[..n], denied) + if !answer && frame.Some? then [frame.value] else []
  {
    hide EncodeEvent;
    var n, stream := |denied|, Stream(setup);
    assert stream[..n + 1][..n] == stream[..n] && (denied + [answer])[..n] == denied;
  }

  lemma AnswerKeepsFramed(setup: Setup, state: State, denied: bool)
    requires Placed(setup, state) && Framed(setup, state) && Next(setup, state, PolicyAnswers(denied)).Some?
    ensures Framed(setup, Next(setup, state, PolicyAnswers(denied)).value)
  {
    hide EncodeEvent, HeartbeatLoop.Next, HeartbeatLoop.EventsOf, Shown, Encodings;
    var frame := EncodeEvent(state.pc.event, setup.settings, setup.project);
    EncodingsAppend(setup, state.denied, denied);
    if frame.Some? {
      ShownAppend(state.sent, FromEvent(frame.value));
    }
  }

  /** Only an answer of the policy makes an event shown. */
  lemma OthersShowNothing(setup: Setup, state: State, signal: Signal)
    requires state.loop.tasks != []
    requires !signal.PolicyAnswers? && Next(setup, state, signal).Some?
    ensures var after := Next(setup, state, signal).value;
      && after.denied == state.denied
      && (after.sent == state.sent
          || exists next: Sent :: !next.FromEvent? && after.sent == state.sent + [next])
  {
    hide EncodeEvent, HeartbeatLoop.Next, CompletedFrame, HeartbeatFrame, StreamErrorFrame;
    var after := Next(setup, state, signal).value;
    if after.sent != state.sent {
      assert after.sent == state.sent + [after.sent[|state.sent|]];
    }
  }

  lemma NextKeepsFramed(setup: Setup, state: State, signal: Signal)
    requires Placed(setup, state) && Framed(setup, state) && Next(setup, state, signal).Some?
    ensures Framed(setup, Next(setup, state, signal).value)
  {
    if signal.PolicyAnswers? {
      AnswerKeepsFramed(setup, state, signal.denied);
    } else {
      hide Next, Shown, Encodings, Stream, HeartbeatLoop.EventsOf;
      OthersShowNothing(setup, state, signal);
      var after := Next(setup, state, signal).value;
      if after.sent != state.sent {
        var next: Sent :| !next.FromEvent? && after.sent == state.sent + [next];
        ShownAppend(state.sent, next);
      }
    }
  }

  lemma NextKeepsWellMade(setup: Setup, state: State, signal: Signal)
    requires Placed(setup, state) && AllWellMade(setup, state) && Next(setup, state, signal).Some?
    ensures AllWellMade(setup, Next(setup, state, signal).value)
  {
    hide EncodeEvent, HeartbeatLoop.Next, HeartbeatLoop.EventsOf;
    hide Shown, Encodings, CompletedFrame, HeartbeatFrame, StreamErrorFrame, Stream;
    var after := Next(setup, state, signal).value;
    if after.sent != state.sent {
      assert after.sent == state.sent + [after.sent[|state.sent|]];
      assert WellMade(setup, after.sent[|state.sent|]);
    }
  }

  /** None of the first n events is a terminal one. */
  ghost predicate NoneTerminal(setup: Setup, n: nat)
    requires n <= |Stream(setup)|
  {
    forall i :: 0 <= i < n ==> !IsTerminal(Stream(setup)[i].eventType)
  }

  lemma OneMoreEvent(setup: Setup, n: nat)
    requires n < |Stream(setup)|
    ensures NoneTerminal(setup, n + 1) <==> NoneTerminal(setup, n) && !IsTerminal(Stream(setup)[n].eventType)
  {
  }

  /** Only the last handled event can be a terminal one, and what follows depends on it. */
  ghost predicate Ordered(setup: Setup, state: State)
    requires |state.denied| <= |Stream(setup)|
  {
    var n, stream := |state.denied|, Stream(setup);
    match state.pc
    case Sending(event) => n >= 1 && NoneTerminal(setup, n - 1) && event == stream[n - 1] && !state.denied[n - 1]
    case Done(AfterTerminalEvent(shown)) =>
      && n >= 1
      && NoneTerminal(setup, n - 1)
      && IsTerminal(stream[n - 1].eventType)
      && shown == !state.denied[n - 1]
    case Done(Aborted) => n >= 1 ==> NoneTerminal(setup, n - 1)
    case _ => NoneTerminal(setup, n)
  }

  lemma EventKeepsOrdered(setup: Setup, state: State, event: SessionEvent, shown: bool)
    requires state.loop.tasks != []
    requires 1 <= |state.denied| <= |Stream(setup)|
    requires event == Stream(setup)[|state.denied| - 1] && NoneTerminal(setup, |state.denied| - 1)
    requires IsTerminal(event.eventType) ==> shown == !state.denied[|state.denied| - 1]
    requires AfterEvent(setup, state, event, shown).Some?
    ensures AfterEvent(setup, state, event, shown).value.denied == state.denied
    ensures Ordered(setup, AfterEvent(setup, state, event, shown).value)
  {
    hide HeartbeatLoop.Next, Stream, NoneTerminal;
    OneMoreEvent(setup, |state.denied| - 1);
  }

  lemma NextKeepsOrdered(setup: Setup, state: State, signal: Signal)
    requires Placed(setup, state) && Ordered(setup, state) && Next(setup, state, signal).Some?
    ensures |Next(setup, state, signal).value.denied| <= |Stream(setup)|
    ensures Ordered(setup, Next(setup, state, signal).value)
  {
    hide EncodeEvent, HeartbeatLoop.Next, HeartbeatLoop.EventsOf, CompletedFrame, HeartbeatFrame, StreamErrorFrame;
    hide Stream, NoneTerminal, AfterEvent;
    if |state.denied| > 0 {
      OneMoreEvent(setup, |state.denied| - 1);
    }
    if state.pc.Encoding? && signal.PolicyAnswers? {
      FrameOfEvent(state.pc.event, setup.settings, setup.project);
      var handled := state.(denied := state.denied + [signal.denied]);
      if signal.denied || EncodeEvent(state.pc.event, setup.settings, setup.project).None? {
        EventKeepsOrdered(setup, handled, state.pc.event, false);
      }
    } else if state.pc.Sending? && signal.ClientResumes? {
      EventKeepsOrdered(setup, state, state.pc.event, true);
    }
  }

  lemma FinalAppend(sent: seq<Sent>, next: Sent)
    requires NoneFinal(sent)
    ensures if IsFinal(next) then EndsFinal(sent + [next]) else NoneFinal(sent + [next])
  {
    assert (sent + [next])[..|sent|] == sent;
  }

  /** A final frame is sent at once before the body ends, or never. */
  ghost predicate Finished(state: State) {
    match state.pc
    case Sending(event) => if IsTerminal(event.eventType) then EndsFinal(state.sent) else NoneFinal(state.sent)
    case SendingCompleted => EndsFinal(state.sent)
    case SendingError => EndsFinal(state.sent)
    case Done(AfterTerminalEvent(shown)) => if shown then EndsFinal(state.sent) else NoneFinal(state.sent)
    case Done(AfterCompleted) => EndsFinal(state.sent)
    case Done(AfterError) => EndsFinal(state.sent)
    case Done(Aborted) => NoneFinal(state.sent) || EndsFinal(state.sent)
    case _ => NoneFinal(state.sent)
  }

  lemma EventKeepsFinished(setup: Setup, state: State, event: SessionEvent, shown: bool)
    requires state.loop.tasks != []
    requires if IsTerminal(event.eventType) && shown then EndsFinal(state.sent) else NoneFinal(state.sent)
    requires AfterEvent(setup, state, event, shown).Some?
    ensures AfterEvent(setup, state, event, shown).value.sent == state.sent
    ensures Finished(AfterEvent(setup, state, event, shown).value)
  {
    hide HeartbeatLoop.Next, NoneFinal, EndsFinal;
  }

  lemma AnswerKeepsFinished(setup: Setup, state: State, denied: bool)
    requires state.loop.tasks != []
    requires Finished(state) && Next(setup, state, PolicyAnswers(denied)).Some?
    ensures Finished(Next(setup, state, PolicyAnswers(denied)).value)
  {
    hide EncodeEvent, NoneFinal, EndsFinal, AfterEvent;
    FrameOfEvent(state.pc.event, setup.settings, setup.project);
    var frame := EncodeEvent(state.pc.event, setup.settings, setup.project);
    if denied || frame.None? {
      EventKeepsFinished(setup, state.(denied := state.denied + [denied]), state.pc.event, false);
    } else {
      FinalAppend(state.sent, FromEvent(frame.value));
    }
  }

  lemma LoopStepKeepsFinished(setup: Setup, state: State, loop: HeartbeatLoop.State<SessionEvent>)
    requires NoneFinal(state.sent) && state.pc.InLoop?
    ensures Finished(AfterLoopStep(setup, state, loop))
  {
    hide NoneFinal, EndsFinal;
    var after := AfterLoopStep(setup, state, loop);
    if after.sent != state.sent {
      FinalAppend(state.sent, after.sent[|state.sent|]);
    }
  }

  lemma NextKeepsFinished(setup: Setup, state: State, signal: Signal)
    requires state.loop.tasks != []
    requires Finished(state) && Next(setup, state, signal).Some?
    ensures Finished(Next(setup, state, signal).value)
  {
    hide EncodeEvent, HeartbeatLoop.Next, NoneFinal, EndsFinal, AfterEvent, AfterLoopStep;
    if signal.PolicyAnswers? {
      AnswerKeepsFinished(setup, state, signal.denied);
    } else if state.pc.InLoop? && signal.LoopSteps? {
      LoopStepKeepsFinished(setup, state, HeartbeatLoop.Next(setup.source, state.loop, signal.action).value);
    } else if state.pc.Sending? && signal.ClientResumes? {
      EventKeepsFinished(setup, state, state.pc.event, true);
    } else {
      var after := Next(setup, state, signal).value;
      if after.sent != state.sent {
        FinalAppend(state.sent, after.sent[|state.sent|]);
      }
    }
  }

  /** What the body has on record about its end. */
  ghost predicate Recorded(setup: Setup, state: State) {
    var n, stream := |state.denied|, Stream(setup);
    && (state.terminalEventSent <==>
          state.pc.Done? && (state.pc.how.AfterTerminalEvent? || state.pc.how.AfterCompleted?))
    && match state.pc
       case Done(AfterTerminalEvent(_)) =>
         && 1 <= n <= |stream|
         && state.status == if stream[n - 1].eventType.ResponseError? then StatusFailed else StatusCompleted
       case SendingError => state.status == StatusFailed
       case Done(AfterError) => state.status == StatusFailed
       case Done(Aborted) => true
       case _ => state.status == StatusCompleted
  }

  lemma NextKeepsRecorded(setup: Setup, state: State, signal: Signal)
    requires Placed(setup, state) && Recorded(setup, state) && Next(setup, state, signal).Some?
    ensures Recorded(setup, Next(setup, state, signal).value)
  {
    hide EncodeEvent, HeartbeatLoop.Next, HeartbeatLoop.EventsOf, CompletedFrame, HeartbeatFrame, StreamErrorFrame;
    hide Stream;
  }

  ghost predicate Invariant(setup: Setup, state: State) {
    && Placed(setup, state)
    && Framed(setup, state)
    && AllWellMade(setup, state)
    && Ordered(setup, state)
    && Finished(state)
    && Recorded(setup, state)
  }

  lemma StartKeepsInvariant(setup: Setup)
    ensures Invariant(setup, Start(setup))
  {
    assert HeartbeatLoop.Invariant(setup.source, HeartbeatLoop.Start<SessionEvent>());
  }

  lemma {:induction false} RunKeepsInvariant(setup: Setup, signals: seq<Signal>)
    requires Run(setup, signals).Some?
    ensures Invariant(setup, Run(setup, signals).value)
  {
    hide Framed, AllWellMade, Ordered, Finished, Recorded, Next, Start;
    if signals == [] {
      StartKeepsInvariant(setup);
    } else {
      var before, signal := signals[..|signals| - 1], signals[|signals| - 1];
      RunKeepsInvariant(setup, before);
      var state := Run(setup, before).value;
      NextKeepsPlaced(setup, state, signal);
      NextKeepsFramed(setup, state, signal);
      NextKeepsWellMade(setup, state, signal);
      NextKeepsOrdered(setup, state, signal);
      NextKeepsFinished(setup, state, signal);
      NextKeepsRecorded(setup, state, signal);
    }
  }

  // ---------- what leads to an ending ----------

  datatype Reply = Reply(disconnected: bool, durationMs: nat)

  /** The last answer to the question whether the client has gone. */
  function LastAnswer(signals: seq<Signal>): Option<Reply> {
    if signals == [] then None
    else
      var last := |signals| - 1;
      if signals[last].ConnectionAnswers? then Some(Reply(signals[last].disconnected, signals[last].durationMs))
      else LastAnswer(signals[..last])
  }

  /** The answers of the policy, in order. */
  function PolicyAnswersIn(signals: seq<Signal>): seq<bool> {
    if signals == [] then []
    else
      var last := |signals| - 1;
      PolicyAnswersIn(signals[..last]) + if signals[last].PolicyAnswers? then [signals[last].denied] else []
  }

  ghost predicate SawDisconnection(signals: seq<Signal>) {
    exists signal :: signal in signals && signal.LoopSteps? && signal.action.SeesDisconnected?
  }

  ghost predicate SawFailingCheck(signals: seq<Signal>) {
    exists signal :: signal in signals && signal.LoopSteps? && signal.action.CheckFails?
  }

  /** The loop has come to its end by itself, or because the client had gone. */
  predicate StreamOver(loop: HeartbeatLoop.State<SessionEvent>) {
    loop.pc == HeartbeatLoop.Exited(HeartbeatLoop.Ended) || loop.pc == HeartbeatLoop.Exited(HeartbeatLoop.Disconnected)
  }

  /** The exit of the loop, told by the signals and the stream. */
  ghost predicate LoopExitCaused(setup: Setup, signals: seq<Signal>, state: State) {
    state.loop.pc.Exited? ==>
      match state.loop.pc.how
      case Ended => !setup.source.fails && |state.denied| == |Stream(setup)|
      case Disconnected => SawDisconnection(signals)
      case Raised => setup.source.fails || SawFailingCheck(signals)
      case Interrupted => true
  }

  /** Where the body stands, told by the exit of the loop and the last answer. */
  ghost predicate PlaceCaused(setup: Setup, signals: seq<Signal>, state: State) {
    var answer, exit := LastAnswer(signals), state.loop.pc;
    match state.pc
    case Checking => answer.None? && StreamOver(state.loop)
    case SendingCompleted =>
      StreamOver(state.loop) && setup.sessionId != "" && answer.Some? && !answer.value.disconnected
    case SendingError =>
      && answer.None?
      && (CallFails in signals || exit == HeartbeatLoop.Exited(HeartbeatLoop.Raised))
      && (StreamOver(state.loop) ==> setup.sessionId != "")
    case Done(AfterCompleted) =>
      StreamOver(state.loop) && setup.sessionId != "" && answer.Some? && !answer.value.disconnected
    case Done(NothingToComplete) =>
      && StreamOver(state.loop)
      && (if setup.sessionId == "" then answer.None? else answer.Some? && answer.value.disconnected)
    case Done(AfterError) =>
      && answer.None?
      && (CallFails in signals || exit == HeartbeatLoop.Exited(HeartbeatLoop.Raised))
      && (StreamOver(state.loop) ==> setup.sessionId != "")
    case Done(Aborted) => true
    case _ => answer.None? && !exit.Exited?
  }

  /** The synthetic completed frame has the duration measured with the answer. */
  ghost predicate CompletionCaused(setup: Setup, signals: seq<Signal>, state: State) {
    state.pc.SendingCompleted? || state.pc == Done(AfterCompleted) ==>
      && state.sent != []
      && LastAnswer(signals).Some?
      && state.sent[|state.sent| - 1] == SyntheticCompleted(
           CompletedFrame(setup.traceId, setup.sessionId, LastAnswer(signals).value.durationMs, setup.settings))
  }

  lemma NextKeepsLoopExit(setup: Setup, signals: seq<Signal>, state: State, signal: Signal)
    requires Placed(setup, state) && PlaceCaused(setup, signals, state) && LoopExitCaused(setup, signals, state)
    requires Next(setup, state, signal).Some? && Placed(setup, Next(setup, state, signal).value)
    ensures LoopExitCaused(setup, signals + [signal], Next(setup, state, signal).value)
  {
    SeenStays(signals, signal);
    hide SawDisconnection, SawFailingCheck, LastAnswer, EncodeEvent, HeartbeatLoop.EventsOf, HeartbeatLoop.Next;
    hide CompletedFrame, HeartbeatFrame, StreamErrorFrame;
    if signal.LoopSteps? {
      HeartbeatLoop.NextKeepsInvariant(setup.source, state.loop, signal.action);
      var loop := HeartbeatLoop.Next(setup.source, state.loop, signal.action).value;
      if loop.pc.Exited? {
        HeartbeatLoop.ExitStep(setup.source, state.loop, signal.action);
        HeartbeatLoop.NextDelivers(setup.source, state.loop, signal.action);
      }
    } else {
      ResumingStays(setup, state);
    }
  }

  lemma SeenStays(signals: seq<Signal>, signal: Signal)
    ensures SawDisconnection(signals + [signal]) <==>
      SawDisconnection(signals) || (signal.LoopSteps? && signal.action.SeesDisconnected?)
    ensures SawFailingCheck(signals + [signal]) <==>
      SawFailingCheck(signals) || (signal.LoopSteps? && signal.action.CheckFails?)
  {
    assert signal in signals + [signal];
    assert forall other :: other in signals ==> other in signals + [signal];
  }

  /** Resuming does not end the loop. */
  lemma ResumingStays(setup: Setup, state: State)
    requires state.loop.tasks != []
    ensures ResumeLoop(setup, state).Some? ==>
      && !state.loop.pc.Exited?
      && !ResumeLoop(setup, state).value.loop.pc.Exited?
      && ResumeLoop(setup, state).value.pc.InLoop?
      && ResumeLoop(setup, state).value.denied == state.denied
  {
  }

  lemma LastAnswerAfter(signals: seq<Signal>, signal: Signal)
    ensures LastAnswer(signals + [signal]) ==
      if signal.ConnectionAnswers? then Some(Reply(signal.disconnected, signal.durationMs)) else LastAnswer(signals)
  {
    assert (signals + [signal])[..|signals|] == signals;
  }

  lemma NextKeepsPlaceCaused(setup: Setup, signals: seq<Signal>, state: State, signal: Signal)
    requires Placed(setup, state) && PlaceCaused(setup, signals, state)
    requires Next(setup, state, signal).Some?
    ensures PlaceCaused(setup, signals + [signal], Next(setup, state, signal).value)
  {
    hide LastAnswer, EncodeEvent, HeartbeatLoop.EventsOf, HeartbeatLoop.Next, ResumeLoop;
    hide CompletedFrame, HeartbeatFrame, StreamErrorFrame, Stream;
    LastAnswerAfter(signals, signal);
    assert CallFails in signals || signal == CallFails <==> CallFails in signals + [signal];
    if signal.LoopSteps? {
      if signal.action.ReadFinishes? {
        HeartbeatLoop.ReadingStaysPut(setup.source, state.loop);
      }
    } else {
      ResumingStays(setup, state);
      if signal.PolicyAnswers? {
        ResumingStays(setup, state.(denied := state.denied + [signal.denied]));
      }
    }
  }

  lemma NextKeepsCompletion(setup: Setup, signals: seq<Signal>, state: State, signal: Signal)
    requires state.loop.tasks != [] && CompletionCaused(setup, signals, state)
    requires Next(setup, state, signal).Some?
    ensures CompletionCaused(setup, signals + [signal], Next(setup, state, signal).value)
  {
    hide LastAnswer, EncodeEvent, HeartbeatLoop.EventsOf, HeartbeatLoop.Next;
    hide CompletedFrame, HeartbeatFrame, StreamErrorFrame, Stream;
    LastAnswerAfter(signals, signal);
  }

  lemma NextKeepsAnswers(setup: Setup, signals: seq<Signal>, state: State, signal: Signal)
    requires state.loop.tasks != [] && state.denied == PolicyAnswersIn(signals)
    requires Next(setup, state, signal).Some?
    ensures Next(setup, state, signal).value.denied == PolicyAnswersIn(signals + [signal])
  {
    hide EncodeEvent, HeartbeatLoop.EventsOf, HeartbeatLoop.Next;
    hide CompletedFrame, HeartbeatFrame, StreamErrorFrame, Stream;
    assert (signals + [signal])[..|signals|] == signals;
  }

  ghost predicate Caused(setup: Setup, signals: seq<Signal>, state: State) {
    && state.denied == PolicyAnswersIn(signals)
    && LoopExitCaused(setup, signals, state)
    && PlaceCaused(setup, signals, state)
    && CompletionCaused(setup, signals, state)
  }

  lemma {:induction false} RunIsCaused(setup: Setup, signals: seq<Signal>)
    requires Run(setup, signals).Some?
    ensures Caused(setup, signals, Run(setup, signals).value)
  {
    if signals != [] {
      hide Placed, LoopExitCaused, PlaceCaused, CompletionCaused, Next, PolicyAnswersIn, Start;
      var before, signal := signals[..|signals| - 1], signals[|signals| - 1];
      assert before + [signal] == signals;
      RunIsCaused(setup, before);
      RunIsPlaced(setup, before);
      RunIsPlaced(setup, signals);
      var state := Run(setup, before).value;
      NextKeepsAnswers(setup, before, state, signal);
      NextKeepsLoopExit(setup, before, state, signal);
      NextKeepsPlaceCaused(setup, before, state, signal);
      NextKeepsCompletion(setup, before, state, signal);
    }
  }

  lemma RunIsPlaced(setup: Setup, signals: seq<Signal>)
    requires Run(setup, signals).Some?
    ensures Placed(setup, Run(setup, signals).value)
  {
    hide Run, Placed, Framed, AllWellMade, Ordered, Finished, Recorded;
    RunKeepsInvariant(setup, signals);
  }

  // ---------- what a client can rely on ----------

  /** In every run: at most one completed or error frame is sent, and nothing after it.  Without the inserted
      heartbeats and the one synthetic final frame, what was sent are the frames, in order, of a beginning of the
      session stream that ends no later than its first terminal event, less what policy or encoding held back. */
  lemma EveryRun(setup: Setup, signals: seq<Signal>)
    requires Run(setup, signals).Some?
    ensures var state := Run(setup, signals).value; var n := |state.denied|;
      && (NoneFinal(state.sent) || EndsFinal(state.sent))
      && n <= |Stream(setup)|
      && state.denied == PolicyAnswersIn(signals)
      && Shown(state.sent) == Encodings(setup, Stream(setup)[..n], state.denied)
      && (n > 0 ==> NoneTerminal(setup, n - 1))
      && (forall i :: 0 <= i < |state.sent| ==> WellMade(setup, state.sent[i]))
      && (forall i :: 0 <= i < |state.sent| - 1 ==> state.sent[i].FromEvent? || state.sent[i].InsertedHeartbeat?)
  {
    hide Run, Placed, Shown, Encodings, Recorded, Stream, PolicyAnswersIn;
    hide LoopExitCaused, PlaceCaused, CompletionCaused;
    RunKeepsInvariant(setup, signals);
    RunIsCaused(setup, signals);
    var state := Run(setup, signals).value;
    if |state.denied| > 0 {
      OneMoreEvent(setup, |state.denied| - 1);
    }
  }

  /** When a run is over without being aborted, exactly one final frame was sent, with two exceptions: policy
      denied the terminal event, or there was nobody to complete for.  A failure is recorded exactly when the
      terminal event was an error or an exception was turned into an error frame.  No read is left running: the loop
      has none, or never started. */
  lemma EveryEnding(setup: Setup, signals: seq<Signal>)
    requires Run(setup, signals).Some?
    requires var pc := Run(setup, signals).value.pc; pc.Done? && pc.how != Aborted
    ensures var state := Run(setup, signals).value; var n, how := |state.denied|, state.pc.how;
      && n <= |Stream(setup)|
      && (if how.AfterTerminalEvent? then n > 0 && IsTerminal(Stream(setup)[n - 1].eventType)
          else NoneTerminal(setup, n))
      && (EndsFinal(state.sent) <==>
            how.AfterCompleted? || how.AfterError? || (how.AfterTerminalEvent? && !state.denied[n - 1]))
      && (state.terminalEventSent <==> how.AfterTerminalEvent? || how.AfterCompleted?)
      && (state.status == StatusFailed <==>
            how.AfterError? || (how.AfterTerminalEvent? && Stream(setup)[n - 1].eventType.ResponseError?))
      && state.status != StatusCancelled
      && (state.loop == HeartbeatLoop.Start() || forall task :: task in state.loop.tasks ==> !task.Running?)
  {
    hide Run, Shown, Encodings, Stream, NoneTerminal;
    RunKeepsInvariant(setup, signals);
    NothingRuns(setup, Run(setup, signals).value);
  }

  lemma NothingRuns(setup: Setup, state: State)
    requires Placed(setup, state) && state.pc.Done? && state.pc.how != Aborted
    ensures state.loop == HeartbeatLoop.Start() || forall task :: task in state.loop.tasks ==> !task.Running?
  {
    hide HeartbeatLoop.EventsOf, Stream;
  }

  /** Which ending a run that is not aborted comes to, told by what happened.  A frame that completes the stream is
      added exactly when the stream was over and the client was last seen connected, with the duration measured
      then; nothing is added exactly when the stream was over and there is no session or the client was last seen
      gone; and an error frame is added only when a call, a check or the stream itself failed.  The stream is over
      when it did not fail and all of it was handled, or when the client was seen gone. */
  lemma EveryCause(setup: Setup, signals: seq<Signal>)
    requires Run(setup, signals).Some?
    requires var pc := Run(setup, signals).value.pc; pc.Done? && pc.how != Aborted
    ensures var state := Run(setup, signals).value; var how, reply := state.pc.how, LastAnswer(signals);
      && (how.AfterCompleted? <==> StreamOver(state.loop) && reply.Some? && !reply.value.disconnected)
      && (how.NothingToComplete? <==>
            StreamOver(state.loop) && (setup.sessionId == "" || (reply.Some? && reply.value.disconnected)))
      && (how.AfterCompleted? ==>
            && setup.sessionId != ""
            && state.sent != []
            && state.sent[|state.sent| - 1] == SyntheticCompleted(
                 CompletedFrame(setup.traceId, setup.sessionId, reply.value.durationMs, setup.settings)))
      && (how.AfterError? ==> CallFails in signals || setup.source.fails || SawFailingCheck(signals))
      && (StreamOver(state.loop) ==>
            SawDisconnection(signals) || (!setup.source.fails && |state.denied| == |Stream(setup)|))
  {
    hide Run, PolicyAnswersIn, LastAnswer, SawDisconnection, SawFailingCheck, Stream, CompletedFrame;
    RunIsCaused(setup, signals);
  }

  /** A stream that fails, read by a client that is never seen gone, does not end as if it were complete. */
  lemma FailureIsShown(setup: Setup, signals: seq<Signal>)
    requires Run(setup, signals).Some? && Run(setup, signals).value.pc.Done?
    requires setup.source.fails && !SawDisconnection(signals)
    ensures var how := Run(setup, signals).value.pc.how;
      how.AfterTerminalEvent? || how.AfterError? || how.Aborted?
  {
    hide Run, StreamOver, LastAnswer, SawDisconnection, SawFailingCheck, Stream, CompletedFrame;
    if Run(setup, signals).value.pc.how != Aborted {
      EveryCause(setup, signals);
    }
  }

  /** An aborted run was cancelled or closed by its last signal.  A cancellation is recorded as such unless an error
      frame was being sent; a client that closes leaves the record as it was. */
  lemma EveryAbort(setup: Setup, signals: seq<Signal>)
    requires Run(setup, signals).Some? && Run(setup, signals).value.pc == Done(Aborted)
    ensures signals != []
    ensures var last := |signals| - 1; var before, state := Run(setup, signals[..last]), Run(setup, signals).value;
      && before.Some?
      && state.sent == before.value.sent
      && match signals[last]
         case IsCancelled =>
           state.status == if before.value.pc.SendingError? then StatusFailed else StatusCancelled
         case IsClosed =>
           state.status == if before.value.pc.SendingError? then StatusFailed else StatusCompleted
         case LoopSteps(action) => action.Interrupts? && state.status == StatusCancelled
         case _ => false
  {
    var last := |signals| - 1;
    hide Placed, Framed, AllWellMade, Ordered, Finished, Next, Start, PlaceCaused, LoopExitCaused, CompletionCaused;
    hide PolicyAnswersIn;
    if signals == [] {
      StartIsEncoding(setup);
    }
    RunKeepsInvariant(setup, signals[..last]);
    RunIsCaused(setup, signals[..last]);
    AbortStep(setup, signals[..last], Run(setup, signals[..last]).value, signals[last]);
  }

  lemma StartIsEncoding(setup: Setup)
    ensures Start(setup).pc.Encoding?
  {
  }

  lemma AbortStep(setup: Setup, signals: seq<Signal>, state: State, signal: Signal)
    requires Placed(setup, state) && Recorded(setup, state) && PlaceCaused(setup, signals, state)
    requires Next(setup, state, signal).Some? && Next(setup, state, signal).value.pc == Done(Aborted)
    ensures var after := Next(setup, state, signal).value;
      && after.sent == state.sent
      && match signal
         case IsCancelled => after.status == if state.pc.SendingError? then StatusFailed else StatusCancelled
         case IsClosed => after.status == if state.pc.SendingError? then StatusFailed else StatusCompleted
         case LoopSteps(action) => action.Interrupts? && after.status == StatusCancelled
         case _ => false
  {
    hide LastAnswer, EncodeEvent, HeartbeatLoop.EventsOf, HeartbeatLoop.Next, ResumeLoop, Stream;
    if signal.LoopSteps? {
      HeartbeatLoop.NextKeepsInvariant(setup.source, state.loop, signal.action);
      var loop := HeartbeatLoop.Next(setup.source, state.loop, signal.action).value;
      if loop.pc.Exited? {
        HeartbeatLoop.ExitStep(setup.source, state.loop, signal.action);
      }
    } else {
      ResumingStays(setup, state);
      if signal.PolicyAnswers? {
        ResumingStays(setup, state.(denied := state.denied + [signal.denied]));
      }
    }
  }

  // ---------- the loop inside the body ----------

  /** The actions of the loop that the signals name; to resume the loop is a step of the body's own. */
  ghost function LoopActions(signals: seq<Signal>): seq<HeartbeatLoop.Action> {
    if signals == [] then []
    else
      var last := signals[|signals| - 1];
      LoopActions(signals[..|signals| - 1])
      + (if last.LoopSteps? && last.action != HeartbeatLoop.Resumes then [last.action] else [])
  }

  ghost function WithoutResuming(actions: seq<HeartbeatLoop.Action>): seq<HeartbeatLoop.Action> {
    if actions == [] then []
    else
      var last := actions[|actions| - 1];
      WithoutResuming(actions[..|actions| - 1]) + (if last == HeartbeatLoop.Resumes then [] else [last])
  }

  /** The actions make a run of the loop, and are those the signals name, with resumptions in between. */
  ghost predicate IsLoopRun(setup: Setup, signals: seq<Signal>, actions: seq<HeartbeatLoop.Action>)
    requires Run(setup, signals).Some?
  {
    && HeartbeatLoop.Run(setup.source, actions) == Some(Run(setup, signals).value.loop)
    && WithoutResuming(actions) == LoopActions(signals)
  }

  /** In every run of the body its loop makes a run of its own, with exactly the steps that the signals name. */
  lemma {:induction false} LoopIsRun(setup: Setup, signals: seq<Signal>)
    requires Run(setup, signals).Some?
    ensures exists actions :: IsLoopRun(setup, signals, actions)
  {
    if signals == [] {
      assert IsLoopRun(setup, signals, []);
    } else {
      var before, signal := signals[..|signals| - 1], signals[|signals| - 1];
      LoopIsRun(setup, before);
      RunIsPlaced(setup, before);
      var actions :| IsLoopRun(setup, before, actions);
      var step := LoopStepOf(setup, Run(setup, before).value, signal);
      hide Next, Placed, HeartbeatLoop.Next, Start;
      if step != [] {
        assert (actions + step)[..|actions|] == actions;
      } else {
        assert actions + step == actions;
      }
      assert IsLoopRun(setup, signals, actions + step);
    }
  }

  /** The step of the loop in a step of the body, if there is one. */
  lemma LoopStepOf(setup: Setup, state: State, signal: Signal) returns (step: seq<HeartbeatLoop.Action>)
    requires Placed(setup, state) && Next(setup, state, signal).Some?
    ensures |step| <= 1
    ensures step == [] ==> Next(setup, state, signal).value.loop == state.loop
    ensures step != [] ==>
      HeartbeatLoop.Next(setup.source, state.loop, step[0]) == Some(Next(setup, state, signal).value.loop)
    ensures (if step == [] || step[0] == HeartbeatLoop.Resumes then [] else step)
         == (if signal.LoopSteps? && signal.action != HeartbeatLoop.Resumes then [signal.action] else [])
  {
    hide EncodeEvent, HeartbeatLoop.EventsOf, HeartbeatLoop.Next, CompletedFrame, HeartbeatFrame, StreamErrorFrame;
    if signal.LoopSteps? {
      step := [signal.action];
    } else if Next(setup, state, signal).value.loop == state.loop {
      step := [];
    } else {
      step := [HeartbeatLoop.Resumes];
    }
  }

  ghost function HeartbeatsIn(sent: seq<Sent>): nat {
    if sent == [] then 0
    else HeartbeatsIn(sent[..|sent| - 1]) + (if sent[|sent| - 1].InsertedHeartbeat? then 1 else 0)
  }

  /** In every run a heartbeat is sent for each timeout of the loop, and no other. */
  lemma HeartbeatForTimeout(setup: Setup, signals: seq<Signal>)
    requires Run(setup, signals).Some?
    ensures HeartbeatsIn(Run(setup, signals).value.sent) == HeartbeatLoop.Timeouts(LoopActions(signals))
  {
    hide Run;
    LoopIsRun(setup, signals);
    var actions :| IsLoopRun(setup, signals, actions);
    HeartbeatLoop.HeartbeatPerTimeout(setup.source, actions);
    ResumingTimesNothing(actions);
    HeartbeatsMatch(setup, signals);
  }

  lemma {:induction false} ResumingTimesNothing(actions: seq<HeartbeatLoop.Action>)
    ensures HeartbeatLoop.Timeouts(WithoutResuming(actions)) == HeartbeatLoop.Timeouts(actions)
  {
    if actions != [] {
      var before, last := actions[..|actions| - 1], actions[|actions| - 1];
      ResumingTimesNothing(before);
      if last != HeartbeatLoop.Resumes {
        var kept := WithoutResuming(actions);
        assert kept == WithoutResuming(before) + [last];
        assert kept[..|kept| - 1] == WithoutResuming(before);
      } else {
        assert WithoutResuming(actions) == WithoutResuming(before);
      }
    }
  }

  lemma {:induction false} HeartbeatsMatch(setup: Setup, signals: seq<Signal>)
    requires Run(setup, signals).Some?
    ensures var state := Run(setup, signals).value;
      HeartbeatsIn(state.sent) == HeartbeatLoop.Heartbeats(state.loop.yielded)
  {
    if signals != [] {
      hide Next, Placed;
      var before, signal := signals[..|signals| - 1], signals[|signals| - 1];
      HeartbeatsMatch(setup, before);
      RunIsPlaced(setup, before);
      NextKeepsHeartbeats(setup, Run(setup, before).value, signal);
    }
  }

  lemma NextKeepsHeartbeats(setup: Setup, state: State, signal: Signal)
    requires Placed(setup, state) && Next(setup, state, signal).Some?
    requires HeartbeatsIn(state.sent) == HeartbeatLoop.Heartbeats(state.loop.yielded)
    ensures var after := Next(setup, state, signal).value;
      HeartbeatsIn(after.sent) == HeartbeatLoop.Heartbeats(after.loop.yielded)
  {
    hide EncodeEvent, HeartbeatLoop.EventsOf, HeartbeatLoop.Next, CompletedFrame, HeartbeatFrame, StreamErrorFrame;
    var after := Next(setup, state, signal).value;
    SentHeartbeats(setup, state, signal);
    var step := LoopStepOf(setup, state, signal);
    if step != [] {
      HeartbeatLoop.YieldsAtMost(setup.source, state.loop, step[0]);
    }
  }

  /** A heartbeat is sent when the loop comes to one. */
  lemma SentHeartbeats(setup: Setup, state: State, signal: Signal)
    requires state.loop.tasks != [] && Placed(setup, state) && Next(setup, state, signal).Some?
    ensures var after := Next(setup, state, signal).value;
      HeartbeatsIn(after.sent) == HeartbeatsIn(state.sent)
        + (if after.loop.pc.AtHeartbeat? && !state.loop.pc.AtHeartbeat? then 1 else 0)
  {
    hide Next, Placed;
    var after := Next(setup, state, signal).value;
    ComesToHeartbeat(setup, state, signal);
    if after.sent != state.sent {
      assert after.sent[..|after.sent| - 1] == state.sent;
    }
  }

  lemma ComesToHeartbeat(setup: Setup, state: State, signal: Signal)
    requires Placed(setup, state) && Next(setup, state, signal).Some?
    ensures var after := Next(setup, state, signal).value;
      var comes := after.loop.pc.AtHeartbeat? && !state.loop.pc.AtHeartbeat?;
      (after.sent == state.sent && !comes)
      || exists next: Sent :: after.sent == state.sent + [next] && (next.InsertedHeartbeat? <==> comes)
  {
    hide EncodeEvent, HeartbeatLoop.EventsOf, HeartbeatLoop.Next, CompletedFrame, HeartbeatFrame, StreamErrorFrame;
    hide Stream;
    var after := Next(setup, state, signal).value;
    NextKeepsPlaced(setup, state, signal);
    if after.sent != state.sent {
      assert after.sent == state.sent + [after.sent[|state.sent|]];
    }
  }

  /** Once a call has failed the last frame is an error frame, and the run ends with that. */
  lemma {:induction false} FailureStays(setup: Setup, signals: seq<Signal>)
    requires Run(setup, signals).Some? && CallFails in signals
    ensures var state := Run(setup, signals).value;
      && state.pc in {SendingError, Done(AfterError), Done(Aborted)}
      && state.sent != []
      && state.sent[|state.sent| - 1] == SyntheticError(StreamErrorFrame(setup.traceId, setup.sessionId))
  {
    hide EncodeEvent, HeartbeatLoop.Next, HeartbeatLoop.EventsOf, StreamErrorFrame, CompletedFrame;
    var before, signal := signals[..|signals| - 1], signals[|signals| - 1];
    assert before + [signal] == signals;
    if CallFails in before {
      FailureStays(setup, before);
    }
  }

  /** Once a run was cancelled or closed it is aborted, and stays so. */
  lemma {:induction false} AbortStays(setup: Setup, signals: seq<Signal>)
    requires Run(setup, signals).Some? && (IsCancelled in signals || IsClosed in signals)
    ensures Run(setup, signals).value.pc == Done(Aborted)
  {
    hide EncodeEvent, HeartbeatLoop.Next, HeartbeatLoop.EventsOf, StreamErrorFrame, CompletedFrame;
    var before, signal := signals[..|signals| - 1], signals[|signals| - 1];
    assert before + [signal] == signals;
    if IsCancelled in before || IsClosed in before {
      AbortStays(setup, before);
    }
  }

  /** Every signal that is no step of the loop takes the body to another place. */
  lemma EveryStepMoves(setup: Setup, state: State, signal: Signal)
    requires Placed(setup, state) && Next(setup, state, signal).Some? && !signal.LoopSteps?
    ensures Next(setup, state, signal).value.pc != state.pc
  {
    hide EncodeEvent, HeartbeatLoop.Next, HeartbeatLoop.EventsOf, StreamErrorFrame, CompletedFrame;
  }

  /** Wherever a run stands, each signal is possible exactly when the body waits for it. */
  lemma PossibleIff(setup: Setup, state: State, denied: bool, disconnected: bool, durationMs: nat)
    requires Placed(setup, state)
    ensures Next(setup, state, PolicyAnswers(denied)).Some? <==> state.pc.Encoding?
    ensures Next(setup, state, CallFails).Some? <==> state.pc.Encoding? || state.pc.Checking?
    ensures Next(setup, state, ClientResumes).Some? <==>
      state.pc.Sending? || state.pc.SendingHeartbeat? || state.pc.SendingCompleted? || state.pc.SendingError?
    ensures Next(setup, state, ConnectionAnswers(disconnected, durationMs)).Some? <==> state.pc.Checking?
    ensures Next(setup, state, IsCancelled).Some? <==> !state.pc.InLoop? && !state.pc.Done?
    ensures Next(setup, state, IsClosed).Some? <==>
      state.pc.Sending? || state.pc.SendingHeartbeat? || state.pc.SendingCompleted? || state.pc.SendingError?
  {
    hide EncodeEvent, HeartbeatLoop.EventsOf, Stream, CompletedFrame, StreamErrorFrame;
  }

  /** While the body is in the loop it takes every step of the loop; while a heartbeat is being sent, only the read
      goes on. */
  lemma LoopPossibleIff(setup: Setup, state: State, action: HeartbeatLoop.Action)
    requires state.loop.tasks != []
    ensures Next(setup, state, LoopSteps(action)).Some? <==>
      && HeartbeatLoop.Next(setup.source, state.loop, action).Some?
      && (state.pc.InLoop? || (state.pc.SendingHeartbeat? && action.ReadFinishes?))
  {
    hide HeartbeatLoop.Next, AfterLoopStep;
  }

  /** What a client that follows the event-stream standard makes of everything sent in a run: one event for each
      frame, with its name and payload text; and only the last can be a completed or an error event. */
  lemma ClientReceives(setup: Setup, signals: seq<Signal>, json: Section -> string)
    requires Run(setup, signals).Some?
    requires forall payload :: EventStream.OneLine(json(payload))
    requires forall frame :: frame in FramesOf(Run(setup, signals).value.sent) && frame.id.Some? ==>
      EventStream.OneLine(frame.id.value)
    ensures var frames := FramesOf(Run(setup, signals).value.sent);
      var received := EventStream.Parse(EventStream.PrintAll(WireAll(frames, json)));
      && |received| == |frames|
      && (forall i :: 0 <= i < |frames| ==>
            received[i].event == TypeName(frames[i].event) && received[i].data == json(frames[i].payload))
      && forall i :: 0 <= i < |frames| - 1 ==>
        received[i].event != TypeName(ResponseCompleted) && received[i].event != TypeName(ResponseError)
  {
    hide Run, TypeName, WireAll;
    var frames := FramesOf(Run(setup, signals).value.sent);
    ReceivedInOrder(frames, json);
    OnlyLastFinal(setup, signals);
    forall i | 0 <= i < |frames| - 1
      ensures TypeName(frames[i].event) != TypeName(ResponseCompleted)
      ensures TypeName(frames[i].event) != TypeName(ResponseError)
    {
      NamesDiffer(frames[i].event, ResponseCompleted);
      NamesDiffer(frames[i].event, ResponseError);
    }
  }

  lemma OnlyLastFinal(setup: Setup, signals: seq<Signal>)
    requires Run(setup, signals).Some?
    ensures var sent := Run(setup, signals).value.sent;
      forall i :: 0 <= i < |sent| - 1 ==> !IsFinal(sent[i])
  {
    hide Run, Shown, Encodings, Stream, WellMade;
    EveryRun(setup, signals);
  }

  function FramesOf(sent: seq<Sent>): seq<Frame> {
    seq(|sent|, i requires 0 <= i < |sent| => sent[i].frame)
  }

  // ---------- the body as an object ----------

  /** The suspended body: it updates its flags while it sends frames, and owns the loop it reads from. */
  class Body {
    const setup: Setup
    const loop: HeartbeatLoop.Loop<SessionEvent>
    var pc: Pc
    var terminalEventSent: bool
    var status: Status
    var handled: nat
    ghost var sent: seq<Sent>
    ghost var denied: seq<bool>

    ghost predicate Valid()
      reads this
    {
      loop.source == setup.source && handled == |denied|
    }

    ghost function Abstract(): (state: State)
      reads this, loop
      ensures state.loop.tasks != []
    {
      State(pc, sent, terminalEventSent, status, loop.Abstract(), denied)
    }

    constructor (setup: Setup)
      ensures Valid() && this.setup == setup && fresh(loop)
      ensures Abstract() == Start(setup)
    {
      this.setup := setup;
      this.loop := new HeartbeatLoop.Loop(setup.source);
      pc, terminalEventSent, status, handled := Encoding(setup.first), false, StatusCompleted, 0;
      sent, denied := [], [];
    }

    /** Takes one step; `read` is what the next read of the session stream gives. */
    method Advance(signal: Signal, read: HeartbeatLoop.Read<SessionEvent>)
      requires Valid() && Placed(setup, Abstract()) && Next(setup, Abstract(), signal).Some?
      requires read == HeartbeatLoop.ReadAt(setup.source, |loop.earlier|)
      modifies this, loop
      ensures Valid() && Abstract() == Next(setup, old(Abstract()), signal).value
    {
      hide HeartbeatLoop.Next, HeartbeatLoop.Invariant, HeartbeatLoop.EventsOf, EncodeEvent;
      match signal {
        case PolicyAnswers(isDenied) =>
          Answer(isDenied, read);
        case CallFails =>
          Fail();
        case ClientResumes =>
          if pc.Sending? {
            FinishEvent(pc.event, true, read);
          } else if pc.SendingHeartbeat? {
            Resume(read);
          } else if pc.SendingCompleted? {
            pc, terminalEventSent := Done(AfterCompleted), true;
          } else {
            pc := Done(AfterError);
          }
        case LoopSteps(action) =>
          StepLoop(action, read);
        case ConnectionAnswers(disconnected, durationMs) =>
          if disconnected {
            pc := Done(NothingToComplete);
          } else {
            Send(SyntheticCompleted(CompletedFrame(setup.traceId, setup.sessionId, durationMs, setup.settings)));
            pc := SendingCompleted;
          }
        case IsCancelled =>
          status := if pc.SendingError? then status else StatusCancelled;
          pc := Done(Aborted);
        case IsClosed =>
          pc := Done(Aborted);
      }
    }

    method Send(frame: Sent)
      modifies this`sent
      ensures sent == old(sent) + [frame]
    {
      sent := sent + [frame];
    }

    /** The `except Exception` branch. */
    method Fail()
      modifies this`sent, this`pc, this`status
      ensures Abstract() == OnException(setup, old(Abstract()))
    {
      status := StatusFailed;
      Send(SyntheticError(StreamErrorFrame(setup.traceId, setup.sessionId)));
      pc := SendingError;
    }

    method Resume(read: HeartbeatLoop.Read<SessionEvent>)
      requires Valid() && ResumeLoop(setup, Abstract()).Some?
      requires read == HeartbeatLoop.ReadAt(setup.source, |loop.earlier|)
      modifies this`pc, loop
      ensures Valid() && Abstract() == ResumeLoop(setup, old(Abstract())).value
    {
      hide HeartbeatLoop.Next;
      var _ := loop.Take(HeartbeatLoop.Resumes, read);
      pc := InLoop;
    }

    method FinishEvent(event: SessionEvent, shown: bool, read: HeartbeatLoop.Read<SessionEvent>)
      requires Valid() && AfterEvent(setup, Abstract(), event, shown).Some?
      requires read == HeartbeatLoop.ReadAt(setup.source, |loop.earlier|)
      modifies this`pc, this`terminalEventSent, this`status, loop
      ensures Valid() && Abstract() == AfterEvent(setup, old(Abstract()), event, shown).value
    {
      hide HeartbeatLoop.Next;
      if event.eventType.ResponseError? {
        terminalEventSent, status := true, StatusFailed;
        pc := Done(AfterTerminalEvent(shown));
      } else if event.eventType.ResponseCompleted? {
        terminalEventSent := true;
        pc := Done(AfterTerminalEvent(shown));
      } else if handled <= 1 {
        pc := InLoop;
      } else {
        Resume(read);
      }
    }

    method Answer(isDenied: bool, read: HeartbeatLoop.Read<SessionEvent>)
      requires Valid() && Next(setup, Abstract(), PolicyAnswers(isDenied)).Some?
      requires read == HeartbeatLoop.ReadAt(setup.source, |loop.earlier|)
      modifies this, loop
      ensures Valid() && Abstract() == Next(setup, old(Abstract()), PolicyAnswers(isDenied)).value
    {
      hide HeartbeatLoop.Next, EncodeEvent;
      handled, denied := handled + 1, denied + [isDenied];
      var frame := if isDenied then None else EncodeEvent(pc.event, setup.settings, setup.project);
      if frame.Some? {
        Send(FromEvent(frame.value));
        pc := Sending(pc.event);
      } else {
        FinishEvent(pc.event, false, read);
      }
    }

    method StepLoop(action: HeartbeatLoop.Action, read: HeartbeatLoop.Read<SessionEvent>)
      requires Valid() && Placed(setup, Abstract()) && Next(setup, Abstract(), LoopSteps(action)).Some?
      requires read == HeartbeatLoop.ReadAt(setup.source, |loop.earlier|)
      modifies this, loop
      ensures Valid() && Abstract() == Next(setup, old(Abstract()), LoopSteps(action)).value
    {
      hide HeartbeatLoop.Next, HeartbeatLoop.Invariant, HeartbeatLoop.EventsOf;
      HeartbeatLoop.NextDelivers(setup.source, loop.Abstract(), action);
      var item := loop.Take(action, read);
      if pc.InLoop? {
        match loop.pc {
          case AtHeartbeat =>
            Send(InsertedHeartbeat(HeartbeatFrame(setup.traceId, setup.settings)));
            pc := SendingHeartbeat;
          case AtEvent =>
            pc := Encoding(item.value.event);
          case Exited(Raised) =>
            Fail();
          case Exited(Interrupted) =>
            pc, status := Done(Aborted), StatusCancelled;
          case Exited(_) =>
            pc := if setup.sessionId != "" then Checking else Done(NothingToComplete);
          case _ =>
        }
      }
    }
  }
}
