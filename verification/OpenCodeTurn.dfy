// One assistant turn on OpenCode (assistant-opencode-adapter.ts): an event loop with a deadline, a
// tool-call budget and a Stop signal, whose consumer may go away at any yield, and the durable
// mirror of its tool calls. Each stretch between two awaits or yields is one step.

module OpenCodeTurn {
  import opened Options
  import opened OrderedMaps

  datatype Termination = Completed | Failed | TimedOut | Cancelled | Detached

  predicate RequiresAbort(t: Termination) { t.Cancelled? || t.TimedOut? || t.Failed? }

  // An event as the projections see it; a missing detail is one they make nothing of.
  datatype ToolDetail = ToolDetail(callID: string, tool: string)
  datatype ToolState = ToolRunning | ToolCompleted | ToolFailed

  datatype Event =
    | Text(delta: string)
    | Reasoning(visible: bool)
    | PartUpdated(toolPart: bool, detail: Option<ToolDetail>, state: ToolState)
    | ToolStarted(detail: Option<ToolDetail>)
    | ToolEnded(detail: Option<ToolDetail>, state: ToolState)
    | ShellStarted(callID: Option<string>)
    | ShellEnded(callID: Option<string>, state: ToolState)
    | PermissionAsked(shown: bool)
    | QuestionAsked(shown: bool)
    | Noted(visible: bool)
    | SessionStatus(idle: bool)
    | SessionIdle
    | SessionError
    | Other

  predicate IsIdle(e: Event) { e.SessionIdle? || (e.SessionStatus? && e.idle) }

  // What a suggestion-only turn must not see.
  predicate Forbidden(e: Event) {
    match e
    case PartUpdated(toolPart, _, _) => toolPart
    case Text(_) | Reasoning(_) | SessionStatus(_) | SessionIdle | SessionError | Other => false
    case _ => true
  }

  // A tool at work, a question, or a note.
  predicate OffersMore(e: Event) {
    || (e.PartUpdated? && e.toolPart) || e.ToolStarted? || e.ToolEnded? || e.ShellStarted? || e.ShellEnded?
    || e.PermissionAsked? || e.QuestionAsked? || e.Noted?
  }

  datatype Chunk =
    | TextChunk(text: string)
    | ReasoningChunk
    | StatusChunk
    | ErrorChunk
    | ToolCallChunk(counted: bool, callID: string)
    | ToolResultChunk(callID: string)
    | MetaChunk(termination: Termination, toolCallCount: nat)

  // A tool call that used up budget.
  predicate Counts(chunk: Chunk) { chunk.ToolCallChunk? && chunk.counted }

  datatype Mirror = Mirror(status: ToolState, callID: string, tool: string)

  // What a suspended generator does when its consumer asks for the next chunk.
  datatype After =
    | NextEvent
    | MirrorTool(status: ToolState, callID: string, tool: string)
    | FailBudget
    | LeaveLoop
    | KeepAsking(question: bool)
    | KeepEnriching
    | Finish

  datatype Pc =
    | Submitting
    | Top
    | Waiting
    | Asking(question: bool)
    | Yielded(after: After)
    | Enriching
    | Closing
    | Settling
    | Aborting
    | Ended

  datatype Limits = Limits(deadline: int, maxToolCalls: int, suggestionOnly: bool)
  datatype Taken = Taken(event: Event, at: int)
  // Where Stop fired: after how many events taken and chunks yielded, and whether before the decision
  // on the abort.
  datatype StopMark = StopMark(taken: nat, chunks: nat, inTime: bool)

  // From `taken` on: the history of the turn.
  datatype Turn = Turn(limits: Limits, pc: Pc, queue: seq<Event>, readerDone: bool, termination: Termination,
                       toolCallCount: nat, open: OrderedMap<string, string>,
                       taken: seq<Taken>, chunks: seq<Chunk>, mirrors: seq<Mirror>, stop: Option<StopMark>,
                       final: Option<Termination>, aborts: nat, returned: bool)

  function Begun(limits: Limits): Turn {
    Turn(limits, Submitting, [], false, Detached, 0, Empty(), [], [], [], None, None, 0, false)
  }

  datatype Step =
    | Push(event: Event)
    | ReaderEnds
    | StopSignal
    | Submitted
    | Throw
    | CheckTop(t1: int, t2: int, t3: int)
    | Wake(t2: int, t3: int)
    | Resume
    | ConsumerReturns
    | AskYields
    | AskEnds
    | EnrichmentYields
    | EnrichmentEnds
    | ReaderClosed
    | Settle
    | AbortReturns

  // ----- the stretches -----

  function Yield(t: Turn, chunk: Chunk, after: After): Turn { t.(chunks := t.chunks + [chunk], pc := Yielded(after)) }

  // Past the loop: a turn that never settled has failed.
  function Leave(t: Turn): Turn {
    t.(termination := if t.termination == Detached then Failed else t.termination, pc := Enriching)
  }

  function TimeOut(t: Turn): Turn { Yield(t.(termination := TimedOut), ErrorChunk, LeaveLoop) }

  // Opening or closing a tool call; suggestion-only turns mirror nothing.
  function MirrorOn(t: Turn, status: ToolState, callID: string, tool: string): Turn {
    t.(open := if status.ToolRunning? then Put(t.open, callID, tool) else Remove(t.open, callID),
       mirrors := if t.limits.suggestionOnly then t.mirrors else t.mirrors + [Mirror(status, callID, tool)])
  }

  // A counted tool call: the call that reaches the budget yields the error instead.
  function CountCall(t: Turn, d: ToolDetail): Turn {
    var counted := t.(toolCallCount := t.toolCallCount + 1);
    if t.limits.maxToolCalls > 0 && counted.toolCallCount >= t.limits.maxToolCalls
    then Yield(counted, ErrorChunk, FailBudget)
    else Yield(counted, ToolCallChunk(true, d.callID), MirrorTool(ToolRunning, d.callID, d.tool))
  }

  // What the loop does with an event.
  datatype Reaction =
    | Ignore
    | Show(chunk: Chunk, after: After)
    | Ask(question: bool)
    | Call(detail: ToolDetail)
    | Complete
    | Fail

  function EndCall(callID: string, tool: string, state: ToolState): Reaction {
    Show(ToolResultChunk(callID), MirrorTool(if state.ToolFailed? then ToolFailed else ToolCompleted, callID, tool))
  }

  function React(suggestionOnly: bool, e: Event): (r: Reaction)
    ensures r.Complete? <==> IsIdle(e)
    ensures r.Show? ==> (r.after.NextEvent? || r.after.MirrorTool?) && !r.chunk.MetaChunk? && !Counts(r.chunk)
    ensures (r.Show? && r.chunk.TextChunk?) <==> (e.Text? && e.delta != "")
    ensures r.Show? && r.chunk.TextChunk? ==> r.chunk.text == e.delta
    ensures r.Show? && r.chunk.StatusChunk? <==> e == Noted(true) && !suggestionOnly
    ensures r.Ask? <==> (e == PermissionAsked(true) || e == QuestionAsked(true)) && !suggestionOnly
    ensures r.Ask? ==> r.question == e.QuestionAsked?
    ensures r.Fail? <==> e.SessionError? || (suggestionOnly && OffersMore(e))
  {
    if suggestionOnly && Forbidden(e) then Fail else
    match e
    case Text(delta) => if delta != "" then Show(TextChunk(delta), NextEvent) else Ignore
    case Reasoning(visible) => if visible then Show(ReasoningChunk, NextEvent) else Ignore
    case PartUpdated(_, detail, state) =>
      if detail.None? then Ignore
      else if state.ToolRunning? then Call(detail.value)
      else EndCall(detail.value.callID, detail.value.tool, state)
    case ToolStarted(detail) => if detail.Some? then Call(detail.value) else Ignore
    case ToolEnded(detail, state) =>
      if detail.Some? then EndCall(detail.value.callID, detail.value.tool, state) else Ignore
    case ShellStarted(callID) =>
      if callID.None? then Ignore
      else Show(ToolCallChunk(false, callID.value), MirrorTool(ToolRunning, callID.value, "bash"))
    case ShellEnded(callID, state) => if callID.Some? then EndCall(callID.value, "bash", state) else Ignore
    case PermissionAsked(shown) => if shown then Ask(false) else Ignore
    case QuestionAsked(shown) => if shown then Ask(true) else Ignore
    case Noted(visible) => if visible then Show(StatusChunk, NextEvent) else Ignore
    case SessionStatus(idle) => if idle then Complete else Ignore
    case SessionIdle => Complete
    case SessionError => Fail
    case Other => Ignore
  }

  function Take(t: Turn, at: int): Turn
    requires t.queue != []
  {
    var e := t.queue[0];
    var rest := t.(queue := t.queue[1..], taken := t.taken + [Taken(e, at)]);
    match React(t.limits.suggestionOnly, e)
    case Ignore => rest.(pc := Top)
    case Show(chunk, after) => Yield(rest, chunk, after)
    case Ask(question) => rest.(pc := Asking(question))
    case Call(detail) => CountCall(rest, detail)
    case Complete => Leave(rest.(termination := Completed))
    case Fail => Yield(rest.(termination := Failed), ErrorChunk, LeaveLoop)
  }

  // From the inner wait on: t2 and t3 are the clock readings of the wait and of the re-check.
  function FromWait(t: Turn, t2: int, t3: int): Turn {
    if t.queue == [] && !t.readerDone && t2 < t.limits.deadline then t.(pc := Waiting)
    else if t3 >= t.limits.deadline then TimeOut(t)
    else if t.queue == [] then Leave(t)
    else Take(t, t3)
  }

  function FromTop(t: Turn, t1: int, t2: int, t3: int): Turn {
    if t1 > t.limits.deadline then TimeOut(t) else FromWait(t, t2, t3)
  }

  function Resumed(t: Turn, after: After): Turn {
    match after
    case NextEvent => t.(pc := Top)
    case MirrorTool(status, callID, tool) => MirrorOn(t.(pc := Top), status, callID, tool)
    case FailBudget => Leave(t.(termination := Failed))
    case LeaveLoop => Leave(t)
    case KeepAsking(question) => t.(pc := Asking(question))
    case KeepEnriching => t.(pc := Enriching)
    case Finish => t.(pc := Closing)
  }

  function Caught(t: Turn): Turn {
    t.(termination := if t.termination == Detached then Failed else t.termination, pc := Closing)
  }

  // Once the reader is closed: decide whether to abort.
  function Decide(t: Turn): Turn {
    t.(final := Some(t.termination),
       pc := if RequiresAbort(t.termination) || t.limits.suggestionOnly then Settling else Ended)
  }

  // Mirror the next tool call left open as failed; with none left, abort the session.
  function SettleOne(t: Turn): Turn {
    if t.open.keys == [] then t.(aborts := t.aborts + 1, pc := Aborting)
    else MirrorOn(t, ToolFailed, t.open.keys[0], t.open.vals[t.open.keys[0]])
  }

  function SettleAll(t: Turn): Turn
    requires t.pc.Settling?
    decreases |t.open.keys|
  {
    if t.open.keys == [] then SettleOne(t) else SettleAll(SettleOne(t))
  }

  predicate InTurn(pc: Pc) { pc.Submitting? || pc.Top? || pc.Asking? }

  predicate Enabled(t: Turn, step: Step) {
    match step
    case Push(_) => !t.readerDone
    case ReaderEnds => !t.readerDone
    case StopSignal => t.stop.None?
    case Submitted => t.pc.Submitting?
    case Throw => InTurn(t.pc)
    case CheckTop(_, _, _) => t.pc.Top?
    case Wake(_, _) => t.pc.Waiting?
    case Resume => t.pc.Yielded?
    case ConsumerReturns => t.pc.Yielded?
    case AskYields => t.pc.Asking?
    case AskEnds => t.pc.Asking?
    case EnrichmentYields => t.pc.Enriching?
    case EnrichmentEnds => t.pc.Enriching?
    case ReaderClosed => t.pc.Closing? && t.readerDone
    case Settle => t.pc.Settling?
    case AbortReturns => t.pc.Aborting?
  }

  function Next(t: Turn, step: Step): Turn {
    if !Enabled(t, step) then t else
    match step
    case Push(e) => t.(queue := t.queue + [e])
    case ReaderEnds => t.(readerDone := true)
    case StopSignal => t.(termination := Cancelled, stop := Some(StopMark(|t.taken|, |t.chunks|, t.final.None?)))
    case Submitted => t.(pc := Top)
    case Throw => Caught(t)
    case CheckTop(t1, t2, t3) => FromTop(t, t1, t2, t3)
    case Wake(t2, t3) => FromWait(t, t2, t3)
    case Resume => Resumed(t, t.pc.after)
    case ConsumerReturns => t.(pc := Closing, returned := true)
    case AskYields => Yield(t, StatusChunk, KeepAsking(t.pc.question))
    case AskEnds => t.(pc := Top)
    case EnrichmentYields => Yield(t, StatusChunk, KeepEnriching)
    case EnrichmentEnds => Yield(t, MetaChunk(t.termination, t.toolCallCount), Finish)
    case ReaderClosed => Decide(t)
    case Settle => SettleOne(t)
    case AbortReturns => t.(pc := Ended)
  }

  // The generator and its event reader. `pc` says where the generator is suspended.
  class AssistantOpenCodeTurn {
    const limits: Limits
    var pc: Pc
    var queue: seq<Event>
    var readerDone: bool
    var termination: Termination
    var toolCallCount: nat
    var openToolInvocations: OrderedMap<string, string>
    ghost var taken: seq<Taken>
    ghost var chunks: seq<Chunk>
    ghost var mirrors: seq<Mirror>
    ghost var stop: Option<StopMark>
    ghost var final: Option<Termination>
    ghost var aborts: nat
    ghost var returned: bool

    ghost function View(): Turn
      reads this
    {
      Turn(limits, pc, queue, readerDone, termination, toolCallCount, openToolInvocations,
           taken, chunks, mirrors, stop, final, aborts, returned)
    }

    constructor (limits: Limits)
      ensures View() == Begun(limits)
    {
      this.limits := limits;
      pc, queue, readerDone, termination, toolCallCount := Submitting, [], false, Detached, 0;
      openToolInvocations := Empty();
      taken, chunks, mirrors, stop, final, aborts, returned := [], [], [], None, None, 0, false;
    }

    method PushEvent(e: Event)
      requires Enabled(View(), Push(e))
      modifies this
      ensures View() == Next(old(View()), Push(e))
    {
      queue := queue + [e];
    }

    method OnStop()
      requires Enabled(View(), StopSignal)
      modifies this
      ensures View() == Next(old(View()), StopSignal)
    {
      termination := Cancelled;
      stop := Some(StopMark(|taken|, |chunks|, final.None?));
    }

    method YieldChunk(chunk: Chunk, after: After)
      modifies this
      ensures View() == Yield(old(View()), chunk, after)
    {
      chunks := chunks + [chunk];
      pc := Yielded(after);
    }

    method LeaveLoopNow()
      modifies this
      ensures View() == Leave(old(View()))
    {
      if termination == Detached { termination := Failed; }
      pc := Enriching;
    }

    method MirrorToolEvent(status: ToolState, callID: string, tool: string)
      modifies this
      ensures View() == MirrorOn(old(View()), status, callID, tool)
    {
      hide Consistent;
      if status.ToolRunning? { openToolInvocations := Put(openToolInvocations, callID, tool); }
      else { openToolInvocations := Remove(openToolInvocations, callID); }
      if !limits.suggestionOnly { mirrors := mirrors + [Mirror(status, callID, tool)]; }
    }

    method CountToolCall(d: ToolDetail)
      modifies this
      ensures View() == CountCall(old(View()), d)
    {
      hide Consistent;
      toolCallCount := toolCallCount + 1;
      if limits.maxToolCalls > 0 && toolCallCount >= limits.maxToolCalls {
        YieldChunk(ErrorChunk, FailBudget);
      } else {
        YieldChunk(ToolCallChunk(true, d.callID), MirrorTool(ToolRunning, d.callID, d.tool));
      }
    }

    // Take the oldest event and do what it asks for.
    method TakeEvent(at: int)
      requires queue != []
      modifies this
      ensures View() == Take(old(View()), at)
    {
      hide Consistent, React;
      var e := queue[0];
      queue := queue[1..];
      taken := taken + [Taken(e, at)];
      match React(limits.suggestionOnly, e)
      case Ignore => pc := Top;
      case Show(chunk, after) => YieldChunk(chunk, after);
      case Ask(question) => pc := Asking(question);
      case Call(detail) => CountToolCall(detail);
      case Complete =>
        termination := Completed;
        LeaveLoopNow();
      case Fail =>
        termination := Failed;
        YieldChunk(ErrorChunk, LeaveLoop);
    }

    // The event loop from its head; clock readings in the order they are made.
    method CheckDeadline(t1: int, t2: int, t3: int)
      requires pc.Top?
      modifies this
      ensures View() == Next(old(View()), CheckTop(t1, t2, t3))
    {
      hide Consistent, Take;
      if t1 > limits.deadline {
        termination := TimedOut;
        YieldChunk(ErrorChunk, LeaveLoop);
      } else {
        AwaitEvent(t2, t3);
      }
    }

    // The wait, and what follows it.
    method AwaitEvent(t2: int, t3: int)
      modifies this
      ensures View() == FromWait(old(View()), t2, t3)
    {
      hide Consistent, Take;
      if queue == [] && !readerDone && t2 < limits.deadline {
        pc := Waiting;
      } else if t3 >= limits.deadline {
        termination := TimedOut;
        YieldChunk(ErrorChunk, LeaveLoop);
      } else if queue == [] {
        LeaveLoopNow();
      } else {
        TakeEvent(t3);
      }
    }

    // The consumer asks for the next chunk.
    method ResumeAfterYield()
      requires pc.Yielded?
      modifies this
      ensures View() == Next(old(View()), Resume)
    {
      hide Consistent;
      match pc.after
      case NextEvent => pc := Top;
      case MirrorTool(status, callID, tool) => pc := Top; MirrorToolEvent(status, callID, tool);
      case FailBudget => termination := Failed; LeaveLoopNow();
      case LeaveLoop => LeaveLoopNow();
      case KeepAsking(question) => pc := Asking(question);
      case KeepEnriching => pc := Enriching;
      case Finish => pc := Closing;
    }

    method ReturnEarly()
      requires pc.Yielded?
      modifies this
      ensures View() == Next(old(View()), ConsumerReturns)
    {
      pc := Closing;
      returned := true;
    }

    method CatchError()
      requires InTurn(pc)
      modifies this
      ensures View() == Next(old(View()), Throw)
    {
      if termination == Detached { termination := Failed; }
      pc := Closing;
    }

    method YieldMeta()
      requires pc.Enriching?
      modifies this
      ensures View() == Next(old(View()), EnrichmentEnds)
    {
      YieldChunk(MetaChunk(termination, toolCallCount), Finish);
    }

    method DecideAbort() returns (aborting: bool)
      requires pc.Closing? && readerDone
      modifies this
      ensures View() == Next(old(View()), ReaderClosed) && (aborting <==> pc.Settling?)
    {
      final := Some(termination);
      aborting := RequiresAbort(termination) || limits.suggestionOnly;
      pc := if aborting then Settling else Ended;
    }

    // Mirror every call left open as failed, then abort the session.
    method SettleOpenTools()
      requires pc.Settling?
      modifies this
      ensures View() == SettleAll(old(View()))
    {
      while openToolInvocations.keys != []
        invariant pc.Settling? && SettleAll(View()) == SettleAll(old(View()))
        decreases |openToolInvocations.keys|
      {
        var callID := openToolInvocations.keys[0];
        MirrorToolEvent(ToolFailed, callID, openToolInvocations.vals[callID]);
      }
      aborts := aborts + 1;
      pc := Aborting;
    }
  }
}
