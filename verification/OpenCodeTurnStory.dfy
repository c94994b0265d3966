// What a turn shows and mirrors, read off the events it took: no chunk, call id, tool or outcome
// comes from anywhere else, none is lost, doubled or reordered.

module TurnStory {
  import opened Options
  import opened OrderedMaps
  import opened OpenCodeTurn
  import opened TurnRuns

  // ----- what one event tells -----

  function Outcome(state: ToolState): ToolState { if state == ToolFailed then ToolFailed else ToolCompleted }

  // The tool transition an event reports, if any.
  function Transition(e: Event): Option<Mirror> {
    match e
    case PartUpdated(_, Some(d), state) => Some(Mirror(state, d.callID, d.tool))
    case ToolStarted(Some(d)) => Some(Mirror(ToolRunning, d.callID, d.tool))
    case ToolEnded(Some(d), state) => Some(Mirror(Outcome(state), d.callID, d.tool))
    case ShellStarted(Some(callID)) => Some(Mirror(ToolRunning, callID, "bash"))
    case ShellEnded(Some(callID), state) => Some(Mirror(Outcome(state), callID, "bash"))
    case _ => None
  }

  // The content an event brings: text, reasoning, a tool call or a tool result. Calls count against
  // the budget, commands in the shell do not. A suggestion-only turn shows nothing of a tool event.
  function Brings(suggestionOnly: bool, e: Event): seq<Chunk> {
    if suggestionOnly && OffersMore(e) then []
    else match e
      case Text(delta) => if delta == "" then [] else [TextChunk(delta)]
      case Reasoning(visible) => if visible then [ReasoningChunk] else []
      case _ =>
        match Transition(e)
        case Some(Mirror(ToolRunning, callID, _)) => [ToolCallChunk(!e.ShellStarted?, callID)]
        case Some(Mirror(_, callID, _)) => [ToolResultChunk(callID)]
        case None => []
  }

  // ----- what the events taken tell -----

  function Transitions(taken: seq<Taken>): seq<Mirror> {
    if taken == [] then []
    else
      Transitions(taken[..|taken| - 1]) +
      match Transition(taken[|taken| - 1].event) case Some(m) => [m] case None => []
  }

  function Brought(suggestionOnly: bool, taken: seq<Taken>): seq<Chunk> {
    if taken == [] then []
    else Brought(suggestionOnly, taken[..|taken| - 1]) + Brings(suggestionOnly, taken[|taken| - 1].event)
  }

  predicate IsTool(chunk: Chunk) { chunk.ToolCallChunk? || chunk.ToolResultChunk? }

  predicate IsContent(chunk: Chunk) { chunk.TextChunk? || chunk.ReasoningChunk? || IsTool(chunk) }

  function Content(chunks: seq<Chunk>): seq<Chunk> {
    if chunks == [] then []
    else
      Content(chunks[..|chunks| - 1]) +
      if IsContent(chunks[|chunks| - 1]) then [chunks[|chunks| - 1]] else []
  }

  // A call was counted and not shown: it breached the budget.
  predicate Breached(t: Turn) { t.toolCallCount > Counted(t.chunks) }

  // The consumer has not yet asked for more after the last tool chunk, or went away there.
  predicate AtToolChunk(t: Turn) {
    (t.pc.Yielded? || t.returned) && t.chunks != [] && IsTool(t.chunks[|t.chunks| - 1])
  }

  predicate Withheld(t: Turn) { Breached(t) || AtToolChunk(t) }

  // What is mirrored before the open calls are settled: every transition taken but a withheld last one.
  function Told(t: Turn): seq<Mirror> {
    var all := Transitions(t.taken);
    if Withheld(t) && all != [] then all[..|all| - 1] else all
  }

  // The calls left open, in the order they were opened.
  function OpenAfter(mirrors: seq<Mirror>): OrderedMap<string, string> {
    if mirrors == [] then Empty()
    else
      var before, m := OpenAfter(mirrors[..|mirrors| - 1]), mirrors[|mirrors| - 1];
      if m.status.ToolRunning? then Put(before, m.callID, m.tool) else Remove(before, m.callID)
  }

  // ----- growing by one -----

  lemma TransitionsGrow(taken: seq<Taken>, k: Taken)
    ensures Transitions(taken + [k])
            == Transitions(taken) + match Transition(k.event) case Some(m) => [m] case None => []
  {
    assert (taken + [k])[..|taken|] == taken;
  }

  lemma BroughtGrows(suggestionOnly: bool, taken: seq<Taken>, k: Taken)
    ensures Brought(suggestionOnly, taken + [k])
            == Brought(suggestionOnly, taken) + Brings(suggestionOnly, k.event)
  {
    assert (taken + [k])[..|taken|] == taken;
  }

  lemma ChunksGrow(chunks: seq<Chunk>, c: Chunk)
    ensures Content(chunks + [c]) == Content(chunks) + (if IsContent(c) then [c] else [])
    ensures Counted(chunks + [c]) == Counted(chunks) + (if Counts(c) then 1 else 0)
  {
    assert (chunks + [c])[..|chunks|] == chunks;
  }

  lemma OpenGrows(mirrors: seq<Mirror>, m: Mirror)
    ensures OpenAfter(mirrors + [m])
            == if m.status.ToolRunning? then Put(OpenAfter(mirrors), m.callID, m.tool)
               else Remove(OpenAfter(mirrors), m.callID)
  {
    hide Consistent;
    assert (mirrors + [m])[..|mirrors|] == mirrors;
  }

  // ----- the invariant -----

  // Where the generator may be: between events nothing is withheld, a breach leads out of the loop, a
  // tool chunk is followed by its mirror, and who went away is gone.
  predicate Placed(t: Turn) {
    && (t.returned ==> InFinally(t.pc))
    && (Breached(t) ==> t.pc == Yielded(FailBudget) || PastLoop(t.pc))
    && (t.pc.Yielded? ==> (t.chunks != [] && IsTool(t.chunks[|t.chunks| - 1]) <==> t.pc.after.MirrorTool?))
    && (t.pc == Yielded(FailBudget) ==> Breached(t))
    && (Withheld(t) && !t.limits.suggestionOnly ==> Transitions(t.taken) != [])
    && (t.pc.Yielded? && t.pc.after.MirrorTool? && !t.limits.suggestionOnly ==>
          Transitions(t.taken)[|Transitions(t.taken)| - 1]
          == Mirror(t.pc.after.status, t.pc.after.callID, t.pc.after.tool))
  }

  // `shown` is all of `all`, or all but a last counted call.
  predicate AllBut(breached: bool, shown: seq<Chunk>, all: seq<Chunk>) {
    if breached then all != [] && Counts(all[|all| - 1]) && shown == all[..|all| - 1] else shown == all
  }

  predicate ContentMatches(t: Turn) {
    AllBut(Breached(t), Content(t.chunks), Brought(t.limits.suggestionOnly, t.taken))
  }

  ghost predicate MirrorsTold(t: Turn) {
    if t.limits.suggestionOnly then t.mirrors == []
    else if MustAbort(t) then
      Told(t) <= t.mirrors && t.mirrors[|Told(t)|..] + Failures(t.open) == Failures(OpenAfter(Told(t)))
    else t.mirrors == Told(t) && t.open == OpenAfter(Told(t))
  }

  // ----- taking an event -----

  lemma ReactionTells(suggestionOnly: bool, e: Event)
    ensures match React(suggestionOnly, e)
            case Call(d) => Brings(suggestionOnly, e) == [ToolCallChunk(true, d.callID)]
                            && Transition(e) == Some(Mirror(ToolRunning, d.callID, d.tool))
            case Show(chunk, after) =>
              && Brings(suggestionOnly, e) == (if IsContent(chunk) then [chunk] else [])
              && (IsTool(chunk) <==> after.MirrorTool?) && !Counts(chunk) && !chunk.MetaChunk?
              && Transition(e)
                 == (if after.MirrorTool? then Some(Mirror(after.status, after.callID, after.tool)) else None)
            case Fail => Brings(suggestionOnly, e) == [] && (!suggestionOnly ==> Transition(e) == None)
            case _ => Brings(suggestionOnly, e) == [] && Transition(e) == None
  {}

  // What taking the event makes of the turn, as far as the story goes.
  predicate Takes(t: Turn, r: Turn, e: Event) {
    && r.limits == t.limits && r.open == t.open && r.mirrors == t.mirrors && r.final == t.final
    && r.returned == t.returned
    && match React(t.limits.suggestionOnly, e)
       case Call(d) =>
         || (&& r.chunks == t.chunks + [ErrorChunk] && r.toolCallCount == t.toolCallCount + 1
             && r.pc == Yielded(FailBudget))
         || (&& r.chunks == t.chunks + [ToolCallChunk(true, d.callID)] && r.toolCallCount == t.toolCallCount + 1
             && r.pc == Yielded(MirrorTool(ToolRunning, d.callID, d.tool)))
       case Show(chunk, after) =>
         r.chunks == t.chunks + [chunk] && r.toolCallCount == t.toolCallCount && r.pc == Yielded(after)
       case Fail =>
         r.chunks == t.chunks + [ErrorChunk] && r.toolCallCount == t.toolCallCount && r.pc == Yielded(LeaveLoop)
       case _ =>
         r.chunks == t.chunks && r.toolCallCount == t.toolCallCount && !r.pc.Yielded? && !InFinally(r.pc)
  }

  lemma TakeTakes(t: Turn, at: int)
    requires t.queue != []
    ensures Takes(t, Take(t, at), t.queue[0]) && Take(t, at).taken == t.taken + [Taken(t.queue[0], at)]
  {
    hide React, Consistent;
  }

  lemma TakingKeepsContent(t: Turn, r: Turn, k: Taken)
    requires ContentMatches(t) && !Breached(t) && Counted(t.chunks) <= t.toolCallCount
    requires Takes(t, r, k.event) && r.taken == t.taken + [k]
    ensures ContentMatches(r) && Counted(r.chunks) <= r.toolCallCount
    ensures Breached(r) <==> r.pc == Yielded(FailBudget)
  {
    ReactionTells(t.limits.suggestionOnly, k.event);
    BroughtGrows(t.limits.suggestionOnly, t.taken, k);
    if React(t.limits.suggestionOnly, k.event).Call? {
      CountingKeepsContent(t, r, k);
    } else {
      if |r.chunks| == |t.chunks| + 1 { ChunksGrow(t.chunks, r.chunks[|t.chunks|]); }
      hide React, Brings, Brought, Content, Counted;
    }
  }

  lemma CountingKeepsContent(t: Turn, r: Turn, k: Taken)
    requires ContentMatches(t) && !Breached(t) && Counted(t.chunks) <= t.toolCallCount
    requires Takes(t, r, k.event) && r.taken == t.taken + [k] && React(t.limits.suggestionOnly, k.event).Call?
    ensures ContentMatches(r) && Counted(r.chunks) <= r.toolCallCount
    ensures Breached(r) <==> r.pc == Yielded(FailBudget)
  {
    var all := Brought(t.limits.suggestionOnly, t.taken);
    var c := ToolCallChunk(true, React(t.limits.suggestionOnly, k.event).detail.callID);
    ReactionTells(t.limits.suggestionOnly, k.event);
    BroughtGrows(t.limits.suggestionOnly, t.taken, k);
    ChunksGrow(t.chunks, r.chunks[|t.chunks|]);
    CountingKeepsPc(t, r, k);
    hide React, Brings, Brought, Content, Counted, Takes;
    assert Brought(r.limits.suggestionOnly, r.taken) == all + [c];
    OneCallMore(all, c);
    hide AllBut;
    if r.pc == Yielded(FailBudget) {
      assert Content(r.chunks) == Content(t.chunks) + [];
    } else {
      assert Content(r.chunks) == Content(t.chunks) + [c];
    }
  }

  lemma OneCallMore(all: seq<Chunk>, c: Chunk)
    requires Counts(c)
    ensures forall shown :: AllBut(false, shown, all) ==> shown == all
    ensures AllBut(true, all + [], all + [c]) && AllBut(false, all + [c], all + [c])
  {
    assert (all + [c])[..|all|] == all;
  }

  lemma CountingKeepsPc(t: Turn, r: Turn, k: Taken)
    requires Takes(t, r, k.event) && React(t.limits.suggestionOnly, k.event).Call?
    ensures r.limits == t.limits && r.toolCallCount == t.toolCallCount + 1 && |r.chunks| == |t.chunks| + 1
    ensures r.chunks == t.chunks + [r.chunks[|t.chunks|]]
    ensures r.chunks[|t.chunks|]
            == if r.pc == Yielded(FailBudget) then ErrorChunk
               else ToolCallChunk(true, React(t.limits.suggestionOnly, k.event).detail.callID)
  {
    hide React;
  }

  lemma TakingKeepsPlaces(t: Turn, r: Turn, k: Taken)
    requires Placed(t) && !Breached(t) && !t.returned
    requires Takes(t, r, k.event) && r.taken == t.taken + [k]
    requires Breached(r) <==> r.pc == Yielded(FailBudget)
    ensures Placed(r)
  {
    ReactionTells(t.limits.suggestionOnly, k.event);
    TransitionsGrow(t.taken, k);
    hide React, Brings, Transition, Transitions, Counted, Breached;
  }

  // Whatever transition the event reports waits for the consumer.
  lemma TakingWithholds(t: Turn, r: Turn, k: Taken)
    requires !t.limits.suggestionOnly && !Breached(t) && !t.returned && !t.pc.Yielded?
    requires Takes(t, r, k.event) && (Breached(r) <==> r.pc == Yielded(FailBudget))
    ensures !Withheld(t) && (Withheld(r) <==> Transition(k.event).Some?)
  {
    ReactionTells(false, k.event);
    hide React, Brings, Transition, Breached;
  }

  lemma TakingTellsNothingYet(t: Turn, r: Turn, k: Taken)
    requires MirrorsTold(t) && !Breached(t) && !t.returned && !t.pc.Yielded? && t.final.None?
    requires Takes(t, r, k.event) && r.taken == t.taken + [k]
    requires Breached(r) <==> r.pc == Yielded(FailBudget)
    ensures MirrorsTold(r)
  {
    assert r.limits == t.limits && r.mirrors == t.mirrors && r.open == t.open && r.final == t.final;
    if !t.limits.suggestionOnly {
      TakingWithholds(t, r, k);
      TransitionsGrow(t.taken, k);
      hide Withheld, Takes, Transition, Transitions, Breached, OpenAfter, Failures, Consistent;
      assert Told(r) == Told(t);
    }
  }

  // ----- every other step -----

  ghost predicate Story(t: Turn) {
    Placed(t) && ContentMatches(t) && MirrorsTold(t) && Counted(t.chunks) <= t.toolCallCount
  }

  // The same history, no call opened or closed.
  predicate SameSoFar(t: Turn, r: Turn) {
    && r.limits == t.limits && r.open == t.open && r.mirrors == t.mirrors && r.final == t.final
    && r.returned == t.returned && r.taken == t.taken && r.toolCallCount == t.toolCallCount
  }

  lemma MovingOnKeepsStory(t: Turn, r: Turn)
    requires Story(t) && SameSoFar(t, r) && r.chunks == t.chunks
    requires !(t.pc.Yielded? && t.pc.after.MirrorTool?) && !r.pc.Yielded?
    requires (t.returned ==> InFinally(r.pc)) && (Breached(t) ==> PastLoop(r.pc))
    ensures Story(r)
  {
    hide Brought, Content, Counted, Transitions, OpenAfter, Failures, Consistent;
    assert Breached(r) <==> Breached(t);
    assert Told(r) == Told(t);
  }

  lemma YieldingKeepsStory(t: Turn, r: Turn, c: Chunk, after: After)
    requires Story(t) && SameSoFar(t, r) && r.chunks == t.chunks + [c] && r.pc == Yielded(after)
    requires !t.pc.Yielded? && !t.returned && !IsContent(c) && !Counts(c)
    requires !after.MirrorTool? && !after.FailBudget? && (Breached(t) ==> PastLoop(r.pc))
    ensures Story(r)
  {
    ChunksGrow(t.chunks, c);
    hide Brought, Content, Counted, Transitions, OpenAfter, Failures, Consistent;
    assert Content(r.chunks) == Content(t.chunks) + [];
    assert Breached(r) <==> Breached(t);
    assert Told(r) == Told(t);
  }

  lemma WaitKeepsStory(t: Turn, t2: int, t3: int)
    requires Story(t) && t.final.None? && (t.pc.Top? || t.pc.Waiting?)
    ensures Story(FromWait(t, t2, t3))
  {
    var r := FromWait(t, t2, t3);
    hide Consistent, React, Placed, ContentMatches, MirrorsTold, Take, Story, Breached;
    InLoop(t);
    if t.queue == [] && !t.readerDone && t2 < t.limits.deadline {
      MovingOnKeepsStory(t, r);
    } else if t3 >= t.limits.deadline {
      TimeOutKeepsStory(t);
    } else if t.queue == [] {
      MovingOnKeepsStory(t, r);
    } else {
      TakeKeepsStory(t, t3);
    }
  }

  lemma InLoop(t: Turn)
    requires Story(t) && !PastLoop(t.pc) && t.pc != Yielded(FailBudget)
    ensures !t.returned && !Breached(t) && Placed(t) && ContentMatches(t) && MirrorsTold(t)
  {}

  lemma TakeKeepsStory(t: Turn, at: int)
    requires Story(t) && t.final.None? && (t.pc.Top? || t.pc.Waiting?) && t.queue != []
    ensures Story(Take(t, at))
  {
    var r, k := Take(t, at), Taken(t.queue[0], at);
    InLoop(t);
    TakeTakes(t, at);
    hide Consistent, React, Placed, ContentMatches, MirrorsTold, Take, Takes, Breached;
    TakingKeepsContent(t, r, k);
    TakingKeepsPlaces(t, r, k);
    TakingTellsNothingYet(t, r, k);
  }

  lemma TimeOutKeepsStory(t: Turn)
    requires Story(t) && (t.pc.Top? || t.pc.Waiting?)
    ensures Story(TimeOut(t))
  {
    InLoop(t);
    hide Consistent, Story, Breached, Placed;
    YieldingKeepsStory(t, TimeOut(t), ErrorChunk, LeaveLoop);
  }

  lemma TopKeepsStory(t: Turn, t1: int, t2: int, t3: int)
    requires Story(t) && t.final.None? && t.pc.Top?
    ensures Story(FromTop(t, t1, t2, t3))
  {
    hide Consistent, Story, FromWait, TimeOut;
    if t1 > t.limits.deadline { TimeOutKeepsStory(t); } else { WaitKeepsStory(t, t2, t3); }
  }

  // Asking for more after a tool chunk mirrors its transition.
  lemma MirroringKeepsStory(t: Turn)
    requires Story(t) && t.pc.Yielded? && t.pc.after.MirrorTool? && t.final.None?
    ensures Story(Resumed(t, t.pc.after))
  {
    var r := Resumed(t, t.pc.after);
    MirroringTells(t);
    MirroringKeepsPlaces(t);
    hide Brought, Content, Counted, Transitions, OpenAfter, Failures, Consistent, MirrorsTold, Placed;
    assert Breached(r) <==> Breached(t);
  }

  lemma MirroringKeepsPlaces(t: Turn)
    requires Placed(t) && t.pc.Yielded? && t.pc.after.MirrorTool?
    ensures Placed(Resumed(t, t.pc.after)) && !Withheld(Resumed(t, t.pc.after)) && !Breached(t)
  {
    hide Counted, Transitions, Consistent;
    assert Breached(Resumed(t, t.pc.after)) <==> Breached(t);
  }

  lemma MirroredTurn(t: Turn, m: Mirror)
    requires t.pc == Yielded(MirrorTool(m.status, m.callID, m.tool)) && !t.limits.suggestionOnly
    ensures var r := Resumed(t, t.pc.after);
            && r.limits == t.limits && r.taken == t.taken && r.final == t.final && r.mirrors == t.mirrors + [m]
            && r.open == if m.status.ToolRunning? then Put(t.open, m.callID, m.tool) else Remove(t.open, m.callID)
  {
    hide Consistent;
  }

  lemma MirroringTells(t: Turn)
    requires Placed(t) && MirrorsTold(t) && t.pc.Yielded? && t.pc.after.MirrorTool? && t.final.None?
    ensures MirrorsTold(Resumed(t, t.pc.after))
  {
    var r, all := Resumed(t, t.pc.after), Transitions(t.taken);
    MirroringKeepsPlaces(t);
    if t.limits.suggestionOnly {
      hide Breached, Transitions, OpenAfter, Failures, Consistent;
    } else {
      var m := Mirror(t.pc.after.status, t.pc.after.callID, t.pc.after.tool);
      MirroredTurn(t, m);
      OpenGrows(Told(t), m);
      hide Breached, Transitions, OpenAfter, Failures, Consistent, Resumed, Put, Remove;
      assert all == Told(t) + [m] == Told(r);
    }
  }

  lemma ResumeKeepsStory(t: Turn)
    requires Story(t) && t.pc.Yielded? && t.final.None?
    ensures Story(Resumed(t, t.pc.after))
  {
    if t.pc.after.MirrorTool? {
      MirroringKeepsStory(t);
    } else {
      ResumedIsQuiet(t);
      AtAYield(t);
      hide Story, Resumed, Breached, Consistent, InFinally;
      MovingOnKeepsStory(t, Resumed(t, t.pc.after));
    }
  }

  lemma ResumedIsQuiet(t: Turn)
    requires t.pc.Yielded? && !t.pc.after.MirrorTool?
    ensures var r := Resumed(t, t.pc.after);
            && SameSoFar(t, r) && r.chunks == t.chunks && !r.pc.Yielded?
            && (t.pc == Yielded(FailBudget) || PastLoop(t.pc) ==> PastLoop(r.pc))
  {
    hide Consistent;
  }

  lemma AtAYield(t: Turn)
    requires Story(t) && t.pc.Yielded?
    ensures !t.returned && (Breached(t) ==> t.pc == Yielded(FailBudget) || PastLoop(t.pc))
  {
    hide ContentMatches, MirrorsTold, Breached;
  }

  lemma ReturningKeepsStory(t: Turn)
    requires Story(t) && t.pc.Yielded? && t.final.None?
    ensures Story(t.(pc := Closing, returned := true))
  {
    hide Brought, Content, Counted, Transitions, OpenAfter, Failures, Consistent;
    var r := t.(pc := Closing, returned := true);
    assert Breached(r) <==> Breached(t);
    assert Told(r) == Told(t);
  }

  lemma DecidingKeepsStory(t: Turn)
    requires Story(t) && t.pc.Closing? && t.final.None?
    ensures Story(Decide(t))
  {
    hide Brought, Content, Counted, Transitions, OpenAfter, Failures, Consistent;
    var r := Decide(t);
    assert Breached(r) <==> Breached(t);
    assert Told(r) == Told(t);
    assert t.mirrors[|t.mirrors|..] == [];
    assert [] + Failures(t.open) == Failures(t.open);
  }

  lemma SettlingKeepsStory(t: Turn)
    requires Story(t) && AbortsMatch(t) && t.pc.Settling?
    ensures Story(SettleOne(t))
  {
    hide Brought, Content, Counted, Transitions, OpenAfter, Failures, Consistent;
    var r := SettleOne(t);
    assert Breached(r) <==> Breached(t);
    assert Told(r) == Told(t);
    if !t.limits.suggestionOnly && t.open.keys != [] {
      SettleOneMirrorsTheFirst(t);
      assert t.mirrors[|Told(t)|..] + ([Failures(t.open)[0]] + Failures(r.open))
             == r.mirrors[|Told(t)|..] + Failures(r.open);
    }
  }

  lemma StepKeepsStory(t: Turn, step: Step)
    requires Story(t) && AbortsMatch(t)
    ensures Story(Next(t, step))
  {
    if !Enabled(t, step) { return; }
    hide Consistent, FromTop, FromWait, Resumed, SettleOne, Story;
    match step
    case CheckTop(t1, t2, t3) => TopKeepsStory(t, t1, t2, t3);
    case Wake(t2, t3) => WaitKeepsStory(t, t2, t3);
    case Resume => ResumeKeepsStory(t);
    case ConsumerReturns => ReturningKeepsStory(t);
    case ReaderClosed => DecidingKeepsStory(t);
    case Settle => SettlingKeepsStory(t);
    case AskYields => YieldingStepKeepsStory(t, step);
    case EnrichmentYields => YieldingStepKeepsStory(t, step);
    case EnrichmentEnds => YieldingStepKeepsStory(t, step);
    case Push(_) => OutsideKeepsStory(t, step);
    case ReaderEnds => OutsideKeepsStory(t, step);
    case StopSignal => OutsideKeepsStory(t, step);
    case _ => MovingStepKeepsStory(t, step);
  }

  lemma MovingStepKeepsStory(t: Turn, step: Step)
    requires Story(t) && Enabled(t, step) && (step.Submitted? || step.Throw? || step.AskEnds? || step.AbortReturns?)
    ensures Story(Next(t, step))
  {
    hide Consistent, FromTop, FromWait, Resumed, SettleOne, ContentMatches, MirrorsTold, Breached, Withheld;
    assert t.returned ==> InFinally(t.pc);
    MovingOnKeepsStory(t, Next(t, step));
  }

  lemma YieldingStepKeepsStory(t: Turn, step: Step)
    requires Story(t) && Enabled(t, step) && (step.AskYields? || step.EnrichmentYields? || step.EnrichmentEnds?)
    ensures Story(Next(t, step))
  {
    hide Consistent, FromTop, FromWait, Resumed, SettleOne, ContentMatches, MirrorsTold, Breached, Withheld;
    var r := Next(t, step);
    YieldingKeepsStory(t, r, r.chunks[|t.chunks|], r.pc.after);
  }

  // An arriving event, the end of the events and a Stop are noticed later.
  lemma OutsideKeepsStory(t: Turn, step: Step)
    requires Story(t) && (step.Push? || step.ReaderEnds? || step.StopSignal?)
    ensures Story(Next(t, step))
  {
    hide Brought, Content, Counted, Transitions, OpenAfter, Failures, Consistent, FromTop, FromWait, Resumed;
    var r := Next(t, step);
    assert Breached(r) <==> Breached(t);
    assert Told(r) == Told(t);
  }

  lemma {:induction false} EveryRunKeepsStory(limits: Limits, steps: seq<Step>)
    ensures Story(Run(limits, steps)) && AbortsMatch(Run(limits, steps))
    ensures Run(limits, steps).limits == limits
  {
    EveryRunKeepsInv(limits, steps);
    if steps != [] {
      var n := |steps| - 1;
      EveryRunKeepsStory(limits, steps[..n]);
      hide Next, Story, AbortsMatch;
      StepKeepsStory(Run(limits, steps[..n]), steps[n]);
    }
  }

  // ----- the theorems -----

  // The content shown is, in order, what the events taken bring, except a last call that breached the
  // budget.
  lemma {:induction false} ContentIsWhatEventsBring(limits: Limits, steps: seq<Step>)
    ensures var t := Run(limits, steps);
            AllBut(t.toolCallCount > Counted(t.chunks), Content(t.chunks), Brought(limits.suggestionOnly, t.taken))
  {
    EveryRunKeepsStory(limits, steps);
  }

  // The mirrors are, in order, the transitions of the events taken, without a last one that breached
  // the budget or whose chunk the consumer has not gone past, followed, once the turn has been
  // aborted, by one failure for each call these leave open.
  lemma {:induction false} MirrorsAreTheTransitionsTaken(limits: Limits, steps: seq<Step>)
    requires !limits.suggestionOnly
    ensures var t := Run(limits, steps);
            && (t.final.None? ==> t.mirrors == Told(t))
            && (t.pc.Ended? ==> t.mirrors == Told(t) + if t.aborts == 1 then Failures(OpenAfter(Told(t))) else [])
  {
    EveryRunKeepsStory(limits, steps);
    EveryRunKeepsInv(limits, steps);
    hide Run, Told, OpenAfter, Failures, Consistent, TakenInTime, IdleCompletes, DetachedMatches, MetaLast,
         WithinBudget, RepliesMatch, OpenMatches;
    var t := Run(limits, steps);
    if t.pc.Ended? && t.aborts == 1 {
      NoFailures(t.open);
      assert t.mirrors == t.mirrors[..|Told(t)|] + t.mirrors[|Told(t)|..];
    }
  }

  // A suggestion-only turn mirrors nothing.
  lemma {:induction false} SuggestionsAreNotMirrored(limits: Limits, steps: seq<Step>)
    requires limits.suggestionOnly
    ensures Run(limits, steps).mirrors == []
  {
    EveryRunKeepsStory(limits, steps);
  }

  // A call is among those left open exactly when its last transition says that it is running.
  lemma {:induction false} OpenExactlyWhenRunning(mirrors: seq<Mirror>, callID: string)
    ensures callID in OpenAfter(mirrors).vals
            <==> LastMirror(mirrors, callID).Some? && LastMirror(mirrors, callID).value.status == ToolRunning
    ensures callID in OpenAfter(mirrors).vals ==>
              LastMirror(mirrors, callID).value.tool == OpenAfter(mirrors).vals[callID]
  {
    hide Consistent;
    if mirrors != [] { OpenExactlyWhenRunning(mirrors[..|mirrors| - 1], callID); }
  }

  lemma {:induction false} ContentCounts(chunks: seq<Chunk>)
    ensures Counted(Content(chunks)) == Counted(chunks)
  {
    if chunks != [] {
      var n := |chunks| - 1;
      ContentCounts(chunks[..n]);
      if IsContent(chunks[n]) { ChunksGrow(Content(chunks[..n]), chunks[n]); }
      else { assert Content(chunks[..n]) + [] == Content(chunks[..n]); }
    }
  }

  // The calls counted are those the events taken bring, a breaching one included, and the meta chunk
  // reports their number.
  lemma {:induction false} CountIsTheCallsBrought(limits: Limits, steps: seq<Step>)
    ensures var t := Run(limits, steps);
            && t.toolCallCount == Counted(Brought(limits.suggestionOnly, t.taken))
            && forall k :: 0 <= k < |t.chunks| && t.chunks[k].MetaChunk? ==>
                 t.chunks[k].toolCallCount == t.toolCallCount
  {
    EveryRunKeepsStory(limits, steps);
    EveryRunKeepsInv(limits, steps);
    MetaCounts(limits, steps);
    hide Run, Brought, Content, Counted, TakenInTime, IdleCompletes, DetachedMatches, MetaLast, MirrorsMatch,
         RepliesMatch, MirrorsTold, Placed, AbortsMatch;
    var t := Run(limits, steps);
    var all := Brought(limits.suggestionOnly, t.taken);
    ContentCounts(t.chunks);
    if Breached(t) {
      var c := all[|all| - 1];
      ChunksGrow(all[..|all| - 1], c);
      assert all == all[..|all| - 1] + [c];
    }
  }

  // Past the loop nothing is counted.
  ghost predicate MetaMatches(t: Turn) {
    forall k :: 0 <= k < |t.chunks| && t.chunks[k].MetaChunk? ==>
      t.chunks[k].toolCallCount == t.toolCallCount && (t.pc == Yielded(Finish) || InFinally(t.pc))
  }

  lemma WaitKeepsMetaMatches(t: Turn, t2: int, t3: int)
    requires MetaMatches(t) && (t.pc.Top? || t.pc.Waiting?)
    ensures MetaMatches(FromWait(t, t2, t3))
  {
    if t.queue != [] {
      TakeTakes(t, t3);
      TakenShowsNoMeta(t, t3);
    }
    hide Take, Takes, Consistent;
  }

  lemma TakenShowsNoMeta(t: Turn, at: int)
    requires t.queue != []
    ensures var r := Take(t, at);
            |t.chunks| <= |r.chunks| <= |t.chunks| + 1 && r.chunks[..|t.chunks|] == t.chunks
            && (|r.chunks| > |t.chunks| ==> !r.chunks[|t.chunks|].MetaChunk?)
  {
    hide React, Consistent;
  }

  lemma StepKeepsMetaMatches(t: Turn, step: Step)
    requires MetaMatches(t)
    ensures MetaMatches(Next(t, step))
  {
    if !Enabled(t, step) { return; }
    match step
    case CheckTop(_, t2, t3) => WaitKeepsMetaMatches(t, t2, t3); hide FromWait, Consistent;
    case Wake(t2, t3) => WaitKeepsMetaMatches(t, t2, t3); hide FromWait, Consistent;
    case _ => hide FromTop, FromWait, Consistent;
  }

  lemma {:induction false} MetaCounts(limits: Limits, steps: seq<Step>)
    ensures MetaMatches(Run(limits, steps))
  {
    if steps != [] {
      var n := |steps| - 1;
      MetaCounts(limits, steps[..n]);
      hide Next, MetaMatches;
      StepKeepsMetaMatches(Run(limits, steps[..n]), steps[n]);
    }
  }

  // ----- why a turn ended as it did -----

  // With nothing to take and events still to come, the loop waits.
  predicate Waits(t: Turn, t2: int) { t.queue == [] && !t.readerDone && t2 < t.limits.deadline }

  // The clock is past the deadline at the head of the loop, or has reached it after the wait.
  predicate Late(t: Turn, step: Step) {
    match step
    case CheckTop(t1, t2, t3) => t1 > t.limits.deadline || (!Waits(t, t2) && t3 >= t.limits.deadline)
    case Wake(t2, t3) => !Waits(t, t2) && t3 >= t.limits.deadline
    case _ => false
  }

  // What taking an event, or finding that there are no more, makes of a turn in time.
  function Outlook(t: Turn): Option<Termination> {
    if t.queue == [] then if t.termination == Detached then Some(Failed) else None
    else
      var e := t.queue[0];
      if e == SessionError || (t.limits.suggestionOnly && OffersMore(e)) then Some(Failed)
      else if e == SessionIdle || e == SessionStatus(true) then Some(Completed)
      else None
  }

  // How a step settles the turn, if it does.
  function Verdict(t: Turn, step: Step): Option<Termination> {
    if !Enabled(t, step) then None
    else if Late(t, step) then Some(TimedOut)
    else match step
      case StopSignal => Some(Cancelled)
      case CheckTop(_, t2, _) => if Waits(t, t2) then None else Outlook(t)
      case Wake(t2, _) => if Waits(t, t2) then None else Outlook(t)
      case Resume => if t.pc == Yielded(FailBudget) then Some(Failed) else None
      case Throw => if t.termination == Detached then Some(Failed) else None
      case _ => None
  }

  predicate LeavesSettled(t: Turn) {
    && (t.pc == Yielded(LeaveLoop) ==> t.termination != Detached)
    && (t.termination == Completed ==> PastLoop(t.pc))
  }

  predicate Rules(t: Turn, r: Turn, v: Option<Termination>) {
    r.termination == v.GetOr(t.termination) && v != Some(Detached) && LeavesSettled(r)
  }

  lemma TakeRules(t: Turn, at: int)
    requires LeavesSettled(t) && t.queue != [] && !PastLoop(t.pc)
    ensures Rules(t, Take(t, at), Outlook(t))
  {
    hide Consistent, MirrorOn;
  }

  lemma WaitRules(t: Turn, t2: int, t3: int)
    requires LeavesSettled(t) && (t.pc.Top? || t.pc.Waiting?)
    ensures Rules(t, FromWait(t, t2, t3),
                  if Waits(t, t2) then None else if t3 >= t.limits.deadline then Some(TimedOut) else Outlook(t))
  {
    if t.queue != [] { TakeRules(t, t3); }
    hide Take, Consistent;
  }

  lemma StepRules(t: Turn, step: Step)
    requires LeavesSettled(t)
    ensures Rules(t, Next(t, step), Verdict(t, step))
  {
    if !Enabled(t, step) { return; }
    match step
    case CheckTop(_, t2, t3) => WaitRules(t, t2, t3); hide FromWait, Consistent, Outlook;
    case Wake(t2, t3) => WaitRules(t, t2, t3); hide FromWait, Consistent, Outlook;
    case _ => hide FromTop, FromWait, Consistent, Outlook;
  }

  // Step n of the run settled the turn as v, and no later step settled it otherwise.
  ghost predicate SettledAt(limits: Limits, steps: seq<Step>, n: int, v: Termination) {
    && 0 <= n < |steps| && Verdict(Run(limits, steps[..n]), steps[n]) == Some(v)
    && forall m :: n < m < |steps| ==> Verdict(Run(limits, steps[..m]), steps[m]) == None
  }

  lemma SettledOneMore(limits: Limits, steps: seq<Step>, v: Termination)
    requires steps != []
    ensures var last := |steps| - 1;
            (exists n :: SettledAt(limits, steps, n, v))
            <==> match Verdict(Run(limits, steps[..last]), steps[last])
                 case Some(u) => u == v
                 case None => exists n :: SettledAt(limits, steps[..last], n, v)
  {
    hide Run, Verdict;
    var last := |steps| - 1;
    var front := steps[..last];
    assert forall m :: 0 <= m < last ==> front[..m] == steps[..m];
    match Verdict(Run(limits, front), steps[last])
    case Some(u) =>
      if u == v { assert SettledAt(limits, steps, last, v); }
      if n :| SettledAt(limits, steps, n, v) { assert n == last; }
    case None =>
      if n :| SettledAt(limits, steps, n, v) { assert SettledAt(limits, front, n, v); }
      if n :| SettledAt(limits, front, n, v) { assert SettledAt(limits, steps, n, v); }
  }

  // A turn is what the last step that settled it made it, and detached while none has: timed out by the
  // clock, cancelled by a Stop, completed by an idle event, failed by an error, a forbidden event, a
  // breached budget or the end of the events.
  lemma {:induction false} TerminationExactly(limits: Limits, steps: seq<Step>, v: Termination)
    ensures LeavesSettled(Run(limits, steps))
    ensures v != Detached ==> (Run(limits, steps).termination == v <==> exists n :: SettledAt(limits, steps, n, v))
    ensures !exists n :: SettledAt(limits, steps, n, Detached)
  {
    if steps != [] {
      var last := |steps| - 1;
      TerminationExactly(limits, steps[..last], v);
      StepRules(Run(limits, steps[..last]), steps[last]);
      SettledOneMore(limits, steps, v);
      SettledOneMore(limits, steps, Detached);
      hide Next, Verdict, LeavesSettled, SettledAt;
    }
  }
}
