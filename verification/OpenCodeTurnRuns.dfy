// What every interleaving of events, clock readings, Stop signals and consumer returns keeps.
module TurnRuns {
  import opened Options
  import opened OrderedMaps
  import opened OpenCodeTurn

  ghost function Run(limits: Limits, steps: seq<Step>): Turn {
    if steps == [] then Begun(limits) else Next(Run(limits, steps[..|steps| - 1]), steps[|steps| - 1])
  }

  predicate PastLoop(pc: Pc) {
    match pc
    case Enriching | Closing | Settling | Aborting | Ended => true
    case Yielded(after) => after.KeepEnriching? || after.Finish?
    case _ => false
  }

  predicate InFinally(pc: Pc) { pc.Closing? || pc.Settling? || pc.Aborting? || pc.Ended? }

  // ----- events and the deadline -----

  ghost predicate TakenInTime(t: Turn) {
    forall k :: 0 <= k < |t.taken| ==> t.taken[k].at < t.limits.deadline
  }

  // At most one event is taken, and only with a clock reading before the deadline.
  predicate TakesAtMostOne(t: Turn, r: Turn) {
    r.limits == t.limits
    && (r.taken == t.taken
        || (|r.taken| == |t.taken| + 1 && r.taken[..|t.taken|] == t.taken && r.taken[|t.taken|].at < t.limits.deadline))
  }

  lemma WaitTakesAtMostOne(t: Turn, t2: int, t3: int)
    ensures TakesAtMostOne(t, FromWait(t, t2, t3))
  {
    hide Consistent, React;
  }

  lemma NextTakesAtMostOne(t: Turn, step: Step)
    ensures TakesAtMostOne(t, Next(t, step))
  {
    match step
    case CheckTop(_, t2, t3) => WaitTakesAtMostOne(t, t2, t3); hide FromWait, Consistent;
    case Wake(t2, t3) => WaitTakesAtMostOne(t, t2, t3); hide FromWait, FromTop, Consistent;
    case _ => hide FromWait, FromTop, Consistent;
  }

  lemma StepTakesInTime(t: Turn, step: Step)
    requires TakenInTime(t)
    ensures TakenInTime(Next(t, step)) && Next(t, step).limits == t.limits
  {
    NextTakesAtMostOne(t, step);
    hide Next;
    forall k | 0 <= k < |Next(t, step).taken| ensures Next(t, step).taken[k].at < t.limits.deadline {
      if k < |t.taken| { assert Next(t, step).taken[k] == t.taken[k]; }
    }
  }

  // ----- why a turn is completed -----

  predicate TookIdle(t: Turn) { t.taken != [] && IsIdle(t.taken[|t.taken| - 1].event) }

  predicate StoppedAfterTaking(t: Turn) { t.stop.Some? && t.stop.value.taken == |t.taken| }

  predicate IdleCompletes(t: Turn) {
    && (t.stop.Some? ==> t.stop.value.taken <= |t.taken| && t.stop.value.chunks <= |t.chunks|)
    && (TookIdle(t) ==> PastLoop(t.pc))
    && (t.termination == Completed <==> TookIdle(t) && !StoppedAfterTaking(t))
    && (TookIdle(t) && StoppedAfterTaking(t) ==> t.termination == Cancelled)
    && (t.final == Some(Completed) ==> TookIdle(t))
  }

  lemma TakingIdleCompletes(t: Turn, at: int)
    requires IdleCompletes(t) && !PastLoop(t.pc) && t.queue != [] && IsIdle(t.queue[0])
    ensures IdleCompletes(Take(t, at))
  {
    hide Consistent, React, IsIdle, CountCall, Yield;
  }

  // Taking any other event at most fails the turn, and stays in the loop.
  predicate StaysInLoop(t: Turn, r: Turn) {
    && (r.termination == t.termination || r.termination == Failed) && r.stop == t.stop && r.final == t.final
    && |r.chunks| >= |t.chunks| && !PastLoop(r.pc)
  }

  lemma TakingOtherStaysInLoop(t: Turn, at: int)
    requires t.queue != [] && !IsIdle(t.queue[0])
    ensures StaysInLoop(t, Take(t, at)) && Take(t, at).taken == t.taken + [Taken(t.queue[0], at)]
  {
    hide Consistent, React, IsIdle, Leave;
  }

  lemma TakingOtherCompletesNothing(t: Turn, at: int)
    requires IdleCompletes(t) && !PastLoop(t.pc) && t.queue != [] && !IsIdle(t.queue[0])
    ensures IdleCompletes(Take(t, at))
  {
    TakingOtherStaysInLoop(t, at);
    hide Take, IsIdle;
  }

  lemma TakeKeepsIdleCompletes(t: Turn, at: int)
    requires IdleCompletes(t) && !PastLoop(t.pc) && t.queue != []
    ensures IdleCompletes(Take(t, at))
  {
    if IsIdle(t.queue[0]) { TakingIdleCompletes(t, at); } else { TakingOtherCompletesNothing(t, at); }
    hide Take, IdleCompletes;
  }

  lemma LeavingKeepsIdleCompletes(t: Turn)
    requires IdleCompletes(t) && !PastLoop(t.pc)
    ensures IdleCompletes(Leave(t)) && IdleCompletes(TimeOut(t)) && IdleCompletes(t.(pc := Waiting))
  {
    hide Consistent, IsIdle;
  }

  lemma WaitKeepsIdleCompletes(t: Turn, t2: int, t3: int)
    requires IdleCompletes(t) && !PastLoop(t.pc)
    ensures IdleCompletes(FromWait(t, t2, t3))
  {
    if t.queue != [] { TakeKeepsIdleCompletes(t, t3); }
    LeavingKeepsIdleCompletes(t);
    hide Consistent, Take, Leave, TimeOut, IdleCompletes;
  }

  lemma ResumeKeepsIdleCompletes(t: Turn, after: After)
    requires IdleCompletes(t) && t.pc == Yielded(after)
    ensures IdleCompletes(Resumed(t, after))
  {
    hide Consistent;
  }

  lemma StepKeepsIdleCompletes(t: Turn, step: Step)
    requires IdleCompletes(t)
    ensures IdleCompletes(Next(t, step))
  {
    if !Enabled(t, step) { return; }
    match step
    case CheckTop(_, t2, t3) => WaitKeepsIdleCompletes(t, t2, t3); hide FromWait, Consistent;
    case Wake(t2, t3) => WaitKeepsIdleCompletes(t, t2, t3); hide FromWait, Consistent;
    case Resume => ResumeKeepsIdleCompletes(t, t.pc.after); hide Resumed, Consistent;
    case _ => hide FromTop, FromWait, Resumed, Consistent;
  }

  // ----- detachment and Stop -----

  predicate DetachedMatches(t: Turn) {
    && (t.stop.Some? ==> t.termination != Detached)
    && (PastLoop(t.pc) && t.termination == Detached ==> InFinally(t.pc) && t.returned)
    && (t.termination == Cancelled ==> t.stop.Some?)
    && (t.stop.Some? && !t.stop.value.inTime ==> t.final.Some?)
    && (t.final.Some? && (t.stop.None? || t.stop.value.inTime) ==> t.final == Some(t.termination))
    && (t.final == Some(Detached) ==> t.returned)
    && (t.final.Some? <==> t.pc.Settling? || t.pc.Aborting? || t.pc.Ended?)
  }

  lemma TakeKeepsDetached(t: Turn, at: int)
    requires DetachedMatches(t) && !PastLoop(t.pc) && t.queue != []
    ensures DetachedMatches(Take(t, at))
  {
    hide Consistent, React, IsIdle, Forbidden, Counts;
  }

  lemma WaitKeepsDetached(t: Turn, t2: int, t3: int)
    requires DetachedMatches(t) && !PastLoop(t.pc)
    ensures DetachedMatches(FromWait(t, t2, t3))
  {
    if t.queue != [] { TakeKeepsDetached(t, t3); }
    hide Consistent, Take;
  }

  lemma ResumeKeepsDetached(t: Turn, after: After)
    requires DetachedMatches(t) && t.pc == Yielded(after)
    ensures DetachedMatches(Resumed(t, after))
  {
    hide Consistent;
  }

  lemma StepKeepsDetached(t: Turn, step: Step)
    requires DetachedMatches(t)
    ensures DetachedMatches(Next(t, step))
  {
    if !Enabled(t, step) { return; }
    match step
    case CheckTop(_, t2, t3) => WaitKeepsDetached(t, t2, t3); hide FromWait, Consistent;
    case Wake(t2, t3) => WaitKeepsDetached(t, t2, t3); hide FromWait, Consistent;
    case Resume => ResumeKeepsDetached(t, t.pc.after); hide Resumed, Consistent;
    case _ => hide FromTop, FromWait, Resumed, Consistent;
  }

  // ----- the meta chunk -----

  predicate StopInTime(t: Turn) { t.stop.Some? && t.stop.value.inTime }

  predicate StoppedAfterYielding(t: Turn) { t.stop.Some? && t.stop.value.chunks == |t.chunks| }

  // The meta chunk comes last, never says detached, and is overruled only by a Stop that follows it;
  // the decision on the abort, only by one that comes before the decision too.
  ghost predicate MetaLast(t: Turn) {
    forall k :: 0 <= k < |t.chunks| && t.chunks[k].MetaChunk? ==>
      && k == |t.chunks| - 1
      && (t.pc == Yielded(Finish) || InFinally(t.pc))
      && t.chunks[k].termination != Detached
      && (t.termination == t.chunks[k].termination <==> !StoppedAfterYielding(t))
      && (StoppedAfterYielding(t) ==> t.termination == Cancelled)
      && (t.final.Some? ==> (t.final == Some(t.chunks[k].termination) <==> !(StoppedAfterYielding(t) && StopInTime(t))))
  }

  lemma TakeKeepsMeta(t: Turn, at: int)
    requires MetaLast(t) && !PastLoop(t.pc) && t.queue != []
    ensures MetaLast(Take(t, at))
  {
    hide Consistent, React;
  }

  lemma WaitKeepsMeta(t: Turn, t2: int, t3: int)
    requires MetaLast(t) && !PastLoop(t.pc)
    ensures MetaLast(FromWait(t, t2, t3))
  {
    if t.queue != [] { TakeKeepsMeta(t, t3); }
    hide Consistent, Take;
  }

  lemma ResumeKeepsMeta(t: Turn, after: After)
    requires MetaLast(t) && t.pc == Yielded(after)
    ensures MetaLast(Resumed(t, after))
  {
    hide Consistent;
  }

  lemma StepKeepsMeta(t: Turn, step: Step)
    requires MetaLast(t) && IdleCompletes(t) && DetachedMatches(t)
    ensures MetaLast(Next(t, step))
  {
    if !Enabled(t, step) { return; }
    match step
    case CheckTop(_, t2, t3) => WaitKeepsMeta(t, t2, t3); hide FromWait, Consistent;
    case Wake(t2, t3) => WaitKeepsMeta(t, t2, t3); hide FromWait, Consistent;
    case Resume => ResumeKeepsMeta(t, t.pc.after); hide Resumed, Consistent;
    case _ => hide FromTop, FromWait, Resumed, Consistent;
  }

  // ----- the tool-call budget -----

  function Counted(chunks: seq<Chunk>): nat {
    if chunks == [] then 0
    else Counted(chunks[..|chunks| - 1]) + (if Counts(chunks[|chunks| - 1]) then 1 else 0)
  }

  // At most one chunk more, counted or not.
  predicate Shows(before: seq<Chunk>, after: seq<Chunk>, counted: bool) {
    if |after| == |before| then after == before && !counted
    else |after| == |before| + 1 && after[..|before|] == before && (Counts(after[|before|]) <==> counted)
  }

  lemma CountedGrows(before: seq<Chunk>, after: seq<Chunk>, counted: bool)
    requires Shows(before, after, counted)
    ensures Counted(after) == Counted(before) + (if counted then 1 else 0)
  {}

  // Every counted call was shown, except the one that breached the budget.
  predicate WithinBudget(t: Turn) {
    var shown, limit := Counted(t.chunks), t.limits.maxToolCalls;
    && (limit > 0 ==> shown < limit)
    && (t.toolCallCount != shown ==>
          limit > 0 && t.toolCallCount == limit && shown == limit - 1
              && (t.pc == Yielded(FailBudget) || PastLoop(t.pc)))
  }

  // A breach of the budget shows no call; any other counted call is shown.
  predicate Spends(t: Turn, r: Turn) {
    var breach := r.toolCallCount > t.toolCallCount && t.limits.maxToolCalls > 0
        && r.toolCallCount >= t.limits.maxToolCalls;
    && r.limits == t.limits && t.toolCallCount <= r.toolCallCount <= t.toolCallCount + 1
    && Shows(t.chunks, r.chunks, r.toolCallCount > t.toolCallCount && !breach)
    && (breach ==> r.pc == Yielded(FailBudget))
  }

  lemma TakeSpends(t: Turn, at: int)
    requires t.queue != []
    ensures Spends(t, Take(t, at))
  {
    hide Consistent, React;
  }

  lemma WaitSpends(t: Turn, t2: int, t3: int)
    ensures Spends(t, FromWait(t, t2, t3))
  {
    if t.queue != [] { TakeSpends(t, t3); }
    hide Consistent, Take;
  }

  // Only taking an event spends budget; past the loop, or about to leave it, there is no way back.
  lemma OtherStepsSpendNothing(t: Turn, step: Step)
    requires !step.CheckTop? && !step.Wake?
    ensures Spends(t, Next(t, step)) && Next(t, step).toolCallCount == t.toolCallCount
    ensures t.pc == Yielded(FailBudget) || PastLoop(t.pc) ==> Next(t, step).pc == t.pc || PastLoop(Next(t, step).pc)
  {
    hide Consistent, FromTop, FromWait;
  }

  lemma SpendingKeepsBudget(t: Turn, r: Turn)
    requires WithinBudget(t) && Spends(t, r)
    requires t.pc == Yielded(FailBudget) || PastLoop(t.pc) ==>
               r.toolCallCount == t.toolCallCount && (r.pc == t.pc || PastLoop(r.pc))
    ensures WithinBudget(r)
  {
    var breach := r.toolCallCount > t.toolCallCount && t.limits.maxToolCalls > 0
        && r.toolCallCount >= t.limits.maxToolCalls;
    CountedGrows(t.chunks, r.chunks, r.toolCallCount > t.toolCallCount && !breach);
    hide Counted, Shows, PastLoop;
  }

  lemma CheckTopSpends(t: Turn, t1: int, t2: int, t3: int)
    ensures Spends(t, FromTop(t, t1, t2, t3))
  {
    WaitSpends(t, t2, t3);
    hide Consistent, FromWait;
  }

  lemma StepKeepsBudget(t: Turn, step: Step)
    requires WithinBudget(t)
    ensures WithinBudget(Next(t, step))
  {
    if !Enabled(t, step) { return; }
    match step
    case CheckTop(t1, t2, t3) => CheckTopSpends(t, t1, t2, t3);
    case Wake(t2, t3) => WaitSpends(t, t2, t3);
    case _ => OtherStepsSpendNothing(t, step);
    hide Consistent, FromWait, FromTop, Resumed, Spends, WithinBudget, Leave, Caught, Decide, SettleOne, Yield;
    SpendingKeepsBudget(t, Next(t, step));
  }

  // ----- the abort -----

  predicate MustAbort(t: Turn) { t.final.Some? && (RequiresAbort(t.final.value) || t.limits.suggestionOnly) }

  predicate AbortsMatch(t: Turn) {
    && t.aborts == (if MustAbort(t) && (t.pc.Aborting? || t.pc.Ended?) then 1 else 0)
    && (t.pc.Settling? || t.pc.Aborting? ==> MustAbort(t))
    && (t.final.Some? ==> t.readerDone && (t.pc.Settling? || t.pc.Aborting? || t.pc.Ended?))
    && (MustAbort(t) || !t.final.Some? || t.pc.Ended?)
  }

  lemma TakeKeepsAborts(t: Turn, at: int)
    requires AbortsMatch(t) && !PastLoop(t.pc) && t.queue != []
    ensures AbortsMatch(Take(t, at))
  {
    hide Consistent, React;
  }

  lemma WaitKeepsAborts(t: Turn, t2: int, t3: int)
    requires AbortsMatch(t) && !PastLoop(t.pc)
    ensures AbortsMatch(FromWait(t, t2, t3))
  {
    if t.queue != [] { TakeKeepsAborts(t, t3); }
    hide Consistent, Take;
  }

  lemma ResumeKeepsAborts(t: Turn, after: After)
    requires AbortsMatch(t) && t.pc == Yielded(after)
    ensures AbortsMatch(Resumed(t, after))
  {
    hide Consistent;
  }

  lemma StepKeepsAborts(t: Turn, step: Step)
    requires AbortsMatch(t)
    ensures AbortsMatch(Next(t, step))
  {
    if !Enabled(t, step) { return; }
    match step
    case CheckTop(_, t2, t3) => WaitKeepsAborts(t, t2, t3); hide FromWait, Consistent;
    case Wake(t2, t3) => WaitKeepsAborts(t, t2, t3); hide FromWait, Consistent;
    case Resume => ResumeKeepsAborts(t, t.pc.after); hide Resumed, Consistent;
    case _ => hide FromTop, FromWait, Resumed, Consistent;
  }

  // ----- the durable mirror -----

  // The last thing mirrored about a call.
  function LastMirror(mirrors: seq<Mirror>, callID: string): Option<Mirror> {
    if mirrors == [] then None
    else if mirrors[|mirrors| - 1].callID == callID then Some(mirrors[|mirrors| - 1])
    else LastMirror(mirrors[..|mirrors| - 1], callID)
  }

  lemma LastMirrorOfExtension(mirrors: seq<Mirror>, m: Mirror, callID: string)
    ensures LastMirror(mirrors + [m], callID) == if m.callID == callID then Some(m) else LastMirror(mirrors, callID)
  {
    assert (mirrors + [m])[..|mirrors|] == mirrors;
  }

  // A call is open exactly when the last thing mirrored about it says it is running.
  ghost predicate OpenMatches(open: OrderedMap<string, string>, mirrors: seq<Mirror>) {
    forall c :: if c in open.vals then LastMirror(mirrors, c) == Some(Mirror(ToolRunning, c, open.vals[c]))
                else LastMirror(mirrors, c).Some? ==> !LastMirror(mirrors, c).value.status.ToolRunning?
  }

  ghost predicate MirrorsMatch(t: Turn) {
    && (!t.limits.suggestionOnly ==> OpenMatches(t.open, t.mirrors))
    && (t.pc.Aborting? || (t.pc.Ended? && t.aborts > 0) ==> t.open.keys == [])
  }

  lemma MirrorKeepsOpen(t: Turn, status: ToolState, callID: string, tool: string)
    requires OpenMatches(t.open, t.mirrors) && !t.limits.suggestionOnly
    ensures OpenMatches(MirrorOn(t, status, callID, tool).open, MirrorOn(t, status, callID, tool).mirrors)
  {
    hide Consistent, LastMirror;
    forall c { LastMirrorOfExtension(t.mirrors, Mirror(status, callID, tool), c); }
  }

  lemma WaitLeavesMirrors(t: Turn, t2: int, t3: int)
    ensures FromWait(t, t2, t3).open == t.open && FromWait(t, t2, t3).mirrors == t.mirrors
    ensures FromWait(t, t2, t3).limits == t.limits
    ensures !FromWait(t, t2, t3).pc.Aborting? || t.pc.Aborting?
    ensures !FromWait(t, t2, t3).pc.Ended? || t.pc.Ended?
  {
    hide Consistent, React;
  }

  lemma ResumeKeepsMirrors(t: Turn, after: After)
    requires MirrorsMatch(t) && t.pc == Yielded(after)
    ensures MirrorsMatch(Resumed(t, after))
  {
    if after.MirrorTool? && !t.limits.suggestionOnly {
      MirrorKeepsOpen(t.(pc := Top), after.status, after.callID, after.tool);
    }
    hide OpenMatches, Consistent;
  }

  lemma SettleKeepsMirrors(t: Turn)
    requires MirrorsMatch(t) && t.pc.Settling?
    ensures MirrorsMatch(SettleOne(t))
  {
    if t.open.keys != [] && !t.limits.suggestionOnly {
      FirstKeyHasValue(t.open);
      MirrorKeepsOpen(t, ToolFailed, t.open.keys[0], t.open.vals[t.open.keys[0]]);
    }
    hide OpenMatches, Consistent;
  }

  lemma StepKeepsMirrors(t: Turn, step: Step)
    requires MirrorsMatch(t) && AbortsMatch(t)
    ensures MirrorsMatch(Next(t, step))
  {
    if !Enabled(t, step) { return; }
    match step
    case CheckTop(_, t2, t3) => WaitLeavesMirrors(t, t2, t3); hide FromWait, OpenMatches, Consistent;
    case Wake(t2, t3) => WaitLeavesMirrors(t, t2, t3); hide FromWait, OpenMatches, Consistent;
    case Resume => ResumeKeepsMirrors(t, t.pc.after); hide Resumed, OpenMatches, Consistent;
    case Settle => SettleKeepsMirrors(t); hide SettleOne, OpenMatches, Consistent;
    case _ => hide FromTop, FromWait, Resumed, SettleOne, OpenMatches, Consistent;
  }

  lemma FirstKeyHasValue(m: OrderedMap<string, string>)
    ensures m.keys != [] ==> m.keys[0] in m.vals
  {
    if m.keys != [] { assert m.keys[0] in m.keys; }
  }

  // ----- the reply -----

  function ReplyText(chunks: seq<Chunk>): string {
    if chunks == [] then ""
    else
      var last := chunks[|chunks| - 1];
      ReplyText(chunks[..|chunks| - 1]) + (if last.TextChunk? then last.text else "")
  }

  function DeltaText(taken: seq<Taken>): string {
    if taken == [] then ""
    else
      var last := taken[|taken| - 1].event;
      DeltaText(taken[..|taken| - 1]) + (if last.Text? then last.delta else "")
  }

  predicate RepliesMatch(t: Turn) { ReplyText(t.chunks) == DeltaText(t.taken) }

  // At most one chunk more, and none that adds text.
  predicate Silent(before: seq<Chunk>, after: seq<Chunk>) {
    after == before
    || (|after| == |before| + 1 && after[..|before|] == before && !after[|before|].TextChunk?)
  }

  // Either no event was taken and no text added, or one event was taken and its text added.
  predicate Tells(t: Turn, r: Turn) {
    || (r.taken == t.taken && Silent(t.chunks, r.chunks))
    || (|r.taken| == |t.taken| + 1 && r.taken[..|t.taken|] == t.taken
        && var e := r.taken[|t.taken|].event;
           if e.Text? && e.delta != "" then r.chunks == t.chunks + [TextChunk(e.delta)] else Silent(t.chunks, r.chunks))
  }

  lemma TakeTells(t: Turn, at: int)
    requires t.queue != []
    ensures Tells(t, Take(t, at))
  {
    hide Consistent, React;
  }

  lemma WaitTells(t: Turn, t2: int, t3: int)
    ensures Tells(t, FromWait(t, t2, t3))
  {
    if t.queue != [] { TakeTells(t, t3); }
    hide Consistent, Take;
  }

  lemma CheckTopTells(t: Turn, t1: int, t2: int, t3: int)
    ensures Tells(t, FromTop(t, t1, t2, t3))
  {
    WaitTells(t, t2, t3);
    hide Consistent, FromWait;
  }

  lemma OtherStepsTellNothing(t: Turn, step: Step)
    requires !step.CheckTop? && !step.Wake?
    ensures Tells(t, Next(t, step))
  {
    hide Consistent, FromTop, FromWait;
  }

  lemma TellingKeepsReplies(t: Turn, r: Turn)
    requires RepliesMatch(t) && Tells(t, r)
    ensures RepliesMatch(r)
  {
    if r.taken != t.taken && r.taken[|t.taken|].event.Text? && r.taken[|t.taken|].event.delta != "" {
      assert (t.chunks + [TextChunk(r.taken[|t.taken|].event.delta)])[..|t.chunks|] == t.chunks;
    }
  }

  lemma NextTells(t: Turn, step: Step)
    ensures Tells(t, Next(t, step))
  {
    if !Enabled(t, step) { return; }
    match step
    case CheckTop(t1, t2, t3) => CheckTopTells(t, t1, t2, t3); hide Consistent, FromTop, Tells;
    case Wake(t2, t3) => WaitTells(t, t2, t3); hide Consistent, FromWait, Tells;
    case _ => OtherStepsTellNothing(t, step); hide Next, Tells;
  }

  lemma StepKeepsReplies(t: Turn, step: Step)
    requires RepliesMatch(t)
    ensures RepliesMatch(Next(t, step))
  {
    NextTells(t, step);
    hide *;
    TellingKeepsReplies(t, Next(t, step));
  }

  // ----- every run -----

  ghost predicate Inv(t: Turn) {
    && TakenInTime(t) && IdleCompletes(t) && DetachedMatches(t) && MetaLast(t)
    && WithinBudget(t) && AbortsMatch(t) && MirrorsMatch(t) && RepliesMatch(t)
  }

  lemma BeginsWell(limits: Limits)
    ensures Inv(Begun(limits))
  {}

  lemma {:induction false} EveryRunKeepsInv(limits: Limits, steps: seq<Step>)
    ensures Inv(Run(limits, steps)) && Run(limits, steps).limits == limits
  {
    if steps == [] {
      BeginsWell(limits);
    } else {
      var t, step := Run(limits, steps[..|steps| - 1]), steps[|steps| - 1];
      EveryRunKeepsInv(limits, steps[..|steps| - 1]);
      hide Next, TakenInTime, IdleCompletes, DetachedMatches, MetaLast, WithinBudget, AbortsMatch, MirrorsMatch,
           RepliesMatch;
      StepTakesInTime(t, step);
      StepKeepsIdleCompletes(t, step);
      StepKeepsDetached(t, step);
      StepKeepsMeta(t, step);
      StepKeepsBudget(t, step);
      StepKeepsAborts(t, step);
      StepKeepsMirrors(t, step);
      StepKeepsReplies(t, step);
    }
  }

  // An event is taken only before the deadline.
  lemma {:induction false} EventsAreTakenBeforeTheDeadline(limits: Limits, steps: seq<Step>)
    ensures forall k :: 0 <= k < |Run(limits, steps).taken| ==> Run(limits, steps).taken[k].at < limits.deadline
  {
    EveryRunKeepsInv(limits, steps);
  }

  // The text chunks, joined, are the deltas of the events taken, joined: no text is lost, doubled or
  // reordered, however the turn ends.
  lemma {:induction false} ReplyIsTheTextTaken(limits: Limits, steps: seq<Step>)
    ensures ReplyText(Run(limits, steps).chunks) == DeltaText(Run(limits, steps).taken)
  {
    EveryRunKeepsInv(limits, steps);
  }

  // A turn is completed exactly when the last event it took was idle and no Stop came after it.
  lemma {:induction false} CompletedExactly(limits: Limits, steps: seq<Step>)
    ensures var t := Run(limits, steps); t.termination == Completed <==> TookIdle(t) && !StoppedAfterTaking(t)
  {
    EveryRunKeepsInv(limits, steps);
  }

  // The meta chunk is the last chunk and never reports detached; the termination that decides the
  // abort is the reported one exactly unless Stop came between the report and the decision.
  lemma {:induction false} MetaReportsTheEndExactly(limits: Limits, steps: seq<Step>, k: nat)
    requires k < |Run(limits, steps).chunks| && Run(limits, steps).chunks[k].MetaChunk?
    ensures var t := Run(limits, steps);
            && k == |t.chunks| - 1 && t.chunks[k].termination != Detached
            && (t.pc.Ended? ==> (t.final == Some(t.chunks[k].termination)
                                <==> !(StoppedAfterYielding(t) && StopInTime(t))))
  {
    EveryRunKeepsInv(limits, steps);
  }

  lemma RunExtends(limits: Limits, steps: seq<Step>, step: Step)
    ensures Run(limits, steps + [step]) == Next(Run(limits, steps), step)
  {
    assert (steps + [step])[..|steps|] == steps;
  }

  lemma IdleIsTaken(t: Turn, at: int)
    requires t.queue == [SessionIdle] && at < t.limits.deadline
    ensures FromTop(t, at, at, at)
         == t.(queue := [], taken := t.taken + [Taken(SessionIdle, at)], termination := Completed, pc := Enriching)
  {
    hide Consistent;
  }

  lemma IdleIsQueued(limits: Limits)
    ensures Run(limits, [Submitted, Push(SessionIdle)]) == Begun(limits).(pc := Top, queue := [SessionIdle])
  {
    RunExtends(limits, [], Submitted);
    RunExtends(limits, [Submitted], Push(SessionIdle));
    assert Run(limits, []) == Begun(limits);
    hide Run, Consistent, FromTop, FromWait, Resumed, SettleOne;
    assert [] + [Submitted] == [Submitted];
    assert [Submitted] + [Push(SessionIdle)] == [Submitted, Push(SessionIdle)];
  }

  lemma IdleTurnReportsCompleted(limits: Limits)
    requires limits.deadline == 10
    ensures Run(limits, [Submitted, Push(SessionIdle), CheckTop(0, 0, 0), EnrichmentEnds])
         == Begun(limits).(pc := Yielded(Finish), termination := Completed, taken := [Taken(SessionIdle, 0)],
                           chunks := [MetaChunk(Completed, 0)])
  {
    var idle := [Submitted, Push(SessionIdle)];
    IdleIsQueued(limits);
    IdleIsTaken(Run(limits, idle), 0);
    RunExtends(limits, idle, CheckTop(0, 0, 0));
    RunExtends(limits, idle + [CheckTop(0, 0, 0)], EnrichmentEnds);
    hide Run, Consistent, FromTop, FromWait, Resumed, SettleOne;
    assert idle + [CheckTop(0, 0, 0)] + [EnrichmentEnds]
        == [Submitted, Push(SessionIdle), CheckTop(0, 0, 0), EnrichmentEnds];
  }

  // It happens: a turn reports that it completed, is stopped, and has its session aborted.
  lemma {:induction false} StopOverrulesTheReport(limits: Limits)
    requires limits.deadline == 10
    ensures var reported := [Submitted, Push(SessionIdle), CheckTop(0, 0, 0), EnrichmentEnds];
            var t := Run(limits, reported + [StopSignal, Resume, ReaderEnds, ReaderClosed, Settle]);
            t.chunks == [MetaChunk(Completed, 0)] && t.final == Some(Cancelled) && t.aborts == 1
  {
    var reported := [Submitted, Push(SessionIdle), CheckTop(0, 0, 0), EnrichmentEnds];
    IdleTurnReportsCompleted(limits);
    RunExtends(limits, reported, StopSignal);
    RunExtends(limits, reported + [StopSignal], Resume);
    RunExtends(limits, reported + [StopSignal, Resume], ReaderEnds);
    RunExtends(limits, reported + [StopSignal, Resume, ReaderEnds], ReaderClosed);
    RunExtends(limits, reported + [StopSignal, Resume, ReaderEnds, ReaderClosed], Settle);
    hide Run, Consistent, FromTop, FromWait;
    assert reported + [StopSignal] + [Resume] == reported + [StopSignal, Resume];
    assert reported + [StopSignal, Resume] + [ReaderEnds] == reported + [StopSignal, Resume, ReaderEnds];
    assert reported + [StopSignal, Resume, ReaderEnds] + [ReaderClosed]
        == reported + [StopSignal, Resume, ReaderEnds, ReaderClosed];
    assert reported + [StopSignal, Resume, ReaderEnds, ReaderClosed] + [Settle]
        == reported + [StopSignal, Resume, ReaderEnds, ReaderClosed, Settle];
  }

  lemma StoppedTurnTakesIdle(limits: Limits)
    requires limits.deadline == 10
    ensures Run(limits, [Submitted, Push(SessionIdle), StopSignal, CheckTop(0, 0, 0)])
         == Begun(limits).(pc := Enriching, termination := Completed, taken := [Taken(SessionIdle, 0)],
                           stop := Some(StopMark(0, 0, true)))
  {
    var idle := [Submitted, Push(SessionIdle)];
    IdleIsQueued(limits);
    RunExtends(limits, idle, StopSignal);
    RunExtends(limits, idle + [StopSignal], CheckTop(0, 0, 0));
    IdleIsTaken(Run(limits, idle + [StopSignal]), 0);
    hide Run, Consistent, FromTop, FromWait, Resumed, SettleOne;
    assert idle + [StopSignal] + [CheckTop(0, 0, 0)] == [Submitted, Push(SessionIdle), StopSignal, CheckTop(0, 0, 0)];
  }

  // It happens: a turn is stopped in time, takes the idle event that was waiting, completes, and
  // nothing is aborted.
  lemma {:induction false} IdleOverrulesTheStop(limits: Limits)
    requires limits.deadline == 10 && !limits.suggestionOnly
    ensures var taken := [Submitted, Push(SessionIdle), StopSignal, CheckTop(0, 0, 0)];
            var t := Run(limits, taken + [EnrichmentEnds, Resume, ReaderEnds, ReaderClosed]);
            t.pc.Ended? && StopInTime(t) && t.final == Some(Completed) && t.aborts == 0
  {
    var taken := [Submitted, Push(SessionIdle), StopSignal, CheckTop(0, 0, 0)];
    StoppedTurnTakesIdle(limits);
    RunExtends(limits, taken, EnrichmentEnds);
    RunExtends(limits, taken + [EnrichmentEnds], Resume);
    RunExtends(limits, taken + [EnrichmentEnds, Resume], ReaderEnds);
    RunExtends(limits, taken + [EnrichmentEnds, Resume, ReaderEnds], ReaderClosed);
    hide Run, Consistent, FromTop, FromWait, SettleOne;
    assert taken + [EnrichmentEnds] + [Resume] == taken + [EnrichmentEnds, Resume];
    assert taken + [EnrichmentEnds, Resume] + [ReaderEnds] == taken + [EnrichmentEnds, Resume, ReaderEnds];
    assert taken + [EnrichmentEnds, Resume, ReaderEnds] + [ReaderClosed]
        == taken + [EnrichmentEnds, Resume, ReaderEnds, ReaderClosed];
  }

  // With a budget of M > 0, at most M - 1 counted tool calls are shown.
  lemma {:induction false} BudgetBoundsToolCalls(limits: Limits, steps: seq<Step>)
    ensures limits.maxToolCalls > 0 ==> Counted(Run(limits, steps).chunks) <= limits.maxToolCalls - 1
    ensures limits.maxToolCalls > 0 ==> Run(limits, steps).toolCallCount <= limits.maxToolCalls
    ensures limits.maxToolCalls <= 0 ==> Run(limits, steps).toolCallCount == Counted(Run(limits, steps).chunks)
  {
    EveryRunKeepsInv(limits, steps);
  }

  // The session is aborted at most once, and by the end exactly when the turn failed, timed out or
  // was cancelled, or was suggestion-only.
  lemma {:induction false} AbortedExactly(limits: Limits, steps: seq<Step>)
    ensures Run(limits, steps).aborts <= 1
    ensures var t := Run(limits, steps);
            t.pc.Ended? ==>
              && t.final.Some?
              && (t.aborts == 1 <==> t.final.value in {Failed, TimedOut, Cancelled} || limits.suggestionOnly)
  {
    EveryRunKeepsInv(limits, steps);
  }

  // A turn that ends without an abort took idle last, or its consumer went away and nobody pressed Stop.
  lemma {:induction false} LeftAloneMeansIdleOrDetached(limits: Limits, steps: seq<Step>)
    ensures var t := Run(limits, steps);
            t.pc.Ended? && t.aborts == 0 ==> TookIdle(t) || (t.returned && !StopInTime(t))
  {
    EveryRunKeepsInv(limits, steps);
  }

  // A Stop in time aborts the session exactly unless idle is taken after it.
  lemma {:induction false} StopAbortsExactly(limits: Limits, steps: seq<Step>)
    requires !limits.suggestionOnly
    ensures var t := Run(limits, steps);
            t.pc.Ended? && StopInTime(t) ==> (t.aborts == 1 <==> !(TookIdle(t) && t.stop.value.taken < |t.taken|))
  {
    EveryRunKeepsInv(limits, steps);
  }

  lemma {:induction false} LastMirrorFollows(mirrors: seq<Mirror>, k: nat)
    requires k < |mirrors|
    ensures exists j :: k <= j < |mirrors| && LastMirror(mirrors, mirrors[k].callID) == Some(mirrors[j])
  {
    if k < |mirrors| - 1 && mirrors[|mirrors| - 1].callID != mirrors[k].callID {
      LastMirrorFollows(mirrors[..|mirrors| - 1], k);
    } else {
      assert LastMirror(mirrors, mirrors[k].callID) == Some(mirrors[|mirrors| - 1]);
    }
  }

  // A later mirror says the call of mirror k has ended.
  ghost predicate SettledLater(mirrors: seq<Mirror>, k: nat)
    requires k < |mirrors|
  {
    exists j :: k < j < |mirrors| && mirrors[j].callID == mirrors[k].callID && !mirrors[j].status.ToolRunning?
  }

  lemma NothingOpenMeansSettled(mirrors: seq<Mirror>, open: OrderedMap<string, string>, k: nat)
    requires OpenMatches(open, mirrors) && open.keys == []
    requires k < |mirrors| && mirrors[k].status.ToolRunning?
    ensures SettledLater(mirrors, k)
  {
    var c := mirrors[k].callID;
    assert c !in open.vals;
    LastMirrorFollows(mirrors, k);
    LastMirrorIsAboutIt(mirrors, c);
    hide LastMirror, Consistent;
  }

  // By the time the session is aborted, every call mirrored as running has a later terminal mirror.
  lemma {:induction false} AbortClosesEveryCall(limits: Limits, steps: seq<Step>, k: nat)
    requires !limits.suggestionOnly && Run(limits, steps).aborts == 1
    requires k < |Run(limits, steps).mirrors| && Run(limits, steps).mirrors[k].status.ToolRunning?
    ensures SettledLater(Run(limits, steps).mirrors, k)
  {
    EveryRunKeepsInv(limits, steps);
    hide Run, OpenMatches, SettledLater, TakenInTime, IdleCompletes, DetachedMatches, MetaLast, WithinBudget,
         RepliesMatch;
    NothingOpenMeansSettled(Run(limits, steps).mirrors, Run(limits, steps).open, k);
  }

  lemma {:induction false} LastMirrorIsAboutIt(mirrors: seq<Mirror>, c: string)
    ensures LastMirror(mirrors, c).Some? ==> LastMirror(mirrors, c).value.callID == c
  {
    if mirrors != [] && mirrors[|mirrors| - 1].callID != c { LastMirrorIsAboutIt(mirrors[..|mirrors| - 1], c); }
  }

  // ----- settling -----

  function Failures(open: OrderedMap<string, string>): seq<Mirror> {
    seq(|open.keys|, i requires 0 <= i < |open.keys| => Mirror(ToolFailed, open.keys[i], open.vals[open.keys[i]]))
  }

  lemma RemoveFirst(m: OrderedMap<string, string>)
    requires m.keys != []
    ensures Remove(m, m.keys[0]).keys == m.keys[1..]
  {
    assert m.keys[0] !in m.keys[1..];
  }

  lemma SettleOneMirrorsTheFirst(t: Turn)
    requires t.pc.Settling? && !t.limits.suggestionOnly && t.open.keys != []
    ensures t.open.keys[0] in t.open.vals && SettleOne(t).open.keys == t.open.keys[1..]
    ensures SettleOne(t) == t.(open := SettleOne(t).open, mirrors := t.mirrors + [Failures(t.open)[0]])
    ensures Failures(t.open) == [Failures(t.open)[0]] + Failures(SettleOne(t).open)
  {
    FirstKeyHasValue(t.open);
    RemoveFirst(t.open);
  }

  lemma NoFailures(m: OrderedMap<string, string>)
    requires m.keys == []
    ensures m == Empty() && Failures(m) == []
  {
    assert m.vals == map[];
  }

  lemma SettleOneAborts(t: Turn)
    requires t.pc.Settling? && t.open.keys == []
    ensures SettleOne(t) == t.(aborts := t.aborts + 1, pc := Aborting) && Failures(t.open) == []
  {
    NoFailures(t.open);
  }

  // Settling mirrors each open call once as failed, in the order the calls were opened, then aborts once.
  lemma {:induction false} SettlingMirrorsInOrder(t: Turn)
    requires t.pc.Settling? && !t.limits.suggestionOnly
    ensures SettleAll(t).mirrors == t.mirrors + Failures(t.open) && SettleAll(t).open.keys == []
    ensures SettleAll(t).aborts == t.aborts + 1 && SettleAll(t).pc == Aborting && SettleAll(t).final == t.final
    decreases |t.open.keys|
  {
    hide SettleOne, Failures, Consistent;
    var next := SettleOne(t);
    if t.open.keys == [] {
      SettleOneAborts(t);
      assert t.mirrors + [] == t.mirrors;
    } else {
      SettleOneMirrorsTheFirst(t);
      SettlingMirrorsInOrder(next);
      assert SettleAll(t) == SettleAll(next);
      hide SettleAll;
      assert t.mirrors + ([Failures(t.open)[0]] + Failures(next.open))
             == (t.mirrors + [Failures(t.open)[0]]) + Failures(next.open);
    }
  }

  // While it settles, a turn takes no other step than settling, except that Stop may still fire.
  lemma {:induction false} SettlingIsUndisturbed(limits: Limits, steps: seq<Step>, step: Step)
    requires Run(limits, steps).pc.Settling? && Enabled(Run(limits, steps), step)
    ensures step.Settle? || step.StopSignal?
  {
    EveryRunKeepsInv(limits, steps);
    hide Run;
  }

  // ----- a Stop after the decision -----

  // The same turn but for what a Stop writes.
  predicate SameButStop(t: Turn, r: Turn) { r.(termination := t.termination, stop := t.stop) == t }

  // After the decision no step reads what a Stop writes.
  lemma DecidedStepIgnoresStop(t: Turn, r: Turn, step: Step)
    requires AbortsMatch(t) && t.final.Some? && SameButStop(t, r)
    ensures SameButStop(Next(t, step), Next(r, step)) && Next(t, step).final.Some?
  {
    hide Consistent, FromTop, FromWait, Resumed;
  }

  lemma StopWritesNothingElse(t: Turn)
    ensures SameButStop(t, Next(t, StopSignal)) && Next(t, StopSignal).final == t.final
  {
    hide Consistent, FromTop, FromWait, Resumed;
  }

  // A Stop after the decision changes neither the decision, nor the mirrors, nor the abort, nor
  // anything else but the termination, however the run goes on.
  lemma {:induction false} LateStopChangesNothing(limits: Limits, steps: seq<Step>, rest: seq<Step>)
    requires Run(limits, steps).final.Some?
    ensures SameButStop(Run(limits, steps + rest), Run(limits, steps + [StopSignal] + rest))
    ensures Run(limits, steps + rest).final.Some?
  {
    if rest == [] {
      assert steps + rest == steps && steps + [StopSignal] + rest == steps + [StopSignal];
      RunExtends(limits, steps, StopSignal);
      StopWritesNothingElse(Run(limits, steps));
      hide *;
    } else {
      var n := |rest| - 1;
      var t, r := Run(limits, steps + rest[..n]), Run(limits, steps + [StopSignal] + rest[..n]);
      LateStopChangesNothing(limits, steps, rest[..n]);
      RunExtends(limits, steps + rest[..n], rest[n]);
      RunExtends(limits, steps + [StopSignal] + rest[..n], rest[n]);
      assert steps + rest[..n] + [rest[n]] == steps + rest;
      assert steps + [StopSignal] + rest[..n] + [rest[n]] == steps + [StopSignal] + rest;
      DecidedAborts(limits, steps + rest[..n]);
      hide *;
      DecidedStepIgnoresStop(t, r, rest[n]);
    }
  }

  lemma DecidedAborts(limits: Limits, steps: seq<Step>)
    ensures AbortsMatch(Run(limits, steps))
  {
    EveryRunKeepsInv(limits, steps);
    hide Run;
  }
}
