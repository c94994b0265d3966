// The live projection told participant by participant, run by run and entry by entry.

module RoomStories {
  import opened Options
  import opened OrderedMaps
  import opened M9Records
  import opened StreamItems
  import opened Projection
  import opened ProjectionMeaning

  // ----- participants -----

  // Whom a record is about: the agent it targets, or else its actor.
  function SubjectOf(r: M9Record): string {
    match r.data
    case Some(Data(Some(target), _, _)) => if target != "" then "agent-" + target else ActorName(r.actor)
    case _ => ActorName(r.actor)
  }

  function ActorName(a: Actor): string {
    match a.actorType
    case HumanActor => "human-" + a.id
    case AgentActor => "agent-" + a.id
    case SystemActor => "system-" + a.id
  }

  function WorkSaid(r: M9Record): Option<WorkState> {
    if r.recordType == TaskStarted || r.recordType == AgentStarted then Some(Working)
    else if r.recordType == AgentWaiting then Some(Waiting)
    else if r.recordType == TaskCompleted || r.recordType == AgentCompleted then Some(Available)
    else if r.recordType == TaskRunnable && r.actor.actorType == AgentActor then Some(Available)
    else if r.recordType == TaskFailed || r.recordType == AgentFailed then Some(AttentionRequired)
    else if r.recordType == WorkflowFailed && r.actor.actorType == AgentActor then Some(BlockedState)
    else None
  }

  // The interaction a record presents on behalf of the participant, and the one it answers.
  function PresentedBy(r: M9Record, pid: string): Option<string> {
    match r.data
    case Some(Data(_, Some(i), Some(presenter))) =>
      if r.recordType == InteractionPresented && i != "" && presenter != "" && "agent-" + presenter == pid
      then Some(i) else None
    case _ => None
  }

  function Answered(r: M9Record): Option<string> {
    match r.data
    case Some(Data(_, Some(i), _)) => if r.recordType == InteractionResponded && i != "" then Some(i) else None
    case _ => None
  }

  // A human actor under an agent's name is not heeded.
  predicate Heeded(r: M9Record) { r.actor.actorType != HumanActor || !("agent-" <= r.actor.id) }

  // What one participant goes through.
  datatype Story = Story(work: WorkState, assignment: Option<Assignment>, awaited: Option<string>, since: string,
                         last: string)

  predicate Concerns(r: M9Record, pid: string, awaited: Option<string>) {
    Heeded(r) && (SubjectOf(r) == pid || PresentedBy(r, pid).Some? || (awaited.Some? && Answered(r) == awaited))
  }

  function Tell(story: Option<Story>, r: M9Record, pid: string): Option<Story> {
    var awaited := if story.Some? then story.value.awaited else None;
    if !Concerns(r, pid, awaited) then story
    else
      var own := SubjectOf(r) == pid;
      var before := match story
        case Some(s) => s
        case None => Story(Available, None, None, r.timestamp, r.timestamp);
      Some(Story(
        if PresentedBy(r, pid).Some? then Waiting
        else if awaited.Some? && Answered(r) == awaited then Available
        else if own && WorkSaid(r).Some? then WorkSaid(r).value else before.work,
        if own && r.recordType == TaskStarted && Given(r.taskId) && Given(r.workflowRunId)
        then Some(Assignment(r.workflowRunId.value, r.taskId.value)) else before.assignment,
        if PresentedBy(r, pid).Some? then PresentedBy(r, pid)
        else if awaited.Some? && Answered(r) == awaited then None else before.awaited,
        before.since, r.timestamp))
  }

  function StoryOf(records: seq<M9Record>, pid: string): Option<Story> {
    if records == [] then None else Tell(StoryOf(records[..|records| - 1], pid), records[|records| - 1], pid)
  }

  function AsParticipant(story: Option<Story>): Option<Participant> {
    match story
    case None => None
    case Some(s) => Some(Participant(Joined, s.work, s.assignment, s.awaited, s.since, s.last))
  }

  // Seeing the subject of the record, before interactions are looked at.
  function Seen(story: Option<Story>, r: M9Record, pid: string): Option<Story> {
    if SubjectOf(r) != pid then story
    else
      var before := match story
        case Some(s) => s
        case None => Story(Available, None, None, r.timestamp, r.timestamp);
      Some(before.(work := if WorkSaid(r).Some? then WorkSaid(r).value else before.work,
                   assignment := if r.recordType == TaskStarted && Given(r.taskId) && Given(r.workflowRunId)
                                 then Some(Assignment(r.workflowRunId.value, r.taskId.value)) else before.assignment,
                   last := r.timestamp))
  }

  // Then its interaction.
  function Met(story: Option<Story>, r: M9Record, pid: string): Option<Story> {
    if PresentedBy(r, pid).Some? then
      var before := match story
        case Some(s) => s
        case None => Story(Available, None, None, r.timestamp, r.timestamp);
      Some(before.(work := Waiting, awaited := PresentedBy(r, pid), last := r.timestamp))
    else if story.Some? && story.value.awaited.Some? && Answered(r) == story.value.awaited then
      Some(story.value.(work := Available, awaited := None, last := r.timestamp))
    else story
  }

  lemma TellInTwo(story: Option<Story>, r: M9Record, pid: string)
    ensures Tell(story, r, pid) == if Heeded(r) then Met(Seen(story, r, pid), r, pid) else story
  {
    hide WorkSaid;
  }

  lemma SubjectNamed(r: M9Record)
    ensures ParticipantIdOf(r) == SubjectOf(r)
  {
    assert TypeName(HumanActor) + "-" == "human-" && TypeName(AgentActor) + "-" == "agent-";
    assert TypeName(SystemActor) + "-" == "system-";
    assert TypeName(r.actor.actorType) + "-" + r.actor.id == ActorName(r.actor);
  }

  lemma SeenStep(story: Option<Story>, r: M9Record)
    ensures Some(UpdatedParticipant(AsParticipant(story), r)) == AsParticipant(Seen(story, r, SubjectOf(r)))
  {
    WorkAsDerived(r);
    hide DeriveWorkState, WorkSaid;
  }

  lemma WorkAsDerived(r: M9Record)
    ensures DeriveWorkState(r) == WorkSaid(r)
  {}

  lemma {:induction false} ReleasedStep(ps: Participants, keys: seq<string>, i: string, at: string, pid: string)
    ensures Lookup(Release(ps, keys, i, at), pid)
            == match Lookup(ps, pid)
               case Some(p) =>
                 if pid in keys && p.pendingInteractionId == Some(i)
                 then Some(p.(workState := Available, pendingInteractionId := None, lastActivityAt := at)) else Some(p)
               case None => None
  {
    hide Consistent;
    if keys != [] {
      var front, k := keys[..|keys| - 1], keys[|keys| - 1];
      ReleasedStep(ps, front, i, at, pid);
      assert keys == front + [k];
    }
  }

  lemma MetStep(ps: Participants, story: Option<Story>, r: M9Record, pid: string)
    requires Lookup(ps, pid) == AsParticipant(story)
    ensures Lookup(UpdateInteractionWait(ps, r), pid) == AsParticipant(Met(story, r, pid))
  {
    hide Release;
    assert pid in ps.keys <==> pid in ps.vals;
    if Answered(r).Some? { ReleasedStep(ps, ps.keys, Answered(r).value, r.timestamp, pid); }
  }

  lemma ParticipantStep(ps: Participants, story: Option<Story>, r: M9Record, pid: string)
    requires Lookup(ps, pid) == AsParticipant(story)
    ensures Lookup(UpdateParticipants(ps, r), pid) == AsParticipant(Tell(story, r, pid))
  {
    TellInTwo(story, r, pid);
    SubjectNamed(r);
    hide Consistent, UpdatedParticipant, ParticipantIdOf, SubjectOf, Met, Seen, Tell, AsParticipant,
         UpdateInteractionWait;
    if Heeded(r) {
      var id := SubjectOf(r);
      var seen := Put(ps, id, UpdatedParticipant(Lookup(ps, id), r));
      if id == pid { SeenStep(story, r); } else { NotSeen(story, r, pid); }
      assert Lookup(seen, pid) == AsParticipant(Seen(story, r, pid));
      MetStep(seen, Seen(story, r, pid), r, pid);
    }
  }

  lemma NotSeen(story: Option<Story>, r: M9Record, pid: string)
    requires SubjectOf(r) != pid
    ensures Seen(story, r, pid) == story
  {}

  // A participant of the projection is what its own story makes of it, whoever else is in the room.
  lemma {:induction false} ParticipantIsItsStory(records: seq<M9Record>, pid: string)
    ensures Lookup(ProcessAll(EMPTY, records).participants, pid) == AsParticipant(StoryOf(records, pid))
  {
    hide ProcessAll, UpdateParticipants, Tell;
    if records == [] {
      Nothing();
    } else {
      var n := |records| - 1;
      LastStep(records);
      ParticipantIsItsStory(records[..n], pid);
      ParticipantStep(ProcessAll(EMPTY, records[..n]).participants, StoryOf(records[..n], pid), records[n], pid);
    }
  }

  // ----- workflow runs -----

  predicate OfRun(r: M9Record, run: string) { r.workflowRunId == Some(run) && run != "" }

  function StatusSaid(r: M9Record): Option<WorkflowStatus> {
    if r.recordType == WorkflowStarted then Some(Running)
    else if r.recordType == WorkflowCompleted then Some(Completed)
    else if r.recordType == WorkflowFailed then Some(Failed)
    else if r.recordType == WorkflowCancelled then Some(Cancelled)
    else None
  }

  // Record i says how the run stands, and no later one does.
  ghost predicate StatusLastAt(records: seq<M9Record>, run: string, i: int) {
    && 0 <= i < |records| && OfRun(records[i], run) && StatusSaid(records[i]).Some?
    && forall j :: i < j < |records| && OfRun(records[j], run) ==> StatusSaid(records[j]) == None
  }

  ghost predicate FirstOfRunAt(records: seq<M9Record>, run: string, i: int) {
    0 <= i < |records| && OfRun(records[i], run) && forall j :: 0 <= j < i ==> !OfRun(records[j], run)
  }

  ghost predicate LastOfRunAt(records: seq<M9Record>, run: string, i: int) {
    0 <= i < |records| && OfRun(records[i], run) && forall j :: i < j < |records| ==> !OfRun(records[j], run)
  }

  lemma RunStep(records: seq<M9Record>, run: string)
    requires records != []
    ensures var n := |records| - 1;
            SummaryOf(records, run)
            == if OfRun(records[n], run) then Some(UpdatedSummary(SummaryOf(records[..n], run), records[n]))
               else SummaryOf(records[..n], run)
  {
    LastStep(records);
    hide ProcessAll, UpdatedSummary, UpdateSummaries;
    var n := |records| - 1;
    if run == "" {
      EmptyRunHasNoSummary(records);
      EmptyRunHasNoSummary(records[..n]);
    } else {
      SummaryStep(ProcessAll(EMPTY, records[..n]).summaries, records[n], run);
    }
  }

  // One more record, and what the summary then says of its times and status.
  lemma RunTold(records: seq<M9Record>, run: string)
    requires records != []
    ensures var n := |records| - 1;
            var before, after := SummaryOf(records[..n], run), SummaryOf(records, run);
            if !OfRun(records[n], run) then after == before
            else
              && after.Some? && after.value.lastActivityAt == records[n].timestamp
              && after.value.startedAt == (if before.Some? then before.value.startedAt else records[n].timestamp)
              && after.value.status == (if StatusSaid(records[n]).Some? then StatusSaid(records[n]).value
                                        else if before.Some? then before.value.status else Running)
  {
    RunStep(records, run);
    SummaryGrows(SummaryOf(records[..|records| - 1], run), records[|records| - 1]);
    hide SummaryOf, OfRun, UpdatedSummary, StatusSaid;
  }

  lemma NoRuns(run: string)
    ensures SummaryOf([], run) == None
  {
    Nothing();
  }

  lemma {:induction false} RunEndsLast(records: seq<M9Record>, run: string, i: int)
    ensures SummaryOf(records, run).Some? <==> exists j :: LastOfRunAt(records, run, j)
    ensures LastOfRunAt(records, run, i) ==> SummaryOf(records, run).value.lastActivityAt == records[i].timestamp
  {
    if records == [] {
      NoRuns(run);
    } else {
      var n := |records| - 1;
      RunTold(records, run);
      RunEndsLast(records[..n], run, i);
      LastOneGrows(records, run, i);
      hide SummaryOf, OfRun, LastOfRunAt, StatusSaid, ProcessAll;
      assert LastOfRunAt(records, run, i) ==> i <= n by { LastInRange(records, run, i); }
      if !OfRun(records[n], run) && LastOfRunAt(records, run, i) { LastInRange(records[..n], run, i); }
    }
  }

  lemma LastInRange(records: seq<M9Record>, run: string, i: int)
    ensures LastOfRunAt(records, run, i) ==> 0 <= i < |records|
  {}

  lemma {:induction false} RunStandsAsSaid(records: seq<M9Record>, run: string, i: int)
    ensures StatusLastAt(records, run, i) ==>
              SummaryOf(records, run).Some? && Some(SummaryOf(records, run).value.status) == StatusSaid(records[i])
    ensures SummaryOf(records, run).Some? && (forall j :: !StatusLastAt(records, run, j)) ==>
              SummaryOf(records, run).value.status == Running
  {
    if records == [] {
      NoRuns(run);
    } else {
      var n := |records| - 1;
      RunTold(records, run);
      RunStandsAsSaid(records[..n], run, i);
      StatusGrows(records, run, i);
      StatusInRange(records, run, i);
      StatusInRange(records[..n], run, i);
      hide *;
    }
  }

  lemma StatusInRange(records: seq<M9Record>, run: string, i: int)
    ensures StatusLastAt(records, run, i) ==> 0 <= i < |records|
  {}

  lemma {:induction false} RunBeginsFirst(records: seq<M9Record>, run: string, i: int)
    requires FirstOfRunAt(records, run, i)
    ensures SummaryOf(records, run).Some? && SummaryOf(records, run).value.startedAt == records[i].timestamp
  {
    var n := |records| - 1;
    RunTold(records, run);
    if i < n {
      FirstStays(records, run, i);
      RunBeginsFirst(records[..n], run, i);
      hide *;
    } else {
      FirstRecordBegins(records, run);
      hide *;
    }
  }

  lemma FirstRecordBegins(records: seq<M9Record>, run: string)
    requires records != [] && FirstOfRunAt(records, run, |records| - 1)
    ensures SummaryOf(records[..|records| - 1], run) == None && OfRun(records[|records| - 1], run)
  {
    RunEndsLast(records[..|records| - 1], run, 0);
    NoneBeforeFirst(records, run);
    hide SummaryOf, LastOfRunAt, OfRun;
  }

  lemma FirstStays(records: seq<M9Record>, run: string, i: int)
    requires FirstOfRunAt(records, run, i) && i < |records| - 1
    ensures FirstOfRunAt(records[..|records| - 1], run, i) && records[..|records| - 1][i] == records[i]
  {
    hide OfRun;
  }

  lemma NoneBeforeFirst(records: seq<M9Record>, run: string)
    requires records != [] && FirstOfRunAt(records, run, |records| - 1)
    ensures var front := records[..|records| - 1]; forall j :: !LastOfRunAt(front, run, j)
  {
    hide OfRun;
  }

  // A run has a summary exactly when a record names it. It stands as the last record that says how,
  // and as running while none has; it began with its first record and was last active with its last.
  lemma {:induction false} RunIsItsRecords(records: seq<M9Record>, run: string, i: int)
    ensures SummaryOf(records, run).Some? <==> exists j :: LastOfRunAt(records, run, j)
    ensures StatusLastAt(records, run, i) ==>
              SummaryOf(records, run).Some? && Some(SummaryOf(records, run).value.status) == StatusSaid(records[i])
    ensures SummaryOf(records, run).Some? && (forall j :: !StatusLastAt(records, run, j)) ==>
              SummaryOf(records, run).value.status == Running
    ensures FirstOfRunAt(records, run, i) ==>
              SummaryOf(records, run).Some? && SummaryOf(records, run).value.startedAt == records[i].timestamp
    ensures LastOfRunAt(records, run, i) ==> SummaryOf(records, run).value.lastActivityAt == records[i].timestamp
  {
    RunEndsLast(records, run, i);
    RunStandsAsSaid(records, run, i);
    if FirstOfRunAt(records, run, i) { RunBeginsFirst(records, run, i); }
  }

  lemma SummaryGrows(before: Option<Summary>, r: M9Record)
    ensures var u := UpdatedSummary(before, r);
            && u.lastActivityAt == r.timestamp
            && u.startedAt == (if before.Some? then before.value.startedAt else r.timestamp)
            && u.status == (if StatusSaid(r).Some? then StatusSaid(r).value
                            else if before.Some? then before.value.status else Running)
  {}

  lemma LastOneGrows(records: seq<M9Record>, run: string, i: int)
    requires records != []
    ensures var n := |records| - 1;
            if OfRun(records[n], run)
            then LastOfRunAt(records, run, n) && (LastOfRunAt(records, run, i) ==> i == n)
            else forall j :: LastOfRunAt(records, run, j) <==> LastOfRunAt(records[..n], run, j)
  {
    hide OfRun;
    assert forall j :: 0 <= j < |records| - 1 ==> records[..|records| - 1][j] == records[j];
  }

  lemma StatusGrows(records: seq<M9Record>, run: string, i: int)
    requires records != []
    ensures var n := |records| - 1;
            if OfRun(records[n], run) && StatusSaid(records[n]).Some?
            then StatusLastAt(records, run, n) && (StatusLastAt(records, run, i) ==> i == n)
            else forall j :: StatusLastAt(records, run, j) <==> StatusLastAt(records[..n], run, j)
  {
    hide OfRun, StatusSaid;
    assert forall j :: 0 <= j < |records| - 1 ==> records[..|records| - 1][j] == records[j];
  }

  // ----- attention -----

  // The entry a record raises, if it raises one.
  function Raises(r: M9Record): Option<Attention> {
    var interaction := match r.data case Some(d) => d.interactionId case None => None;
    if r.recordType == TaskFailed then Some(OfTask(r, TaskFailedReason, r.taskId))
    else if r.recordType == AgentWaiting then Some(OfTask(r, WaitingForHuman, r.taskId))
    else if r.recordType == AgentFailed then Some(OfTask(r, AttentionRequiredReason, r.taskId))
    else if r.recordType == WorkflowFailed then Some(OfTask(r, WorkflowFailedReason, None))
    else if r.recordType == InteractionPresented then
      var name := match interaction case Some(i) => i case None => r.activityId;
      Some(Attention("att-interaction-" + name, InteractionPresentedReason, None, interaction, r.activityId,
                     r.timestamp, Open))
    else None
  }

  function OfTask(r: M9Record, reason: Reason, taskId: Option<string>): Attention {
    Attention("att-" + r.activityId, reason, taskId, None, r.activityId, r.timestamp, Open)
  }

  // A fresh entry takes the place of the open one about the same task for the same reason, or about the
  // same interaction.
  predicate TakesPlaceOf(late: Attention, earlier: Attention) {
    && earlier.status == Open && earlier.reason == late.reason
    && ((late.taskId.Some? && earlier.taskId == late.taskId)
        || (Given(late.interactionId) && earlier.interactionId == late.interactionId))
  }

  lemma RaisesAsDerived(r: M9Record)
    ensures DeriveAttention(r) == Raises(r)
    ensures Raises(r).Some? ==> Shaped(Raises(r).value) && Raises(r).value.status == Open
    ensures Raises(r).Some? && Given(Raises(r).value.interactionId) ==> Raises(r).value.taskId == None
  {}

  lemma RaisedOverTask(att: seq<Attention>, a: Attention, x: Attention)
    requires NoTwins(att) && a.status == Open && a.taskId.Some? && !Given(a.interactionId)
    ensures x in DropOlder(Raise(att, a), a) <==> x == a || (x in att && !TakesPlaceOf(a, x))
  {
    var p := First(att, SameOpenCondition(a));
    assert DropOlder(Raise(att, a), a) == Raise(att, a);
    if p < |att| {
      assert att[p := a][p] == a;
      forall j | 0 <= j < |att| && j != p ensures !TakesPlaceOf(a, att[j]) && att[p := a][j] == att[j] {
        if p < j { assert !OpenTwins(att[p], att[j]); } else { assert !OpenTwins(att[j], att[p]); }
      }
      assert TakesPlaceOf(a, att[p]);
    }
  }

  lemma RaisedOverInteraction(att: seq<Attention>, a: Attention, x: Attention)
    requires NoTwins(att) && WellShaped(att) && Shaped(a) && a.status == Open && a.taskId == None
    ensures x in DropOlder(Raise(att, a), a) <==> x == a || (x in att && !TakesPlaceOf(a, x))
  {
    var raised := att + [a];
    var d := First(raised, SameOpenInteraction(a));
    assert SameOpenInteraction(a)(raised[|att|]);
    if Given(a.interactionId) && d < |att| {
      var rest := att[..d] + att[d + 1..];
      assert DropOlder(raised, a) == rest + [a];
      assert att == att[..d] + [att[d]] + att[d + 1..];
      assert TakesPlaceOf(a, att[d]);
      forall j | 0 <= j < |att| && j != d ensures !TakesPlaceOf(a, att[j]) {
        if d < j { assert !OpenTwins(att[d], att[j]); } else { assert !OpenTwins(att[j], att[d]); }
      }
    } else {
      assert DropOlder(raised, a) == raised;
      forall j | 0 <= j < |att| ensures !TakesPlaceOf(a, att[j]) {}
    }
  }

  // In every reachable state, a record that raises an entry leaves exactly it and the entries it does
  // not take the place of.
  lemma {:induction false} RaisingLeavesExactly(records: seq<M9Record>, r: M9Record, x: Attention)
    requires Raises(r).Some?
    ensures x in ProcessAll(EMPTY, records + [r]).attention
            <==> x == Raises(r).value
                 || (x in ProcessAll(EMPTY, records).attention && !TakesPlaceOf(Raises(r).value, x))
  {
    var att, a := ProcessAll(EMPTY, records).attention, Raises(r).value;
    ReachableAttentionHasNoTwins(records);
    OneMore(records, r);
    RaisesAsDerived(r);
    RaisingOnly(att, r);
    hide ProcessAll, GenerateAttention, NoTwins, WellShaped, DropOlder, Raise, Raises, DeriveAttention;
    if a.taskId.Some? { RaisedOverTask(att, a, x); } else { RaisedOverInteraction(att, a, x); }
  }

  lemma OneMore(records: seq<M9Record>, r: M9Record)
    ensures ProcessAll(EMPTY, records + [r]).attention == GenerateAttention(ProcessAll(EMPTY, records).attention, r)
  {
    LastStep(records + [r]);
    assert (records + [r])[..|records|] == records;
  }

  lemma RaisingOnly(att: seq<Attention>, r: M9Record)
    requires DeriveAttention(r).Some?
    ensures GenerateAttention(att, r) == DropOlder(Raise(att, DeriveAttention(r).value), DeriveAttention(r).value)
  {
    hide Raise, DropOlder;
  }

  // A record that neither raises an entry, nor completes a task, nor answers an interaction leaves
  // attention alone; an answer changes only the open entry of its interaction, which it resolves.
  lemma {:induction false} OthersLeaveAttention(records: seq<M9Record>, r: M9Record)
    requires Raises(r) == None && r.recordType != TaskCompleted
    ensures var before, after := ProcessAll(EMPTY, records).attention, ProcessAll(EMPTY, records + [r]).attention;
            && |after| == |before|
            && forall j :: 0 <= j < |before| ==>
                 after[j] == if Answered(r).Some? && OpenFor(before[j], Answered(r).value)
                             then before[j].(status := Resolved(r.timestamp)) else before[j]
  {
    var att := ProcessAll(EMPTY, records).attention;
    ReachableAttentionHasNoTwins(records);
    OneMore(records, r);
    RaisesAsDerived(r);
    hide ProcessAll, Raises, DeriveAttention;
    if Answered(r).Some? {
      AnswerResolvesOnlyIts(att, r, Answered(r).value);
    } else {
      assert GenerateAttention(att, r) == att;
    }
  }

  lemma AnswerResolvesOnlyIts(att: seq<Attention>, r: M9Record, i: string)
    requires NoTwins(att) && Answered(r) == Some(i) && DeriveAttention(r) == None
    ensures var after := GenerateAttention(att, r);
            && |after| == |att|
            && forall j :: 0 <= j < |att| ==>
                 after[j] == if OpenFor(att[j], i) then att[j].(status := Resolved(r.timestamp)) else att[j]
  {
    hide Raise, DropOlder, DeriveAttention;
    var first := First(att, OpenOfInteraction(i));
    assert GenerateAttention(att, r) == ResolveFirst(att, OpenOfInteraction(i), r.timestamp);
    forall j | first < j < |att| ensures !OpenFor(att[j], i) { assert !OpenTwins(att[first], att[j]); }
  }

  // ----- the stream -----

  // What is shown first, and what may be folded away.
  predicate Leads(t: RecordType) {
    t in {HumanMessage, WorkflowStarted, WorkflowCompleted, WorkflowFailed, InteractionPresented}
  }

  predicate Folds(r: M9Record) {
    || r.recordType in {AgentProgress, AgentStarted, AgentWaiting, AgentCancelled, TaskRunnable, TaskCancelled,
                        WorkflowCancelled}
    || (r.recordType == SystemEvent && r.data == None)
  }

  // An item carries its record's identity, place and time, and its weight goes by the record's type.
  lemma {:induction false} ItemsWeighAsTheirRecords(r: M9Record)
    ensures var item := ToStreamItem(r);
            && item.activityId == r.activityId && item.sequenceNumber == r.sequenceNumber
            && item.timestamp == r.timestamp
            && (item.importance == Primary <==> Leads(r.recordType))
            && (item.importance == Muted <==> Folds(r))
  {}
}
