// The live projection (m10-projection-runtime.ts): participants, stream window, workflow summaries
// and attention, rebuilt from durable records and kept up to date record by record.

module Projection {
  import opened Options
  import opened OrderedMaps
  import opened Sequences
  import opened M9Records
  import opened StreamItems

  const MAX_STREAM_ITEMS := 500

  // ----- participants -----

  datatype WorkState = Available | Working | Waiting | AttentionRequired | BlockedState
  datatype Membership = Joined | OtherMembership
  datatype Assignment = Assignment(workflowRunId: string, taskId: string)

  datatype Participant = Participant(membership: Membership, workState: WorkState,
                                     currentAssignment: Option<Assignment>, pendingInteractionId: Option<string>,
                                     joinedAt: string, lastActivityAt: string)

  type Participants = OrderedMap<string, Participant>

  function TypeName(t: ActorType): string {
    match t
    case HumanActor => "human"
    case AgentActor => "agent"
    case SystemActor => "system"
  }

  // A human-typed actor carrying an agent-style id changes no participant.
  predicate Admitted(r: M9Record) {
    !(r.actor.actorType == HumanActor && "agent-" <= r.actor.id)
  }

  function TargetAgentOf(r: M9Record): Option<string> {
    NonEmpty(if r.data.Some? then r.data.value.targetAgentId else None)
  }

  function ParticipantIdOf(r: M9Record): string {
    match TargetAgentOf(r)
    case Some(target) => "agent-" + target
    case None => TypeName(r.actor.actorType) + "-" + r.actor.id
  }

  predicate IsAgentLifecycle(t: RecordType) {
    t in {AgentAssigned, AgentStarted, AgentProgress, AgentWaiting, AgentCompleted, AgentFailed, AgentCancelled}
  }

  function DeriveMembership(r: M9Record): Option<Membership> {
    if r.recordType == HumanMessage && r.actor.actorType == HumanActor then Some(Joined)
    else if IsAgentLifecycle(r.recordType) then Some(Joined)
    else None
  }

  function DeriveWorkState(r: M9Record): Option<WorkState> {
    match r.recordType
    case TaskStarted | AgentStarted => Some(Working)
    case TaskRunnable => if r.actor.actorType == AgentActor then Some(Available) else None
    case TaskCompleted | AgentCompleted => Some(Available)
    case TaskFailed | AgentFailed => Some(AttentionRequired)
    case AgentWaiting => Some(Waiting)
    case WorkflowFailed => if r.actor.actorType == AgentActor then Some(BlockedState) else None
    case _ => None
  }

  function DeriveAssignment(r: M9Record): Option<Assignment> {
    if r.recordType == TaskStarted && NonEmpty(r.taskId).Some? && NonEmpty(r.workflowRunId).Some?
    then Some(Assignment(r.workflowRunId.value, r.taskId.value)) else None
  }

  function UpdatedParticipant(existing: Option<Participant>, r: M9Record): Participant {
    match existing
    case Some(p) =>
      p.(membership := DeriveMembership(r).GetOr(if TargetAgentOf(r).Some? then Joined else p.membership),
         workState := DeriveWorkState(r).GetOr(p.workState),
         currentAssignment := if DeriveAssignment(r).Some? then DeriveAssignment(r) else p.currentAssignment,
         lastActivityAt := r.timestamp)
    case None =>
      Participant(DeriveMembership(r).GetOr(Joined), DeriveWorkState(r).GetOr(Available), DeriveAssignment(r), None,
                  r.timestamp, r.timestamp)
  }

  function PresenterOf(r: M9Record): Option<string> {
    NonEmpty(if r.data.Some? then r.data.value.presentingParticipantId else None)
  }

  function MarkWaiting(existing: Option<Participant>, interactionId: string, timestamp: string): Participant {
    match existing
    case Some(p) =>
      p.(workState := Waiting, pendingInteractionId := Some(interactionId), lastActivityAt := timestamp)
    case None => Participant(Joined, Waiting, None, Some(interactionId), timestamp, timestamp)
  }

  // A loop over `keys`: whoever waits on the interaction becomes available.
  function Release(ps: Participants, keys: seq<string>, interactionId: string, timestamp: string): Participants {
    if keys == [] then ps
    else
      var before, k := Release(ps, keys[..|keys| - 1], interactionId, timestamp), keys[|keys| - 1];
      if k in before.vals && before.vals[k].pendingInteractionId == Some(interactionId) then
        Put(before, k,
            before.vals[k].(workState := Available, pendingInteractionId := None, lastActivityAt := timestamp))
      else before
  }

  function UpdateInteractionWait(ps: Participants, r: M9Record): Participants {
    match NonEmpty(InteractionIdOf(r))
    case None => ps
    case Some(interactionId) =>
      if r.recordType == InteractionPresented then
        match PresenterOf(r)
        case None => ps
        case Some(presenter) =>
          Put(ps, "agent-" + presenter, MarkWaiting(Lookup(ps, "agent-" + presenter), interactionId, r.timestamp))
      else if r.recordType == InteractionResponded then Release(ps, ps.keys, interactionId, r.timestamp)
      else ps
  }

  function UpdateParticipants(ps: Participants, r: M9Record): Participants {
    if !Admitted(r) then ps
    else
      var id := ParticipantIdOf(r);
      UpdateInteractionWait(Put(ps, id, UpdatedParticipant(Lookup(ps, id), r)), r)
  }

  // ----- workflow summaries: indicators, never sums -----

  datatype WorkflowStatus = Running | Completed | Failed | Cancelled
  datatype Summary = Summary(status: WorkflowStatus, taskCount: nat, completedTasks: nat, failedTasks: nat,
                             currentTask: Option<string>, startedAt: string, lastActivityAt: string)

  function DeriveWorkflowStatus(r: M9Record): Option<WorkflowStatus> {
    match r.recordType
    case WorkflowStarted => Some(Running)
    case WorkflowCompleted => Some(Completed)
    case WorkflowFailed => Some(Failed)
    case WorkflowCancelled => Some(Cancelled)
    case _ => None
  }

  function UpdatedSummary(existing: Option<Summary>, r: M9Record): Summary {
    var s := existing.GetOr(Summary(Running, 0, 0, 0, None, r.timestamp, r.timestamp));
    s.(status := DeriveWorkflowStatus(r).GetOr(s.status),
         taskCount := if r.recordType == TaskRunnable then 1 else s.taskCount,
         completedTasks := if r.recordType == TaskCompleted then 1 else s.completedTasks,
         failedTasks := if r.recordType == TaskFailed then 1 else s.failedTasks,
         currentTask := if r.recordType == TaskStarted && r.taskId.Some? then r.taskId else s.currentTask,
         lastActivityAt := r.timestamp)
  }

  type Summaries = OrderedMap<string, Summary>

  function UpdateSummaries(summaries: Summaries, r: M9Record): Summaries {
    match NonEmpty(r.workflowRunId)
    case None => summaries
    case Some(run) => Put(summaries, run, UpdatedSummary(Lookup(summaries, run), r))
  }

  // ----- attention -----

  datatype Reason = TaskFailedReason | WorkflowFailedReason | WaitingForHuman | AttentionRequiredReason
                  | InteractionPresentedReason
  datatype Status = Open | Resolved(at: string)
  datatype Attention = Attention(attentionId: string, reason: Reason, taskId: Option<string>,
                                 interactionId: Option<string>, sourceRecordId: string, timestamp: string,
                                 status: Status)

  function DeriveAttention(r: M9Record): Option<Attention> {
    match r.recordType
    case TaskFailed =>
      Some(Attention("att-" + r.activityId, TaskFailedReason, r.taskId, None, r.activityId, r.timestamp, Open))
    case WorkflowFailed =>
      Some(Attention("att-" + r.activityId, WorkflowFailedReason, None, None, r.activityId, r.timestamp, Open))
    case AgentWaiting =>
      Some(Attention("att-" + r.activityId, WaitingForHuman, r.taskId, None, r.activityId, r.timestamp, Open))
    case AgentFailed =>
      Some(Attention("att-" + r.activityId, AttentionRequiredReason, r.taskId, None, r.activityId, r.timestamp, Open))
    case InteractionPresented =>
      Some(Attention("att-interaction-" + InteractionIdOf(r).GetOr(r.activityId), InteractionPresentedReason, None,
                     InteractionIdOf(r), r.activityId, r.timestamp, Open))
    case _ => None
  }

  // Array.prototype.find / indexOf: the first position satisfying p, or the length.
  function First<T>(s: seq<T>, p: T -> bool): (i: nat)
    ensures i <= |s| && (i < |s| ==> p(s[i]))
    ensures forall j :: 0 <= j < i ==> !p(s[j])
  {
    if s == [] || p(s[0]) then 0 else 1 + First(s[1..], p)
  }

  function SameOpenCondition(a: Attention): Attention -> bool {
    (b: Attention) => b.taskId == a.taskId && b.reason == a.reason && b.status == Open
  }

  function SameOpenInteraction(a: Attention): Attention -> bool {
    (b: Attention) => b.interactionId == a.interactionId && b.reason == a.reason && b.status == Open
  }

  function OpenOfTask(taskId: Option<string>): Attention -> bool {
    (b: Attention) => b.taskId == taskId && b.status == Open
  }

  function OpenOfInteraction(interactionId: string): Attention -> bool {
    (b: Attention) => b.interactionId == Some(interactionId) && b.status == Open
  }

  // Replace the open entry of the same task and reason, or append.
  function Raise(att: seq<Attention>, a: Attention): seq<Attention> {
    var i := First(att, SameOpenCondition(a));
    if a.taskId.Some? && i < |att| then att[i := a] else att + [a]
  }

  // Of two open entries for one interaction the older goes; `a` itself was appended last.
  function DropOlder(att: seq<Attention>, a: Attention): seq<Attention> {
    var i := First(att, SameOpenInteraction(a));
    if NonEmpty(a.interactionId).Some? && i < |att| - 1 then att[..i] + att[i + 1..] else att
  }

  function ResolveFirst(att: seq<Attention>, p: Attention -> bool, at: string): seq<Attention> {
    var i := First(att, p);
    if i < |att| then att[i := att[i].(status := Resolved(at))] else att
  }

  function GenerateAttention(att: seq<Attention>, r: M9Record): seq<Attention> {
    var raised := match DeriveAttention(r)
      case Some(a) => DropOlder(Raise(att, a), a)
      case None => att;
    var settled := if r.recordType == TaskCompleted && NonEmpty(r.taskId).Some?
                   then ResolveFirst(raised, OpenOfTask(r.taskId), r.timestamp) else raised;
    if r.recordType == InteractionResponded && NonEmpty(InteractionIdOf(r)).Some?
    then ResolveFirst(settled, OpenOfInteraction(InteractionIdOf(r).value), r.timestamp) else settled
  }

  // ----- the whole projection -----

  datatype Cursor = Cursor(sequenceNumber: int, timestamp: string)
  datatype State = State(participants: Participants, stream: seq<StreamItem>, attention: seq<Attention>,
                         summaries: Summaries, cursor: Option<Cursor>)

  const EMPTY := State(Empty(), [], [], Empty(), None)

  function Process(s: State, r: M9Record): State {
    State(UpdateParticipants(s.participants, r), LastOf(s.stream + [ToStreamItem(r)], MAX_STREAM_ITEMS),
          GenerateAttention(s.attention, r), UpdateSummaries(s.summaries, r),
          Some(Cursor(r.sequenceNumber, r.timestamp)))
  }

  function ProcessAll(s: State, records: seq<M9Record>): State {
    if records == [] then s else Process(ProcessAll(s, records[..|records| - 1]), records[|records| - 1])
  }

  class ProjectionRuntime {
    var participants: Participants
    var stream: seq<StreamItem>
    var attention: seq<Attention>
    var workflowSummaries: Summaries
    var cursor: Option<Cursor>

    ghost function View(): State
      reads this
    {
      State(participants, stream, attention, workflowSummaries, cursor)
    }

    constructor ()
      ensures View() == EMPTY
    {
      participants, stream, attention, workflowSummaries, cursor := Empty(), [], [], Empty(), None;
    }

    // Whatever the runtime held before, it now holds the projection of exactly these records.
    method Rebuild(records: seq<M9Record>)
      modifies this
      ensures View() == ProcessAll(EMPTY, records)
    {
      participants, stream, attention, workflowSummaries, cursor := Empty(), [], [], Empty(), None;
      for i := 0 to |records|
        invariant View() == ProcessAll(EMPTY, records[..i])
      {
        assert records[..i + 1][..i] == records[..i];
        ProcessRecord(records[i]);
      }
      assert records[..|records|] == records;
    }

    method ProcessRecord(r: M9Record)
      modifies this
      ensures View() == Process(old(View()), r)
    {
      cursor := Some(Cursor(r.sequenceNumber, r.timestamp));
      UpdateParticipantFromRecord(r);
      stream := stream + [ToStreamItem(r)];
      if |stream| > MAX_STREAM_ITEMS { stream := stream[|stream| - MAX_STREAM_ITEMS..]; }
      UpdateWorkflowSummary(r);
      GenerateAttentionFor(r);
    }

    method UpdateParticipantFromRecord(r: M9Record)
      modifies this`participants
      ensures participants == UpdateParticipants(old(participants), r)
    {
      hide Consistent, UpdatedParticipant;
      if r.actor.actorType == HumanActor && "agent-" <= r.actor.id { return; }
      var participantId := ParticipantIdOf(r);
      participants := Put(participants, participantId, UpdatedParticipant(Lookup(participants, participantId), r));
      UpdateInteractionWaitParticipant(r);
    }

    method UpdateInteractionWaitParticipant(r: M9Record)
      modifies this`participants
      ensures participants == UpdateInteractionWait(old(participants), r)
    {
      hide Consistent, MarkWaiting, NonEmpty, Release;
      var id := NonEmpty(InteractionIdOf(r));
      if id == None { return; }
      if r.recordType == InteractionPresented {
        var presenter := PresenterOf(r);
        if presenter == None { return; }
        var participantId := "agent-" + presenter.value;
        participants := Put(participants, participantId,
                            MarkWaiting(Lookup(participants, participantId), id.value, r.timestamp));
      } else if r.recordType == InteractionResponded {
        participants := ReleaseWaiting(participants, id.value, r.timestamp);
      }
    }

    static method ReleaseWaiting(ps: Participants, interactionId: string, timestamp: string)
      returns (released: Participants)
      ensures released == Release(ps, ps.keys, interactionId, timestamp)
    {
      hide Consistent;
      released := ps;
      for i := 0 to |ps.keys|
        invariant released == Release(ps, ps.keys[..i], interactionId, timestamp)
      {
        assert ps.keys[..i + 1][..i] == ps.keys[..i];
        var k := ps.keys[i];
        if k in released.vals && released.vals[k].pendingInteractionId == Some(interactionId) {
          released := Put(released, k, released.vals[k].(workState := Available, pendingInteractionId := None,
                                                         lastActivityAt := timestamp));
        }
      }
      assert ps.keys[..|ps.keys|] == ps.keys;
    }

    method UpdateWorkflowSummary(r: M9Record)
      modifies this`workflowSummaries
      ensures workflowSummaries == UpdateSummaries(old(workflowSummaries), r)
    {
      var run := NonEmpty(r.workflowRunId);
      if run.Some? {
        workflowSummaries := Put(workflowSummaries, run.value, UpdatedSummary(Lookup(workflowSummaries, run.value), r));
      }
    }

    method GenerateAttentionFor(r: M9Record)
      modifies this`attention
      ensures attention == GenerateAttention(old(attention), r)
    {
      hide DeriveAttention, Raise, DropOlder, ResolveFirst;
      var derived := DeriveAttention(r);
      if derived.Some? { RaiseAttention(derived.value); }
      if r.recordType == TaskCompleted && NonEmpty(r.taskId).Some? {
        ResolveFirstOpen(OpenOfTask(r.taskId), r.timestamp);
      }
      if r.recordType == InteractionResponded && NonEmpty(InteractionIdOf(r)).Some? {
        ResolveFirstOpen(OpenOfInteraction(InteractionIdOf(r).value), r.timestamp);
      }
    }

    method RaiseAttention(a: Attention)
      modifies this`attention
      ensures attention == DropOlder(Raise(old(attention), a), a)
    {
      hide First;
      var existing := if a.taskId.Some? then First(attention, SameOpenCondition(a)) else |attention|;
      if existing < |attention| {
        attention := attention[existing := a];
      } else {
        attention := attention + [a];
      }
      if NonEmpty(a.interactionId).Some? {
        var dup := First(attention, SameOpenInteraction(a));
        if dup < |attention| - 1 { attention := attention[..dup] + attention[dup + 1..]; }
      }
    }

    method ResolveFirstOpen(p: Attention -> bool, at: string)
      modifies this`attention
      ensures attention == ResolveFirst(old(attention), p, at)
    {
      var i := First(attention, p);
      if i < |attention| { attention := attention[i := attention[i].(status := Resolved(at))]; }
    }
  }
}
