// The append-only activity history (contracts.ts) and the two read models computed from it:
// "needs attention" (attention.ts) and "effective state" (effective-state.ts).

module ActivityRecords {
  import opened Options
  import opened Sorting

  datatype Effect = Message | Finding | Recommendation | Decision | Authorization
                  | Intervention | Handoff | Closure | Recognition | Hold

  datatype Severity = Low | Medium | High | Critical

  datatype TaskStatus = Pending | Ready | Assigned | InProgress | AwaitingApproval | Reviewing
                      | ChangesRequested | Testing | Approved | Retrying | Blocked | TaskFailed
                      | Cancelled | TaskCompleted

  datatype Outcome = Passed | Failed | Inconclusive | OutcomeBlocked

  datatype MessageKind = ApprovalRequest | ApprovalDecision | OtherMessage

  datatype Kind =
    | Workflow(currentState: string, authoritative: bool)
    | Task(status: TaskStatus)
    | AgentMessage(messageKind: MessageKind, threadId: Option<string>, turnId: Option<string>,
                   toolName: Option<string>, risk: Option<Severity>)
    | ToolCall
    | ToolResult(callID: string, completed: bool)
    | Test(command: string, passed: int, failed: int)
    | Verification(verificationRunId: Option<string>, outcome: Outcome)
    | Acceptance

  datatype RawRecord = Record(id: string, sequence: int, timestamp: string,
                              workflowId: Option<string>, sessionId: Option<string>,
                              taskId: Option<string>, correlationId: Option<string>,
                              effect: Option<Effect>, relatesTo: seq<string>,
                              correctionOf: Option<string>, kind: Kind)

  // Workflow and acceptance records always name their workflow, task records their task.
  predicate HasOwnSubject(r: RawRecord) {
    && (r.kind.Workflow? || r.kind.Acceptance? ==> r.workflowId.Some?)
    && (r.kind.Task? ==> r.taskId.Some?)
  }

  type ActivityRecord = r: RawRecord | HasOwnSubject(r)
    witness Record("", 0, "", None, None, None, None, None, [], None, ToolCall)

  predicate OpensItem(effect: Option<Effect>) {
    effect == Some(Hold) || effect == Some(Finding) || effect == Some(Recommendation)
  }

  predicate Disposes(effect: Option<Effect>) {
    effect == Some(Closure) || effect == Some(Decision) || effect == Some(Authorization) || effect == Some(Intervention)
  }

  function CompareRecords(left: ActivityRecord, right: ActivityRecord): int {
    if left.sequence != right.sequence then left.sequence - right.sequence else CompareText(left.id, right.id)
  }

  lemma RecordOrderIsTotal()
    ensures TotalPreorder(CompareRecords)
    ensures forall x, y :: CompareRecords(x, y) == 0 <==> x.sequence == y.sequence && x.id == y.id
  {
    forall x: ActivityRecord, y: ActivityRecord
      ensures CompareRecords(x, y) < 0 <==> CompareRecords(y, x) > 0
      ensures CompareRecords(x, y) == 0 <==> x.sequence == y.sequence && x.id == y.id
    {
      CompareTextAntisymmetric(x.id, y.id);
    }
    forall x: ActivityRecord, y: ActivityRecord, z: ActivityRecord
      | CompareRecords(x, y) <= 0 && CompareRecords(y, z) <= 0
      ensures CompareRecords(x, z) <= 0
    {
      if x.sequence == y.sequence == z.sequence { CompareTextTransitive(x.id, y.id, z.id); }
    }
  }

  function InOrder(records: seq<ActivityRecord>): seq<ActivityRecord> {
    Sort(CompareRecords, records)
  }

  // No two records of the history share a sequence number, or an id.
  ghost predicate DistinctHistory(records: seq<ActivityRecord>) {
    forall i, j :: 0 <= i < j < |records| ==>
      records[i].sequence != records[j].sequence && records[i].id != records[j].id
  }

  // (sequence, id) identifies the record.
  ghost predicate Identified(records: seq<ActivityRecord>) {
    forall x, y :: x in records && y in records && x.sequence == y.sequence && x.id == y.id ==> x == y
  }

  lemma IdentifiedSeparates(records: seq<ActivityRecord>)
    requires Identified(records)
    ensures Separates(CompareRecords, records)
  {
    RecordOrderIsTotal();
  }
}

module Attention {
  import opened Options
  import opened OrderedMaps
  import opened Sorting
  import opened LastWriter
  import opened ActivityRecords

  datatype Reason = TaskBlockedReason | TaskFailedReason | TaskAwaitingApprovalReason | WorkflowFailedReason
                  | VerificationFailedReason | VerificationBlockedReason | TestFailedReason
                  | ApprovalRequiredReason | EffectReason(effect: Effect)

  // `effect` is the details.effect field: present on effect entries only.
  datatype Entry = Entry(attentionId: string, reason: Reason, severity: Option<Severity>,
                         sourceRecordId: string, effect: Option<Effect>, workflowRunId: Option<string>,
                         taskId: Option<string>, sessionId: Option<string>, timestamp: string)

  function MakeEntry(r: ActivityRecord, reason: Reason, severity: Option<Severity>, effect: Option<Effect>): Entry {
    Entry("attention:" + r.id, reason, severity, r.id, effect, r.workflowId, r.taskId, r.sessionId, r.timestamp)
  }

  predicate IsOpenTaskStatus(s: TaskStatus) {
    s.Blocked? || s.TaskFailed? || s.AwaitingApproval?
  }

  // The statuses listed as resolved; `Pending` is in neither list.
  predicate IsResolvedTaskStatus(s: TaskStatus) {
    s in {Ready, Assigned, InProgress, Reviewing, ChangesRequested, Testing, Approved, Retrying, Cancelled,
          TaskCompleted}
  }

  function EffectAttention(r: ActivityRecord): Option<Entry> {
    if !OpensItem(r.effect) then None
    else Some(MakeEntry(r, EffectReason(r.effect.value), None, r.effect))
  }

  // The entry a record opens because of its kind, before its organizational effect is considered.
  function KindAttention(r: ActivityRecord): Option<Entry> {
    match r.kind
    case Task(status) =>
      if !IsOpenTaskStatus(status) then None
      else Some(MakeEntry(r, if status.Blocked? then TaskBlockedReason
                             else if status.AwaitingApproval? then TaskAwaitingApprovalReason
                             else TaskFailedReason, None, None))
    case Workflow(state, authoritative) =>
      if !authoritative || state != "failed" then None else Some(MakeEntry(r, WorkflowFailedReason, None, None))
    case Verification(_, outcome) =>
      if outcome.Failed? then Some(MakeEntry(r, VerificationFailedReason, None, None))
      else if outcome.OutcomeBlocked? then Some(MakeEntry(r, VerificationBlockedReason, None, None))
      else None
    case Test(_, _, failed) =>
      if failed <= 0 then None else Some(MakeEntry(r, TestFailedReason, None, None))
    case AgentMessage(messageKind, _, _, _, risk) =>
      if !messageKind.ApprovalRequest? then None else Some(MakeEntry(r, ApprovalRequiredReason, risk, None))
    case _ => None
  }

  function AttentionForRecord(r: ActivityRecord): Option<Entry> {
    if KindAttention(r).Some? then KindAttention(r) else EffectAttention(r)
  }

  function VerificationKey(r: ActivityRecord): string
    requires r.kind.Verification?
  {
    r.kind.verificationRunId.GetOr(r.taskId.GetOr(r.id))
  }

  function TestKey(r: ActivityRecord): string
    requires r.kind.Test?
  {
    r.taskId.GetOr("global") + ":" + r.kind.command
  }

  function ApprovalKey(r: ActivityRecord): string
    requires r.kind.AgentMessage?
  {
    r.correlationId.GetOr(
      r.kind.threadId.GetOr("thread") + ":" + r.kind.turnId.GetOr("turn") + ":" + r.kind.toolName.GetOr("approval"))
  }

  function AttentionKey(e: Entry, r: ActivityRecord): string {
    match e.reason
    case TaskBlockedReason | TaskFailedReason | TaskAwaitingApprovalReason => "task:" + e.taskId.GetOr(r.id)
    case WorkflowFailedReason => "workflow:" + e.workflowRunId.GetOr(r.id)
    case VerificationFailedReason | VerificationBlockedReason =>
      "verification:" + (if r.kind.Verification? then VerificationKey(r) else r.id)
    case TestFailedReason => "test:" + (if r.kind.Test? then TestKey(r) else r.id)
    case ApprovalRequiredReason => "approval:" + (if r.kind.AgentMessage? then ApprovalKey(r) else r.id)
    case EffectReason(_) => "effect:" + r.id
  }

  function Write(r: ActivityRecord): Option<(string, Entry)> {
    match AttentionForRecord(r)
    case None => None
    case Some(e) => Some((AttentionKey(e, r), e))
  }

  // Whether a record closes the item opened by `sourceRecordId` in the given workflow and session.
  predicate ResolvesEffect(r: ActivityRecord, sourceRecordId: string,
                           workflowId: Option<string>, sessionId: Option<string>) {
    if r.correctionOf == Some(sourceRecordId) then true
    else if sourceRecordId in r.relatesTo then true
    else if |r.relatesTo| > 0 then false
    else if !Disposes(r.effect) then false
    else (workflowId.Some? && r.workflowId == workflowId) || (sessionId.Some? && r.sessionId == sessionId)
  }

  // ----- resolveByRecord: first the keyed deletion of the record's kind, then the effect sweep -----

  predicate DropsTaskEntry(r: ActivityRecord, k: string, e: Entry) {
    e.taskId == r.taskId && "task:" <= k
  }

  predicate DropsEffectEntry(r: ActivityRecord, e: Entry) {
    e.effect.Some? && ResolvesEffect(r, e.sourceRecordId, e.workflowRunId, e.sessionId)
  }

  function TaskDrop(r: ActivityRecord): (string, Entry) -> bool { (k, e) => DropsTaskEntry(r, k, e) }

  function EffectDrop(r: ActivityRecord): (string, Entry) -> bool { (k, e) => DropsEffectEntry(r, e) }

  // The one key a record of this kind deletes, when it deletes by key.
  function ClearedKey(r: ActivityRecord): Option<string> {
    match r.kind
    case Workflow(state, authoritative) =>
      if authoritative && state != "failed" then Some("workflow:" + r.workflowId.value) else None
    case Verification(_, outcome) => if outcome.Passed? then Some("verification:" + VerificationKey(r)) else None
    case Test(_, passed, failed) => if failed == 0 && passed > 0 then Some("test:" + TestKey(r)) else None
    case ToolResult(callID, completed) => if completed then Some("tool:" + callID) else None
    case AgentMessage(messageKind, _, _, _, _) =>
      if messageKind.ApprovalDecision? then Some("approval:" + ApprovalKey(r)) else None
    case _ => None
  }

  function ResolveKind(active: OrderedMap<string, Entry>, r: ActivityRecord): OrderedMap<string, Entry> {
    if r.kind.Task? && IsResolvedTaskStatus(r.kind.status) then Sweep(active, active.keys, TaskDrop(r))
    else match ClearedKey(r)
      case Some(k) => Remove(active, k)
      case None => active
  }

  function Resolve(active: OrderedMap<string, Entry>, r: ActivityRecord): OrderedMap<string, Entry> {
    var kept := ResolveKind(active, r);
    Sweep(kept, kept.keys, EffectDrop(r))
  }

  ghost predicate Kills(r: ActivityRecord, k: string, e: Entry) {
    || (r.kind.Task? && IsResolvedTaskStatus(r.kind.status) && DropsTaskEntry(r, k, e))
    || ClearedKey(r) == Some(k)
    || DropsEffectEntry(r, e)
  }

  lemma {:induction false} ResolveDeletesExactlyKilled()
    ensures ResolvesBy(Resolve, Kills)
  {
    forall m: OrderedMap<string, Entry>, r: ActivityRecord
      ensures DeletesExactly(m, Resolve(m, r), Kills, r)
    {
      var kept := ResolveKind(m, r);
      if r.kind.Task? { SweepMeaning(m, m.keys, TaskDrop(r)); }
      SweepMeaning(kept, kept.keys, EffectDrop(r));
    }
  }

  // The entries active after the history, in the order the code visits it.
  function Active(ordered: seq<ActivityRecord>): OrderedMap<string, Entry> {
    Fold(ordered, Resolve, Write)
  }

  // The active entries are exactly the writes that no later record resolved or overwrote.
  lemma {:induction false} ActiveIsLastWriter(ordered: seq<ActivityRecord>, k: string, e: Entry)
    ensures (k in Active(ordered).vals && Active(ordered).vals[k] == e) <==> Live(ordered, Kills, Write, k, e)
  {
    ResolveDeletesExactlyKilled();
    FoldIsLastWriter(ordered, Resolve, Kills, Write, k, e);
  }

  // ----- output order -----

  function SeverityRank(s: Option<Severity>): int {
    match s
    case None => 0
    case Some(Low) => 1
    case Some(Medium) => 2
    case Some(High) => 3
    case Some(Critical) => 4
  }

  function CompareAttention(left: Entry, right: Entry): int {
    if SeverityRank(right.severity) != SeverityRank(left.severity)
    then SeverityRank(right.severity) - SeverityRank(left.severity)
    else if CompareText(left.timestamp, right.timestamp) != 0 then CompareText(left.timestamp, right.timestamp)
    else CompareText(left.attentionId, right.attentionId)
  }

  // The output order is total: any two entries compare, and a tie means the same attention id.
  lemma {:induction false} AttentionOrderIsTotal()
    ensures TotalPreorder(CompareAttention)
    ensures forall x, y :: CompareAttention(x, y) == 0 ==> x.attentionId == y.attentionId
  {
    forall x: Entry, y: Entry
      ensures CompareAttention(x, y) < 0 <==> CompareAttention(y, x) > 0
      ensures CompareAttention(x, y) == 0 ==> x.attentionId == y.attentionId
    {
      CompareTextAntisymmetric(x.timestamp, y.timestamp);
      CompareTextAntisymmetric(y.timestamp, x.timestamp);
      CompareTextAntisymmetric(x.attentionId, y.attentionId);
    }
    forall x: Entry, y: Entry, z: Entry | CompareAttention(x, y) <= 0 && CompareAttention(y, z) <= 0
      ensures CompareAttention(x, z) <= 0
    {
      CompareAttentionTransitive(x, y, z);
    }
  }

  lemma CompareAttentionTransitive(x: Entry, y: Entry, z: Entry)
    requires CompareAttention(x, y) <= 0 && CompareAttention(y, z) <= 0
    ensures CompareAttention(x, z) <= 0
  {
    if SeverityRank(x.severity) == SeverityRank(y.severity) == SeverityRank(z.severity) {
      CompareTextTransitive(x.timestamp, y.timestamp, z.timestamp);
      CompareTextAntisymmetric(x.timestamp, y.timestamp);
      CompareTextAntisymmetric(y.timestamp, z.timestamp);
      if x.timestamp == y.timestamp == z.timestamp {
        CompareTextTransitive(x.attentionId, y.attentionId, z.attentionId);
      }
    }
  }

  function Project(records: seq<ActivityRecord>): seq<Entry> {
    Sort(CompareAttention, ValuesOf(Active(InOrder(records))))
  }

  // ----- the two loops -----

  method ResolveByRecord(active: OrderedMap<string, Entry>, r: ActivityRecord)
    returns (kept: OrderedMap<string, Entry>)
    ensures kept == Resolve(active, r)
  {
    kept := active;
    match r.kind {
      case Task(status) =>
        if IsResolvedTaskStatus(status) { kept := DeleteWhere(active, TaskDrop(r)); }
      case Workflow(state, authoritative) =>
        if authoritative && state != "failed" { kept := Remove(kept, "workflow:" + r.workflowId.value); }
      case Verification(_, outcome) =>
        if outcome.Passed? { kept := Remove(kept, "verification:" + VerificationKey(r)); }
      case Test(_, passed, failed) =>
        if failed == 0 && passed > 0 { kept := Remove(kept, "test:" + TestKey(r)); }
      case ToolResult(callID, completed) =>
        if completed { kept := Remove(kept, "tool:" + callID); }
      case AgentMessage(messageKind, _, _, _, _) =>
        if messageKind.ApprovalDecision? { kept := Remove(kept, "approval:" + ApprovalKey(r)); }
      case _ =>
    }
    assert kept == ResolveKind(active, r);
    kept := DeleteWhere(kept, EffectDrop(r));
  }

  method ProjectAttentionEntries(records: seq<ActivityRecord>) returns (entries: seq<Entry>)
    ensures entries == Project(records)
  {
    hide Consistent, Resolve, AttentionForRecord, AttentionKey;
    var sorted := InOrder(records);
    var active: OrderedMap<string, Entry> := Empty();
    for i := 0 to |sorted|
      invariant active == Active(sorted[..i])
    {
      assert sorted[..i + 1][..i] == sorted[..i];
      active := ResolveByRecord(active, sorted[i]);
      var entry := AttentionForRecord(sorted[i]);
      if entry.Some? { active := Put(active, AttentionKey(entry.value, sorted[i]), entry.value); }
    }
    assert sorted[..|sorted|] == sorted;
    entries := Sort(CompareAttention, ValuesOf(active));
  }
}
