// What every reachable state of the live projection satisfies.

module ProjectionMeaning {
  import opened Options
  import opened OrderedMaps
  import opened Sequences
  import opened M9Records
  import opened StreamItems
  import opened Projection

  // ----- rebuilding and processing live -----

  lemma {:induction false} RebuildThenLive(s: State, a: seq<M9Record>, b: seq<M9Record>)
    ensures ProcessAll(s, a + b) == ProcessAll(ProcessAll(s, a), b)
  {
    hide Process;
    if b == [] {
      assert a + b == a;
    } else {
      var n := |b| - 1;
      assert (a + b)[..|a| + n] == a + b[..n];
      RebuildThenLive(s, a, b[..n]);
    }
  }

  // The state after a run, component by component.
  lemma LastStep(records: seq<M9Record>)
    requires records != []
    ensures var n := |records| - 1;
            var before, after := ProcessAll(EMPTY, records[..n]), ProcessAll(EMPTY, records);
            && after.participants == UpdateParticipants(before.participants, records[n])
            && after.stream == LastOf(before.stream + [ToStreamItem(records[n])], MAX_STREAM_ITEMS)
            && after.attention == GenerateAttention(before.attention, records[n])
            && after.summaries == UpdateSummaries(before.summaries, records[n])
  {
    hide UpdateParticipants, LastOf, GenerateAttention, UpdateSummaries;
  }

  lemma Nothing()
    ensures ProcessAll(EMPTY, []) == EMPTY
  {}

  ghost function Items(records: seq<M9Record>): seq<StreamItem> {
    seq(|records|, i requires 0 <= i < |records| => ToStreamItem(records[i]))
  }

  // Cutting off the front again and again leaves the same end as cutting once.
  lemma LastOfExtended<T>(s: seq<T>, x: T, n: nat)
    ensures LastOf(LastOf(s, n) + [x], n) == LastOf(s + [x], n)
  {}

  lemma OneMoreItem(records: seq<M9Record>)
    requires records != []
    ensures Items(records) == Items(records[..|records| - 1]) + [ToStreamItem(records[|records| - 1])]
  {
    hide ToStreamItem;
  }

  // The raw stream is exactly the last 500 projected records, or all of them when there are fewer.
  lemma {:induction false} StreamIsTheLastWindow(records: seq<M9Record>)
    ensures ProcessAll(EMPTY, records).stream == Items(records)[if |records| > 500 then |records| - 500 else 0..]
  {
    if records == [] {
      Nothing();
      hide ProcessAll, ToStreamItem;
      assert Items([]) == [];
    } else {
      var n := |records| - 1;
      LastStep(records);
      StreamIsTheLastWindow(records[..n]);
      OneMoreItem(records);
      LastOfExtended(Items(records[..n]), ToStreamItem(records[n]), MAX_STREAM_ITEMS);
      hide *;
    }
  }

  // ----- who waits on which interaction -----

  ghost function PendingOf(ps: Participants, pid: string): Option<string> {
    if pid in ps.vals then ps.vals[pid].pendingInteractionId else None
  }

  // The interaction this record presents on behalf of participant `pid`.
  ghost function Presents(r: M9Record, pid: string): Option<string> {
    if Admitted(r) && r.recordType == InteractionPresented && PresenterOf(r).Some?
        && "agent-" + PresenterOf(r).value == pid
    then NonEmpty(InteractionIdOf(r)) else None
  }

  // The interaction this record responds to.
  ghost function Responds(r: M9Record): Option<string> {
    if Admitted(r) && r.recordType == InteractionResponded then NonEmpty(InteractionIdOf(r)) else None
  }

  lemma {:induction false} ReleaseMeaning(ps: Participants, keys: seq<string>, i: string, at: string, pid: string)
    ensures PendingOf(Release(ps, keys, i, at), pid)
            == if pid in keys && PendingOf(ps, pid) == Some(i) then None else PendingOf(ps, pid)
    ensures Release(ps, keys, i, at).vals.Keys == ps.vals.Keys
  {
    hide Consistent;
    if keys != [] {
      ReleaseMeaning(ps, keys[..|keys| - 1], i, at, pid);
      ReleaseMeaning(ps, keys[..|keys| - 1], i, at, keys[|keys| - 1]);
      assert keys == keys[..|keys| - 1] + [keys[|keys| - 1]];
    }
  }

  lemma PendingStep(ps: Participants, r: M9Record, pid: string)
    ensures PendingOf(UpdateParticipants(ps, r), pid)
            == if Presents(r, pid).Some? then Presents(r, pid)
               else if PendingOf(ps, pid).Some? && Responds(r) == PendingOf(ps, pid) then None
               else PendingOf(ps, pid)
  {
    if Admitted(r) {
      hide Consistent, UpdatedParticipant, ParticipantIdOf, Release, MarkWaiting;
      var id := ParticipantIdOf(r);
      var seen := Put(ps, id, UpdatedParticipant(Lookup(ps, id), r));
      SeeingKeepsPending(ps, r, pid);
      WaitStep(seen, r, pid);
    }
  }

  lemma SeeingKeepsPending(ps: Participants, r: M9Record, pid: string)
    ensures PendingOf(Put(ps, ParticipantIdOf(r), UpdatedParticipant(Lookup(ps, ParticipantIdOf(r)), r)), pid)
            == PendingOf(ps, pid)
  {
    hide Consistent, ParticipantIdOf, DeriveWorkState, DeriveMembership, DeriveAssignment;
  }

  lemma WaitStep(ps: Participants, r: M9Record, pid: string)
    requires Admitted(r)
    ensures PendingOf(UpdateInteractionWait(ps, r), pid)
            == if Presents(r, pid).Some? then Presents(r, pid)
               else if PendingOf(ps, pid).Some? && Responds(r) == PendingOf(ps, pid) then None
               else PendingOf(ps, pid)
  {
    hide Admitted, Release;
    if Responds(r).Some? {
      ReleaseMeaning(ps, ps.keys, Responds(r).value, r.timestamp, pid);
      assert pid in ps.keys <==> pid in ps.vals;
    }
  }

  // Record n presented i to the participant; nothing since presented to it again or answered i.
  ghost predicate WaitsSince(records: seq<M9Record>, pid: string, i: string, n: int) {
    && 0 <= n < |records| && Presents(records[n], pid) == Some(i)
    && forall m :: n < m < |records| ==> Presents(records[m], pid) == None && Responds(records[m]) != Some(i)
  }

  // A participant's pending interaction is the last one presented to it, unless an admitted
  // response to that interaction came later.
  lemma {:induction false} PendingIsTheLastUnanswered(records: seq<M9Record>, pid: string, i: string)
    ensures PendingOf(ProcessAll(EMPTY, records).participants, pid) == Some(i)
            <==> exists n :: WaitsSince(records, pid, i, n)
  {
    hide ProcessAll, Presents, Responds, PendingOf, UpdateParticipants;
    if records == [] {
      Nothing();
      NobodyWaits(pid);
    } else {
      var n := |records| - 1;
      var front := records[..n];
      LastStep(records);
      PendingIsTheLastUnanswered(front, pid, i);
      PendingStep(ProcessAll(EMPTY, front).participants, records[n], pid);
      if Presents(records[n], pid) == Some(i) {
        assert WaitsSince(records, pid, i, n);
      } else if Presents(records[n], pid) == None && Responds(records[n]) != Some(i) {
        WaitsOn(records, front, pid, i);
      }
    }
  }

  lemma NobodyWaits(pid: string)
    ensures PendingOf(EMPTY.participants, pid) == None
  {}

  // A record that says nothing about the wait leaves it as it was.
  lemma WaitsOn(records: seq<M9Record>, front: seq<M9Record>, pid: string, i: string)
    requires records != [] && front == records[..|records| - 1]
    requires Presents(records[|records| - 1], pid) == None && Responds(records[|records| - 1]) != Some(i)
    ensures (exists n :: WaitsSince(records, pid, i, n))
            <==> exists n :: WaitsSince(front, pid, i, n)
  {
    hide Presents, Responds;
    forall m ensures WaitsSince(records, pid, i, m) <==> WaitsSince(front, pid, i, m) {
      if WaitsSince(front, pid, i, m) {
        assert forall l :: m < l < |front| ==> records[l] == front[l];
      }
    }
  }

  // ----- attention -----

  ghost predicate OpenTwins(a: Attention, b: Attention) {
    && a.status == Open && b.status == Open
    && ((a.taskId.Some? && a.taskId == b.taskId && a.reason == b.reason)
        || (NonEmpty(a.interactionId).Some? && a.interactionId == b.interactionId))
  }

  // At most one open entry per (task, reason) and per non-empty interaction id.
  ghost predicate NoTwins(att: seq<Attention>) {
    forall i, j :: 0 <= i < j < |att| ==> !OpenTwins(att[i], att[j])
  }

  // Only interaction entries name an interaction, and they name no task.
  ghost predicate WellShaped(att: seq<Attention>) {
    forall i :: 0 <= i < |att| ==> Shaped(att[i])
  }

  ghost predicate Shaped(a: Attention) {
    a.interactionId.Some? ==> a.reason == InteractionPresentedReason && a.taskId == None
  }

  lemma RaiseTaskKeepsNoTwins(att: seq<Attention>, a: Attention)
    requires NoTwins(att) && WellShaped(att) && Shaped(a) && a.status == Open && a.taskId.Some?
    ensures NoTwins(Raise(att, a)) && WellShaped(Raise(att, a))
  {
    var raised, p := Raise(att, a), First(att, SameOpenCondition(a));
    forall i, j | 0 <= i < j < |raised| ensures !OpenTwins(raised[i], raised[j]) {
      if p < |att| {
        assert !OpenTwins(att[i], att[j]);
        assert p < j ==> !OpenTwins(att[p], att[j]);
      } else if j < |att| {
        assert !OpenTwins(att[i], att[j]);
      }
    }
  }

  lemma RaiseInteractionKeepsNoTwins(att: seq<Attention>, a: Attention)
    requires NoTwins(att) && WellShaped(att) && Shaped(a) && a.status == Open && a.taskId == None
    ensures NoTwins(DropOlder(att + [a], a)) && WellShaped(DropOlder(att + [a], a))
  {
    var raised := att + [a];
    var d := First(raised, SameOpenInteraction(a));
    assert SameOpenInteraction(a)(raised[|att|]);
    if NonEmpty(a.interactionId).Some? {
      var rest := if d < |att| then att[..d] + att[d + 1..] else att;
      assert DropOlder(raised, a) == rest + [a];
      forall i | 0 <= i < |rest| ensures !OpenTwins(rest[i], a) && Shaped(rest[i]) {
        var i' := if d <= i then i + 1 else i;
        assert rest[i] == att[i'];
        if d < i' { assert !OpenTwins(att[d], att[i']); }
      }
      forall i, j | 0 <= i < j < |rest| ensures !OpenTwins(rest[i], rest[j]) {
        assert !OpenTwins(att[if d <= i then i + 1 else i], att[if d <= j then j + 1 else j]);
      }
      AppendKeepsNoTwins(rest, a);
    } else {
      assert forall i :: 0 <= i < |att| ==> !OpenTwins(att[i], a);
      AppendKeepsNoTwins(att, a);
    }
  }

  lemma AppendKeepsNoTwins(att: seq<Attention>, a: Attention)
    requires NoTwins(att) && WellShaped(att) && Shaped(a) && forall i :: 0 <= i < |att| ==> !OpenTwins(att[i], a)
    ensures NoTwins(att + [a]) && WellShaped(att + [a])
  {}

  lemma RaiseKeepsNoTwins(att: seq<Attention>, a: Attention)
    requires NoTwins(att) && WellShaped(att) && Shaped(a) && a.status == Open
    ensures NoTwins(DropOlder(Raise(att, a), a)) && WellShaped(DropOlder(Raise(att, a), a))
  {
    hide NoTwins, WellShaped;
    if a.taskId.Some? {
      RaiseTaskKeepsNoTwins(att, a);
    } else {
      RaiseInteractionKeepsNoTwins(att, a);
    }
  }

  lemma ResolveKeepsNoTwins(att: seq<Attention>, p: Attention -> bool, at: string)
    requires NoTwins(att) && WellShaped(att)
    ensures NoTwins(ResolveFirst(att, p, at)) && WellShaped(ResolveFirst(att, p, at))
  {
    var settled := ResolveFirst(att, p, at);
    forall i, j | 0 <= i < j < |settled| ensures !OpenTwins(settled[i], settled[j]) {
      assert !OpenTwins(att[i], att[j]);
    }
  }

  lemma AttentionStep(att: seq<Attention>, r: M9Record)
    requires NoTwins(att) && WellShaped(att)
    ensures NoTwins(GenerateAttention(att, r)) && WellShaped(GenerateAttention(att, r))
  {
    hide NoTwins, WellShaped, Raise, DropOlder, ResolveFirst;
    var raised := match DeriveAttention(r)
      case Some(a) => DropOlder(Raise(att, a), a)
      case None => att;
    if DeriveAttention(r).Some? { RaiseKeepsNoTwins(att, DeriveAttention(r).value); }
    ResolveKeepsNoTwins(raised, OpenOfTask(r.taskId), r.timestamp);
    var settled := if r.recordType == TaskCompleted && NonEmpty(r.taskId).Some?
                   then ResolveFirst(raised, OpenOfTask(r.taskId), r.timestamp) else raised;
    if InteractionIdOf(r).Some? {
      ResolveKeepsNoTwins(settled, OpenOfInteraction(InteractionIdOf(r).value), r.timestamp);
    }
  }

  // In every reachable state: at most one open entry per (task, reason) and per interaction.
  lemma {:induction false} ReachableAttentionHasNoTwins(records: seq<M9Record>)
    ensures NoTwins(ProcessAll(EMPTY, records).attention) && WellShaped(ProcessAll(EMPTY, records).attention)
  {
    hide ProcessAll, GenerateAttention;
    if records == [] {
      Nothing();
    } else {
      var n := |records| - 1;
      LastStep(records);
      ReachableAttentionHasNoTwins(records[..n]);
      AttentionStep(ProcessAll(EMPTY, records[..n]).attention, records[n]);
    }
  }

  predicate OpenFor(a: Attention, id: string) { a.interactionId == Some(id) && a.status == Open }

  // After a response to interaction i nothing open is left for i, exactly unless the id is empty and
  // something was open for it before: a response to the empty id closes nothing.
  lemma {:induction false} RespondedClosesTheInteraction(records: seq<M9Record>, r: M9Record, i: string)
    requires r.recordType == InteractionResponded && InteractionIdOf(r) == Some(i)
    ensures (forall a :: a in ProcessAll(EMPTY, records + [r]).attention ==> !OpenFor(a, i))
            <==> i != "" || forall a :: a in ProcessAll(EMPTY, records).attention ==> !OpenFor(a, i)
    ensures i == "" ==> ProcessAll(EMPTY, records + [r]).attention == ProcessAll(EMPTY, records).attention
  {
    ReachableAttentionHasNoTwins(records);
    LastStep(records + [r]);
    assert (records + [r])[..|records|] == records;
    var before := ProcessAll(EMPTY, records).attention;
    if i == "" {
      assert GenerateAttention(before, r) == before;
    } else {
      RespondedSettles(before, r, i);
    }
    hide ProcessAll, GenerateAttention;
  }

  lemma RespondedSettles(att: seq<Attention>, r: M9Record, i: string)
    requires NoTwins(att) && r.recordType == InteractionResponded && InteractionIdOf(r) == Some(i) && i != ""
    ensures forall a :: a in GenerateAttention(att, r) ==> !OpenFor(a, i)
  {
    hide Raise, DropOlder;
    var first, after := First(att, OpenOfInteraction(i)), GenerateAttention(att, r);
    assert after == ResolveFirst(att, OpenOfInteraction(i), r.timestamp);
    forall j | 0 <= j < |after| ensures !OpenFor(after[j], i) {
      if j > first { assert !OpenTwins(att[first], att[j]); }
    }
  }

  predicate OpenOf(a: Attention, taskId: string) { a.taskId == Some(taskId) && a.status == Open }

  ghost predicate EarliestOpen(att: seq<Attention>, taskId: string, j: int) {
    0 <= j < |att| && OpenOf(att[j], taskId) && forall i :: 0 <= i < j ==> !OpenOf(att[i], taskId)
  }

  // task.completed changes one entry only: the earliest open one of its task, which it resolves. Under
  // the empty task id it changes nothing.
  lemma {:induction false} TaskCompletedClosesTheEarliest(att: seq<Attention>, r: M9Record, t: string)
    requires r.recordType == TaskCompleted && r.taskId == Some(t)
    ensures |GenerateAttention(att, r)| == |att|
    ensures forall j :: 0 <= j < |att| ==>
              GenerateAttention(att, r)[j]
              == (if t != "" && EarliestOpen(att, t, j) then att[j].(status := Resolved(r.timestamp)) else att[j])
  {
    if t == "" {
      assert GenerateAttention(att, r) == att;
    } else {
      var first := First(att, OpenOfTask(Some(t)));
      assert GenerateAttention(att, r) == ResolveFirst(att, OpenOfTask(Some(t)), r.timestamp);
    }
  }

  // It leaves nothing open for its task id exactly when at most one entry was open before; under the
  // empty id, when none was.
  lemma {:induction false} TaskCompletedSettlesExactlyWhen(att: seq<Attention>, r: M9Record, t: string)
    requires r.recordType == TaskCompleted && r.taskId == Some(t)
    ensures (forall j :: 0 <= j < |GenerateAttention(att, r)| ==> !OpenOf(GenerateAttention(att, r)[j], t))
            <==> (if t == "" then forall j :: 0 <= j < |att| ==> !OpenOf(att[j], t)
                  else forall i, j :: 0 <= i < j < |att| ==> !(OpenOf(att[i], t) && OpenOf(att[j], t)))
  {
    TaskCompletedClosesTheEarliest(att, r, t);
    var after := GenerateAttention(att, r);
    hide GenerateAttention;
    if j :| 0 <= j < |after| && OpenOf(after[j], t) {
      assert OpenOf(att[j], t) && (t != "" ==> !EarliestOpen(att, t, j));
    }
    if forall j :: 0 <= j < |after| ==> !OpenOf(after[j], t) {
      forall i, j | 0 <= i < j < |att| ensures !(OpenOf(att[i], t) && OpenOf(att[j], t)) {
        assert !OpenOf(after[j], t) && !OpenOf(after[i], t);
      }
    }
  }

  function Plain(kind: RecordType, taskId: Option<string>, data: Option<Data>): M9Record {
    M9Record("a", 1, kind, "t", Actor(AgentActor, "x"), None, taskId, data)
  }

  // A task that failed and then waits for a human keeps an open entry after it completes.
  lemma {:induction false} CompletedTaskCanStayOpen(t: string)
    ensures exists a :: a in ProcessAll(EMPTY, [Plain(TaskFailed, Some(t), None), Plain(AgentWaiting, Some(t), None),
                                                Plain(TaskCompleted, Some(t), None)]).attention
                        && a.taskId == Some(t) && a.status == Open
  {
    hide ProcessAll, GenerateAttention, EarliestOpen, Process;
    var failed, waiting := Plain(TaskFailed, Some(t), None), Plain(AgentWaiting, Some(t), None);
    var done := Plain(TaskCompleted, Some(t), None);
    TwoOpen(t);
    assert [failed, waiting, done][..2] == [failed, waiting];
    LastStep([failed, waiting, done]);
    var two := ProcessAll(EMPTY, [failed, waiting]).attention;
    TaskCompletedClosesTheEarliest(two, done, t);
    SecondIsNotEarliest(two, t);
    assert GenerateAttention(two, done)[1] == two[1];
  }

  lemma SecondIsNotEarliest(att: seq<Attention>, t: string)
    requires |att| >= 2 && att[0].taskId == Some(t) && att[0].status == Open
    ensures !EarliestOpen(att, t, 1)
  {}

  lemma TwoOpen(t: string)
    ensures var att := ProcessAll(EMPTY, [Plain(TaskFailed, Some(t), None),
                                          Plain(AgentWaiting, Some(t), None)]).attention;
            |att| == 2 && forall i :: 0 <= i < 2 ==> att[i].taskId == Some(t) && att[i].status == Open
  {
    hide ProcessAll, GenerateAttention, Process, UpdateParticipants, UpdateSummaries, LastOf, Consistent;
    var failed, waiting := Plain(TaskFailed, Some(t), None), Plain(AgentWaiting, Some(t), None);
    assert [failed, waiting][..1] == [failed] && [failed][..0] == [];
    Nothing();
    LastStep([failed]);
    LastStep([failed, waiting]);
    RaiseFresh([], failed);
    RaiseFresh(GenerateAttention([], failed), waiting);
  }

  lemma RaiseFresh(att: seq<Attention>, r: M9Record)
    requires DeriveAttention(r).Some? && NonEmpty(DeriveAttention(r).value.interactionId) == None
    requires forall i :: 0 <= i < |att| ==>
             att[i].reason != DeriveAttention(r).value.reason || DeriveAttention(r).value.taskId == None
    ensures GenerateAttention(att, r) == att + [DeriveAttention(r).value]
  {}

  // The empty interaction id is not deduplicated: presented twice, it is open twice.
  lemma {:induction false} EmptyInteractionIdIsNotDeduplicated()
    ensures var r := Plain(InteractionPresented, None, Some(Data(None, Some(""), None)));
            var att := ProcessAll(EMPTY, [r, r]).attention;
            |att| == 2 && forall i :: 0 <= i < 2 ==> att[i].interactionId == Some("") && att[i].status == Open
  {
    hide ProcessAll, GenerateAttention, Process, UpdateParticipants, UpdateSummaries, LastOf, Consistent;
    var r := Plain(InteractionPresented, None, Some(Data(None, Some(""), None)));
    assert [r, r][..1] == [r] && [r][..0] == [];
    Nothing();
    LastStep([r]);
    LastStep([r, r]);
    RaiseFresh([], r);
    RaiseFresh(GenerateAttention([], r), r);
  }

  ghost predicate OpenTwice(att: seq<Attention>, id: string) {
    exists i, j :: 0 <= i < j < |att| && att[i].interactionId == Some(id) == att[j].interactionId
                   && att[i].status == Open == att[j].status
  }

  // Some history leaves an interaction id open twice exactly when that id is empty.
  lemma {:induction false} OpenTwiceExactlyWhenEmpty(id: string)
    ensures (exists records :: OpenTwice(ProcessAll(EMPTY, records).attention, id)) <==> id == ""
  {
    hide ProcessAll;
    if records :| OpenTwice(ProcessAll(EMPTY, records).attention, id) { ReachableAttentionHasNoTwins(records); }
    if id == "" {
      var r := Plain(InteractionPresented, None, Some(Data(None, Some(""), None)));
      EmptyInteractionIdIsNotDeduplicated();
      var att := ProcessAll(EMPTY, [r, r]).attention;
      assert att[0].interactionId == Some("") && att[1].interactionId == Some("");
      assert OpenTwice(att, id);
    }
  }

  // ----- workflow summaries -----

  ghost predicate Saw(records: seq<M9Record>, run: string, kind: RecordType) {
    exists i :: 0 <= i < |records| && records[i].workflowRunId == Some(run) && records[i].recordType == kind
  }

  ghost predicate StartedLastAt(records: seq<M9Record>, run: string, i: int) {
    && 0 <= i < |records| && Starts(records[i], run)
    && forall j :: i < j < |records| ==> !Starts(records[j], run)
  }

  ghost predicate Starts(r: M9Record, run: string) {
    r.workflowRunId == Some(run) && r.recordType == TaskStarted && r.taskId.Some?
  }

  ghost function Figure(s: Option<Summary>, kind: RecordType): nat {
    match s
    case None => 0
    case Some(u) =>
      if kind == TaskCompleted then u.completedTasks
      else if kind == TaskFailed then u.failedTasks
      else if kind == TaskRunnable then u.taskCount
      else 0
  }

  lemma SummaryStep(summaries: Summaries, r: M9Record, run: string)
    requires run != ""
    ensures Lookup(UpdateSummaries(summaries, r), run)
            == if r.workflowRunId == Some(run) then Some(UpdatedSummary(Lookup(summaries, run), r))
               else Lookup(summaries, run)
  {
    hide Consistent, UpdatedSummary;
  }

  ghost function SummaryOf(records: seq<M9Record>, run: string): Option<Summary> {
    Lookup(ProcessAll(EMPTY, records).summaries, run)
  }

  // The empty run id has no summary.
  lemma {:induction false} EmptyRunHasNoSummary(records: seq<M9Record>)
    ensures SummaryOf(records, "") == None
  {
    hide ProcessAll, Consistent, UpdatedSummary;
    if records == [] {
      Nothing();
    } else {
      LastStep(records);
      EmptyRunHasNoSummary(records[..|records| - 1]);
    }
  }

  // A task figure says whether such a record was seen for the run, not how many.
  lemma {:induction false} FiguresAreIndicators(records: seq<M9Record>, run: string, kind: RecordType)
    requires kind in {TaskCompleted, TaskFailed, TaskRunnable}
    ensures Figure(SummaryOf(records, run), kind) == if run != "" && Saw(records, run, kind) then 1 else 0
  {
    hide ProcessAll, Saw, UpdateSummaries;
    if run == "" {
      EmptyRunHasNoSummary(records);
    } else if records == [] {
      Nothing();
      NothingSeen(run);
    } else {
      var n := |records| - 1;
      LastStep(records);
      FiguresAreIndicators(records[..n], run, kind);
      SawOneMore(records, run, kind);
      SummaryStep(ProcessAll(EMPTY, records[..n]).summaries, records[n], run);
    }
  }

  ghost function CurrentTask(s: Option<Summary>): Option<string> {
    if s.Some? then s.value.currentTask else None
  }

  // The current task is the last one started, and completing it never clears it.
  lemma {:induction false} CurrentTaskIsTheLastStarted(records: seq<M9Record>, run: string, i: int)
    requires StartedLastAt(records, run, i)
    ensures CurrentTask(SummaryOf(records, run)) == if run != "" then records[i].taskId else None
  {
    hide ProcessAll, UpdateSummaries, Consistent;
    if run == "" {
      EmptyRunHasNoSummary(records);
      return;
    }
    var n := |records| - 1;
    LastStep(records);
    SummaryStep(ProcessAll(EMPTY, records[..n]).summaries, records[n], run);
    if i < n {
      assert forall j :: 0 <= j < n ==> records[..n][j] == records[j];
      CurrentTaskIsTheLastStarted(records[..n], run, i);
    }
  }

  lemma NothingSeen(run: string)
    ensures forall kind :: !Saw([], run, kind)
  {}

  lemma SawOneMore(records: seq<M9Record>, run: string, kind: RecordType)
    requires records != []
    ensures var n := |records| - 1;
            Saw(records, run, kind) <==>
              Saw(records[..n], run, kind) || (records[n].workflowRunId == Some(run) && records[n].recordType == kind)
  {
    var n := |records| - 1;
    if Saw(records[..n], run, kind) {
      var i :| 0 <= i < n && records[..n][i].workflowRunId == Some(run) && records[..n][i].recordType == kind;
      assert records[i].workflowRunId == Some(run);
    }
    if Saw(records, run, kind) {
      var i :| 0 <= i < |records| && records[i].workflowRunId == Some(run) && records[i].recordType == kind;
      if i < n { assert records[..n][i].workflowRunId == Some(run); }
    }
  }
}
