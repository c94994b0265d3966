// What "needs attention" shows, in terms of the records alone: no keys, no fold and no order of
// arrival. Every entry shown is that of a record which spoke last about its subject, or which opened
// an item that nothing later closed.

module AttentionShown {
  import opened Options
  import opened JoinedTexts
  import opened OrderedMaps
  import opened Sorting
  import opened LastWriter
  import opened ActivityRecords
  import opened Attention
  import opened AttentionMeaning
  import OpenAgreement

  // What a record says about its own subject.
  datatype Word = Silent | Settles | Raises(reason: Reason)

  function Says(r: ActivityRecord): Word {
    match r.kind
    case Task(Blocked) => Raises(TaskBlockedReason)
    case Task(TaskFailed) => Raises(TaskFailedReason)
    case Task(AwaitingApproval) => Raises(TaskAwaitingApprovalReason)
    case Task(Pending) => Silent
    case Task(_) => Settles
    case Workflow(_, false) => Silent
    case Workflow(state, true) => if state == "failed" then Raises(WorkflowFailedReason) else Settles
    case Verification(_, Passed) => Settles
    case Verification(_, Failed) => Raises(VerificationFailedReason)
    case Verification(_, OutcomeBlocked) => Raises(VerificationBlockedReason)
    case Verification(_, Inconclusive) => Silent
    case Test(_, passed, failed) =>
      if failed > 0 then Raises(TestFailedReason) else if failed == 0 && passed > 0 then Settles else Silent
    case AgentMessage(ApprovalRequest, _, _, _, _) => Raises(ApprovalRequiredReason)
    case AgentMessage(ApprovalDecision, _, _, _, _) => Settles
    case _ => Silent
  }

  // How an approval is named when its message has no correlation id.
  function Spelled(r: ActivityRecord): (string, string)
    requires r.kind.AgentMessage?
  {
    (FirstOf([r.kind.threadId, Some("thread")]),
     Joined(FirstOf([r.kind.turnId, Some("turn")]), ':', FirstOf([r.kind.toolName, Some("approval")])))
  }

  predicate SameApproval(r: ActivityRecord, q: ActivityRecord)
    requires r.kind.AgentMessage? && q.kind.AgentMessage?
  {
    match (r.correlationId, q.correlationId)
    case (Some(c), Some(d)) => c == d
    case (Some(c), None) => c == Joined(Spelled(q).0, ':', Spelled(q).1)
    case (None, Some(d)) => d == Joined(Spelled(r).0, ':', Spelled(r).1)
    case (None, None) => ReadAlike(Spelled(r).0, Spelled(r).1, Spelled(q).0, Spelled(q).1, ':')
  }

  // Two records of a kind are about the same task, workflow, verification, test run or approval.
  predicate SameSubject(r: ActivityRecord, q: ActivityRecord) {
    match (r.kind, q.kind)
    case (Task(_), Task(_)) => r.taskId == q.taskId
    case (Workflow(_, _), Workflow(_, _)) => r.workflowId == q.workflowId
    case (Verification(run, _), Verification(run', _)) =>
      FirstOf([run, r.taskId, Some(r.id)]) == FirstOf([run', q.taskId, Some(q.id)])
    case (Test(command, _, _), Test(command', _, _)) =>
      ReadAlike(FirstOf([r.taskId, Some("global")]), command, FirstOf([q.taskId, Some("global")]), command', ':')
    case (AgentMessage(_, _, _, _, _), AgentMessage(_, _, _, _, _)) => SameApproval(r, q)
    case _ => false
  }

  function OwnEntry(r: ActivityRecord): Entry
    requires Says(r).Raises?
  {
    Entry("attention:" + r.id, Says(r).reason, if r.kind.AgentMessage? then r.kind.risk else None, r.id, None,
          r.workflowId, r.taskId, r.sessionId, r.timestamp)
  }

  predicate OpensOwnItem(r: ActivityRecord) {
    && !Says(r).Raises?
    && (r.effect == Some(Hold) || r.effect == Some(Finding) || r.effect == Some(Recommendation))
  }

  function ItemEntry(r: ActivityRecord): Entry
    requires OpensOwnItem(r)
  {
    Entry("attention:" + r.id, EffectReason(r.effect.value), None, r.id, r.effect,
          r.workflowId, r.taskId, r.sessionId, r.timestamp)
  }

  // q corrects r, or relates to it, or relates to nothing and disposes of what is open where r is.
  predicate ClosesItem(q: ActivityRecord, r: ActivityRecord) {
    || q.correctionOf == Some(r.id)
    || r.id in q.relatesTo
    || (&& q.relatesTo == []
        && q.effect in {Some(Closure), Some(Decision), Some(Authorization), Some(Intervention)}
        && ((r.workflowId.Some? && q.workflowId == r.workflowId) || (r.sessionId.Some? && q.sessionId == r.sessionId)))
  }

  // ----- the keys, the verdicts and the entries in these terms -----

  lemma VerificationNamed(r: ActivityRecord)
    requires r.kind.Verification?
    ensures VerificationKey(r) == FirstOf([r.kind.verificationRunId, r.taskId, Some(r.id)])
  {
    FirstOfThree(r.kind.verificationRunId, r.taskId, r.id);
    FirstOfTwo(r.taskId, r.id);
  }

  lemma TestNamed(r: ActivityRecord)
    requires r.kind.Test?
    ensures TestKey(r) == Joined(FirstOf([r.taskId, Some("global")]), ':', r.kind.command)
  {
    FirstOfTwo(r.taskId, "global");
  }

  lemma ApprovalNamed(r: ActivityRecord)
    requires r.kind.AgentMessage?
    ensures ApprovalKey(r) == match r.correlationId
                              case Some(c) => c
                              case None => Joined(Spelled(r).0, ':', Spelled(r).1)
  {
    FirstOfTwo(r.kind.threadId, "thread");
    FirstOfTwo(r.kind.turnId, "turn");
    FirstOfTwo(r.kind.toolName, "approval");
    var a, b, c := r.kind.threadId.GetOr("thread"), r.kind.turnId.GetOr("turn"), r.kind.toolName.GetOr("approval");
    assert a + ":" + b + ":" + c == Joined(a, ':', Joined(b, ':', c));
  }

  // Two records have the same subject exactly when their kinds and names say so.
  lemma {:induction false} SubjectsAreSameExactly(r: ActivityRecord, q: ActivityRecord)
    requires SubjectOf(r).Some?
    ensures SubjectOf(r) == SubjectOf(q) <==> SameSubject(r, q)
  {
    if r.kind.Verification? && q.kind.Verification? {
      VerificationNamed(r);
      VerificationNamed(q);
    } else if r.kind.Test? && q.kind.Test? {
      TestNamed(r);
      TestNamed(q);
      SameKeyExactly(FirstOf([r.taskId, Some("global")]), r.kind.command,
                     FirstOf([q.taskId, Some("global")]), q.kind.command, ':');
    } else if r.kind.AgentMessage? && q.kind.AgentMessage? {
      ApprovalNamed(r);
      ApprovalNamed(q);
      SameKeyExactly(Spelled(r).0, Spelled(r).1, Spelled(q).0, Spelled(q).1, ':');
    }
  }

  lemma {:induction false} VerdictIsWhatIsSaid(r: ActivityRecord, q: ActivityRecord)
    requires SubjectOf(r).Some?
    ensures Verdict(SubjectOf(r).value, q)
            == if SameSubject(r, q) && !Says(q).Silent? then Some(Says(q).Raises?) else None
  {
    SubjectsAreSameExactly(r, q);
    hide SameSubject;
  }

  lemma {:induction false} EntriesAreTheRecords(r: ActivityRecord)
    ensures KindAttention(r) == if Says(r).Raises? then Some(OwnEntry(r)) else None
    ensures Says(r).Raises? ==> SubjectOf(r).Some?
    ensures KindAttention(r) == None && OpensItem(r.effect) <==> OpensOwnItem(r)
    ensures OpensOwnItem(r) ==> EffectAttention(r) == Some(ItemEntry(r))
  {}

  lemma ClosesIsResolves(q: ActivityRecord, r: ActivityRecord)
    ensures ClosesItem(q, r) <==> ResolvesEffect(q, r.id, r.workflowId, r.sessionId)
  {}

  // ----- entries by position in the history -----

  // Record i raises its subject, and nothing after it speaks about that subject.
  ghost predicate SpokeLastAt(ordered: seq<ActivityRecord>, i: int) {
    && 0 <= i < |ordered| && Says(ordered[i]).Raises?
    && forall j :: i < j < |ordered| && SameSubject(ordered[i], ordered[j]) ==> Says(ordered[j]).Silent?
  }

  // Record i opens an item that nothing after it closes, or opens again under the same id.
  ghost predicate LeftOpenAt(ordered: seq<ActivityRecord>, i: int) {
    && 0 <= i < |ordered| && OpensOwnItem(ordered[i])
    && forall j :: i < j < |ordered| ==> !Supersedes(ordered[j], ordered[i])
  }

  predicate Supersedes(q: ActivityRecord, r: ActivityRecord) {
    ClosesItem(q, r) || (q.id == r.id && OpensOwnItem(q))
  }

  ghost predicate ShownAt(ordered: seq<ActivityRecord>, i: int, e: Entry) {
    (SpokeLastAt(ordered, i) && e == OwnEntry(ordered[i])) || (LeftOpenAt(ordered, i) && e == ItemEntry(ordered[i]))
  }

  lemma SpokeLastIsRaisedLast(ordered: seq<ActivityRecord>, i: int)
    requires 0 <= i < |ordered| && Says(ordered[i]).Raises?
    ensures SubjectOf(ordered[i]).Some?
    ensures SpokeLastAt(ordered, i) <==> RaisedLastAt(ordered, SubjectOf(ordered[i]).value, i)
  {
    EntriesAreTheRecords(ordered[i]);
    var s := SubjectOf(ordered[i]).value;
    forall j | 0 <= j < |ordered|
      ensures Verdict(s, ordered[j])
              == if SameSubject(ordered[i], ordered[j]) && !Says(ordered[j]).Silent?
                 then Some(Says(ordered[j]).Raises?) else None
    {
      VerdictIsWhatIsSaid(ordered[i], ordered[j]);
    }
    SubjectsAreSameExactly(ordered[i], ordered[i]);
    hide Verdict, Says, SameSubject, SubjectOf;
  }

  // Under its own key, an effect entry of record i is touched exactly by what supersedes it.
  lemma TouchesItem(r: ActivityRecord, q: ActivityRecord)
    requires OpensOwnItem(r)
    ensures Touches(q, Kills, Write, "effect:" + r.id, ItemEntry(r)) <==> Supersedes(q, r)
  {
    KillsEffectKey(r.id, q, ItemEntry(r));
    WritesEffectKey(r.id, q);
    EntriesAreTheRecords(q);
    ClosesIsResolves(q, r);
    hide Kills, Write, OpensOwnItem, ClosesItem, ResolvesEffect;
  }

  lemma WritesItem(r: ActivityRecord)
    ensures Write(r) == if Says(r).Raises? then Some((SubjectKey(SubjectOf(r).value), OwnEntry(r)))
                        else if OpensOwnItem(r) then Some(("effect:" + r.id, ItemEntry(r))) else None
  {
    EntriesAreTheRecords(r);
    if Says(r).Raises? {
      VerdictIsWhatIsSaid(r, r);
      SubjectsAreSameExactly(r, r);
      WritesSubjectKey(SubjectOf(r).value, r);
    }
  }

  lemma LiveItemIsLeftOpen(ordered: seq<ActivityRecord>, i: int)
    requires 0 <= i < |ordered| && OpensOwnItem(ordered[i])
    ensures LiveAt(ordered, i, Kills, Write, "effect:" + ordered[i].id, ItemEntry(ordered[i]))
            <==> LeftOpenAt(ordered, i)
  {
    var r := ordered[i];
    WritesItem(r);
    forall j | 0 <= j < |ordered|
      ensures Touches(ordered[j], Kills, Write, "effect:" + r.id, ItemEntry(r)) <==> Supersedes(ordered[j], r)
    {
      TouchesItem(r, ordered[j]);
    }
    assert Write(r) == Some(("effect:" + r.id, ItemEntry(r)));
    hide Touches, Write, OpensOwnItem, Supersedes, ItemEntry;
  }

  lemma ActiveIsShown(ordered: seq<ActivityRecord>, k: string, e: Entry)
    requires k in Active(ordered).vals && Active(ordered).vals[k] == e
    ensures exists i :: ShownAt(ordered, i, e)
  {
    ActiveIsLastWriter(ordered, k, e);
    hide Active, Write, Kills;
    var i :| LiveAt(ordered, i, Kills, Write, k, e);
    WritesItem(ordered[i]);
    hide Verdict, Says, SameSubject, SubjectOf, SubjectKey, OpensOwnItem, ItemEntry, OwnEntry;
    if Says(ordered[i]).Raises? {
      EntriesAreTheRecords(ordered[i]);
      var s := SubjectOf(ordered[i]).value;
      OpenExactlyWhenLastVerdictRaises(ordered, s);
      var n :| RaisedLastAt(ordered, s, n);
      RaisedIsShown(ordered, s, n);
    } else {
      LiveItemIsLeftOpen(ordered, i);
      hide LeftOpenAt, SpokeLastAt;
      assert ShownAt(ordered, i, e);
    }
  }

  lemma RaisedIsShown(ordered: seq<ActivityRecord>, s: Subject, n: int)
    requires RaisedLastAt(ordered, s, n)
    ensures KindAttention(ordered[n]).Some? && ShownAt(ordered, n, KindAttention(ordered[n]).value)
  {
    EntriesAreTheRecords(ordered[n]);
    RaiserIsSubject(s, ordered[n]);
    SpokeLastIsRaisedLast(ordered, n);
  }

  lemma RaiserIsSubject(s: Subject, r: ActivityRecord)
    requires Verdict(s, r) == Some(true)
    ensures Says(r).Raises? && SubjectOf(r) == Some(s)
  {}

  lemma ShownIsActive(ordered: seq<ActivityRecord>, i: int, e: Entry)
    requires ShownAt(ordered, i, e)
    ensures exists k :: k in Active(ordered).vals && Active(ordered).vals[k] == e
  {
    EntriesAreTheRecords(ordered[i]);
    if Says(ordered[i]).Raises? {
      SpokeLastIsRaisedLast(ordered, i);
      var s := SubjectOf(ordered[i]).value;
      OpenExactlyWhenLastVerdictRaises(ordered, s);
      hide Active, Verdict, Says, SameSubject, SubjectOf, OpensOwnItem;
      assert Active(ordered).vals[SubjectKey(s)] == e;
    } else {
      LiveItemIsLeftOpen(ordered, i);
      ActiveIsLastWriter(ordered, "effect:" + ordered[i].id, e);
      hide Active, LiveAt;
      assert Live(ordered, Kills, Write, "effect:" + ordered[i].id, e);
    }
  }

  // An entry is shown exactly when some record in the sorted history spoke last about its subject, or
  // left an item open, and the entry is that record's.
  lemma {:induction false} ShownByPosition(records: seq<ActivityRecord>, e: Entry)
    ensures e in Project(records) <==> exists i :: ShownAt(InOrder(records), i, e)
  {
    OpenAgreement.ProjectShowsActive(records);
    hide Project, InOrder, Active, ShownAt;
    if k :| k in Active(InOrder(records)).vals && Active(InOrder(records)).vals[k] == e {
      ActiveIsShown(InOrder(records), k, e);
    }
    if i :| ShownAt(InOrder(records), i, e) {
      ShownIsActive(InOrder(records), i, e);
    }
  }

  // ----- entries by the set of records -----

  predicate Later(q: ActivityRecord, r: ActivityRecord) {
    q.sequence > r.sequence || (q.sequence == r.sequence && CompareText(q.id, r.id) > 0)
  }

  ghost predicate SpokeLast(records: seq<ActivityRecord>, r: ActivityRecord) {
    && r in records && Says(r).Raises?
    && forall q :: q in records && Later(q, r) && SameSubject(r, q) ==> Says(q).Silent?
  }

  ghost predicate LeftOpen(records: seq<ActivityRecord>, r: ActivityRecord) {
    && r in records && OpensOwnItem(r)
    && forall q :: q in records && Later(q, r) ==> !Supersedes(q, r)
  }

  ghost predicate ShownFor(records: seq<ActivityRecord>, r: ActivityRecord, e: Entry) {
    (SpokeLast(records, r) && e == OwnEntry(r)) || (LeftOpen(records, r) && e == ItemEntry(r))
  }

  // Position i is the last place of its record in the sorted history.
  ghost predicate LastPlace(s: seq<ActivityRecord>, i: int) {
    0 <= i < |s| && forall j :: i < j < |s| ==> s[j] != s[i]
  }

  lemma {:induction false} HasLastPlace(s: seq<ActivityRecord>, r: ActivityRecord)
    requires r in s
    ensures exists i :: LastPlace(s, i) && s[i] == r
  {
    var n := |s| - 1;
    if s[n] == r {
      assert LastPlace(s, n);
    } else {
      assert s == s[..n] + [s[n]];
      HasLastPlace(s[..n], r);
      var i :| LastPlace(s[..n], i) && s[..n][i] == r;
      assert forall j :: i < j < n ==> s[j] == s[..n][j];
      assert LastPlace(s, i) && s[i] == r;
    }
  }

  lemma InOrderIsSorted(records: seq<ActivityRecord>)
    ensures Sorted(CompareRecords, InOrder(records))
    ensures forall r :: r in InOrder(records) <==> r in records
  {
    RecordOrderIsTotal();
    SortSorts(CompareRecords, records);
    SortMembers(CompareRecords, records);
  }

  // What comes after the last place of a record is what is later than it.
  lemma {:induction false} AfterIsLater(records: seq<ActivityRecord>, i: int, q: ActivityRecord)
    requires Identified(records) && LastPlace(InOrder(records), i)
    ensures InOrder(records)[i] in records
    ensures (exists j :: i < j < |InOrder(records)| && InOrder(records)[j] == q)
            <==> q in records && Later(q, InOrder(records)[i])
  {
    var s := InOrder(records);
    InOrderIsSorted(records);
    hide InOrder, CompareText;
    var r := s[i];
    assert r in s;
    CompareTextAntisymmetric(q.id, r.id);
    CompareTextAntisymmetric(r.id, q.id);
    if j :| i < j < |s| && s[j] == q {
      assert CompareRecords(r, q) <= 0 && q in s;
    }
    if q in records && Later(q, r) {
      var j :| 0 <= j < |s| && s[j] == q;
      if j < i { assert CompareRecords(s[j], s[i]) <= 0; }
    }
  }

  lemma LastPlacesAgree(records: seq<ActivityRecord>, i: int)
    requires Identified(records) && LastPlace(InOrder(records), i)
    ensures SpokeLastAt(InOrder(records), i) <==> SpokeLast(records, InOrder(records)[i])
    ensures LeftOpenAt(InOrder(records), i) <==> LeftOpen(records, InOrder(records)[i])
  {
    var s, r := InOrder(records), InOrder(records)[i];
    forall q ensures (exists j :: i < j < |s| && s[j] == q) <==> q in records && Later(q, r) {
      AfterIsLater(records, i, q);
    }
    AfterIsLater(records, i, r);
    hide InOrder, Later, Says, SameSubject, Supersedes, OpensOwnItem;
  }

  lemma ShownAtItsLastPlace(ordered: seq<ActivityRecord>, i: int, e: Entry)
    requires ShownAt(ordered, i, e)
    ensures LastPlace(ordered, i)
  {
    var r := ordered[i];
    if SubjectOf(r).Some? { SubjectsAreSameExactly(r, r); }
    EntriesAreTheRecords(r);
    hide SubjectOf, SameSubject, Says, OpensOwnItem;
    assert SpokeLastAt(ordered, i) ==> SameSubject(r, r);
  }

  // What is shown depends on the records alone: an entry is shown exactly when it is the own entry of
  // a record than which no later one speaks about the same subject, or the item of a record that
  // nothing later closes.
  lemma {:induction false} ShownExactly(records: seq<ActivityRecord>, e: Entry)
    requires Identified(records)
    ensures e in Project(records) <==> exists r :: ShownFor(records, r, e)
  {
    ShownByPosition(records, e);
    hide Project, InOrder, SpokeLastAt, LeftOpenAt, SpokeLast, LeftOpen, Identified;
    if i :| ShownAt(InOrder(records), i, e) {
      ShownAtItsLastPlace(InOrder(records), i, e);
      LastPlacesAgree(records, i);
      assert ShownFor(records, InOrder(records)[i], e);
    }
    if r :| ShownFor(records, r, e) {
      InOrderHas(records, r, e);
      HasLastPlace(InOrder(records), r);
      var i :| LastPlace(InOrder(records), i) && InOrder(records)[i] == r;
      LastPlacesAgree(records, i);
      assert ShownAt(InOrder(records), i, e);
    }
  }

  lemma InOrderHas(records: seq<ActivityRecord>, r: ActivityRecord, e: Entry)
    requires ShownFor(records, r, e)
    ensures r in InOrder(records)
  {
    InOrderIsSorted(records);
  }

  // ----- a consequence, and the output order -----

  // A green run of another command of the same task leaves a red run open.
  lemma {:induction false} GreenRunOfAnotherCommandLeavesItOpen(records: seq<ActivityRecord>, red: ActivityRecord)
    requires Identified(records) && red in records && red.kind.Test? && red.kind.failed > 0
    requires forall q :: q in records && Later(q, red) && q.kind.Test? ==>
               q.taskId == red.taskId && q.kind.command != red.kind.command
    ensures OwnEntry(red) in Project(records)
  {
    var name := FirstOf([red.taskId, Some("global")]);
    assert |name + [':']| > |name|;
    assert forall q :: q in records && Later(q, red) ==> !SameSubject(red, q);
    assert SpokeLast(records, red);
    ShownExactly(records, OwnEntry(red));
    assert ShownFor(records, red, OwnEntry(red));
  }

  // Critical before high before medium before low before none.
  predicate AtLeastAsSevere(a: Option<Severity>, b: Option<Severity>) {
    match b
    case None => true
    case Some(Low) => a.Some?
    case Some(Medium) => a.Some? && a.value != Low
    case Some(High) => a == Some(High) || a == Some(Critical)
    case Some(Critical) => a == Some(Critical)
  }

  // The list goes from more to less severe, and among equals from older to newer.
  lemma {:induction false} SevereFirstThenOldest(records: seq<ActivityRecord>)
    ensures forall i, j :: 0 <= i < j < |Project(records)| ==>
              && AtLeastAsSevere(Project(records)[i].severity, Project(records)[j].severity)
              && (AtLeastAsSevere(Project(records)[j].severity, Project(records)[i].severity) ==>
                    CompareText(Project(records)[i].timestamp, Project(records)[j].timestamp) <= 0)
  {
    var out := Project(records);
    ProjectIsSorted(records);
    hide Project, CompareText;
    forall i, j | 0 <= i < j < |out|
      ensures AtLeastAsSevere(out[i].severity, out[j].severity)
      ensures AtLeastAsSevere(out[j].severity, out[i].severity) ==>
                CompareText(out[i].timestamp, out[j].timestamp) <= 0
    {
      SevereFirst(out[i], out[j]);
    }
  }

  lemma ProjectIsSorted(records: seq<ActivityRecord>)
    ensures Sorted(CompareAttention, Project(records))
  {
    AttentionOrderIsTotal();
    SortSorts(CompareAttention, ValuesOf(Active(InOrder(records))));
  }

  lemma SevereFirst(a: Entry, b: Entry)
    requires CompareAttention(a, b) <= 0
    ensures AtLeastAsSevere(a.severity, b.severity)
    ensures AtLeastAsSevere(b.severity, a.severity) ==> CompareText(a.timestamp, b.timestamp) <= 0
  {}
}
