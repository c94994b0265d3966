// What the one-pass attention fold means: every entry comes from the last record that decided
// its subject, whatever order the records arrived in.

module AttentionMeaning {
  import opened Options
  import opened OrderedMaps
  import opened Sorting
  import opened LastWriter
  import opened ActivityRecords
  import opened Attention

  // What an entry can be about, apart from a single record's organizational effect.
  datatype Subject =
    | OfTask(taskId: string)
    | OfWorkflow(workflowId: string)
    | OfVerification(verificationKey: string)
    | OfTest(testKey: string)
    | OfApproval(approvalKey: string)

  function SubjectKey(s: Subject): string {
    match s
    case OfTask(t) => "task:" + t
    case OfWorkflow(w) => "workflow:" + w
    case OfVerification(k) => "verification:" + k
    case OfTest(k) => "test:" + k
    case OfApproval(k) => "approval:" + k
  }

  // What one record says about a subject on its own: Some(true) raises it, Some(false) settles it,
  // None is silence. Pending tasks, shadow workflow transitions, inconclusive verifications and
  // test runs that executed nothing are silent.
  ghost function Verdict(s: Subject, r: ActivityRecord): Option<bool> {
    match s
    case OfTask(t) =>
      if r.kind.Task? && r.taskId == Some(t) && !r.kind.status.Pending?
      then Some(IsOpenTaskStatus(r.kind.status)) else None
    case OfWorkflow(w) =>
      if r.kind.Workflow? && r.workflowId == Some(w) && r.kind.authoritative
      then Some(r.kind.currentState == "failed") else None
    case OfVerification(k) =>
      if r.kind.Verification? && VerificationKey(r) == k && !r.kind.outcome.Inconclusive?
      then Some(!r.kind.outcome.Passed?) else None
    case OfTest(k) =>
      if r.kind.Test? && TestKey(r) == k && (r.kind.failed > 0 || (r.kind.failed == 0 && r.kind.passed > 0))
      then Some(r.kind.failed > 0) else None
    case OfApproval(k) =>
      if r.kind.AgentMessage? && ApprovalKey(r) == k && !r.kind.messageKind.OtherMessage?
      then Some(r.kind.messageKind.ApprovalRequest?) else None
  }

  // Record i raised the subject and nothing after it said anything about the subject.
  ghost predicate RaisedLastAt(ordered: seq<ActivityRecord>, s: Subject, i: int) {
    && 0 <= i < |ordered|
    && Verdict(s, ordered[i]) == Some(true)
    && forall j :: i < j < |ordered| ==> Verdict(s, ordered[j]) == None
  }

  // Keys of different families start differently.
  lemma KeyTags(x: string)
    ensures var k := "task:" + x; k[0] == 't' && k[1] == 'a'
    ensures var k := "workflow:" + x; k[0] == 'w'
    ensures var k := "verification:" + x; k[0] == 'v'
    ensures var k := "test:" + x; k[0] == 't' && k[1] == 'e'
    ensures var k := "tool:" + x; k[0] == 't' && k[1] == 'o'
    ensures var k := "approval:" + x; k[0] == 'a'
    ensures var k := "effect:" + x; k[0] == 'e'
  {}

  lemma KeyBody(p: string, x: string, y: string)
    requires p + x == p + y
    ensures x == y
  {
    assert (p + x)[|p|..] == x && (p + y)[|p|..] == y;
  }

  lemma {:induction false} SubjectKeysDiffer(s: Subject, u: Subject)
    requires SubjectKey(s) == SubjectKey(u)
    ensures s == u
  {
    var x := match s case OfTask(x) => x case OfWorkflow(x) => x case OfVerification(x) => x
                     case OfTest(x) => x case OfApproval(x) => x;
    var y := match u case OfTask(x) => x case OfWorkflow(x) => x case OfVerification(x) => x
                     case OfTest(x) => x case OfApproval(x) => x;
    KeyTags(x);
    KeyTags(y);
    var p := match s case OfTask(_) => "task:" case OfWorkflow(_) => "workflow:"
                     case OfVerification(_) => "verification:"
                     case OfTest(_) => "test:" case OfApproval(_) => "approval:";
    KeyBody(p, x, y);
  }

  // The subject a record's own kind is about, when it has one.
  ghost function SubjectOf(r: ActivityRecord): Option<Subject> {
    match r.kind
    case Task(_) => Some(OfTask(r.taskId.value))
    case Workflow(_, _) => Some(OfWorkflow(r.workflowId.value))
    case Verification(_, _) => Some(OfVerification(VerificationKey(r)))
    case Test(_, _, _) => Some(OfTest(TestKey(r)))
    case AgentMessage(_, _, _, _, _) => Some(OfApproval(ApprovalKey(r)))
    case _ => None
  }

  // A record writes under a subject's key exactly when its verdict raises the subject.
  lemma {:induction false} WritesSubjectKey(s: Subject, r: ActivityRecord)
    ensures (Write(r).Some? && Write(r).value.0 == SubjectKey(s)) <==> Verdict(s, r) == Some(true)
    ensures Verdict(s, r) == Some(true) ==>
              Write(r) == Some((SubjectKey(s), KindAttention(r).value)) && KindAttention(r).Some?
              && (s.OfTask? ==> KindAttention(r).value.taskId == Some(s.taskId))
              && KindAttention(r).value.effect == None
  {
    KeyTags(r.id);
    var x := match s case OfTask(x) => x case OfWorkflow(x) => x case OfVerification(x) => x
                     case OfTest(x) => x case OfApproval(x) => x;
    KeyTags(x);
    if SubjectOf(r).Some? && SubjectKey(SubjectOf(r).value) == SubjectKey(s) {
      SubjectKeysDiffer(SubjectOf(r).value, s);
    }
  }

  // An entry filed under a subject's key is killed exactly when the verdict settles the subject.
  lemma {:induction false} KillsSubjectKey(s: Subject, r: ActivityRecord, e: Entry)
    requires e.effect == None && (s.OfTask? ==> e.taskId == Some(s.taskId))
    ensures Kills(r, SubjectKey(s), e) <==> Verdict(s, r) == Some(false)
  {
    var x := match s case OfTask(x) => x case OfWorkflow(x) => x case OfVerification(x) => x
                     case OfTest(x) => x case OfApproval(x) => x;
    KeyTags(x);
    if r.kind.ToolResult? { KeyTags(r.kind.callID); }
    if SubjectOf(r).Some? && SubjectKey(SubjectOf(r).value) == SubjectKey(s) {
      SubjectKeysDiffer(SubjectOf(r).value, s);
    }
    assert "task:" <= SubjectKey(s) <==> s.OfTask? by {
      if "task:" <= SubjectKey(s) { assert SubjectKey(s)[0] == 't' && SubjectKey(s)[1] == 'a'; }
    }
    assert !r.kind.Task? && ClearedKey(r) == Some(SubjectKey(s)) && SubjectOf(r).Some?
      ==> SubjectOf(r).value == s;
  }

  // Last-writer meaning: a subject is open exactly when the last record with a verdict about it
  // raises it, and the entry shown is that record's.
  lemma {:induction false} OpenExactlyWhenLastVerdictRaises(ordered: seq<ActivityRecord>, s: Subject)
    ensures SubjectKey(s) in Active(ordered).vals <==> exists i :: RaisedLastAt(ordered, s, i)
    ensures forall i :: RaisedLastAt(ordered, s, i) ==>
              SubjectKey(s) in Active(ordered).vals
              && Some(Active(ordered).vals[SubjectKey(s)]) == KindAttention(ordered[i])
  {
    var k, active := SubjectKey(s), Active(ordered).vals;
    if k in active {
      ActiveIsLastWriter(ordered, k, active[k]);
      var i :| LiveAt(ordered, i, Kills, Write, k, active[k]);
      WritesSubjectKey(s, ordered[i]);
      forall j | i < j < |ordered| ensures Verdict(s, ordered[j]) == None {
        assert !Touches(ordered[j], Kills, Write, k, active[k]);
        WritesSubjectKey(s, ordered[j]);
        KillsSubjectKey(s, ordered[j], active[k]);
      }
      assert RaisedLastAt(ordered, s, i);
    }
    forall i | RaisedLastAt(ordered, s, i)
      ensures k in active && Some(active[k]) == KindAttention(ordered[i])
    {
      WritesSubjectKey(s, ordered[i]);
      var e := KindAttention(ordered[i]).value;
      forall j | i < j < |ordered| ensures !Touches(ordered[j], Kills, Write, k, e) {
        WritesSubjectKey(s, ordered[j]);
        KillsSubjectKey(s, ordered[j], e);
      }
      assert LiveAt(ordered, i, Kills, Write, k, e);
      ActiveIsLastWriter(ordered, k, e);
    }
  }

  // ----- effect entries -----

  lemma WritesEffectKey(id: string, r: ActivityRecord)
    ensures (Write(r).Some? && Write(r).value.0 == "effect:" + id)
            <==> KindAttention(r) == None && OpensItem(r.effect) && r.id == id
  {
    KeyTags(id);
    KeyTags(r.id);
    if SubjectOf(r).Some? && KindAttention(r).Some? {
      WritesSubjectKey(SubjectOf(r).value, r);
      var x := match SubjectOf(r).value case OfTask(x) => x case OfWorkflow(x) => x case OfVerification(x) => x
                                        case OfTest(x) => x case OfApproval(x) => x;
      KeyTags(x);
    } else if KindAttention(r) == None && OpensItem(r.effect) && "effect:" + r.id == "effect:" + id {
      KeyBody("effect:", r.id, id);
    }
  }

  lemma KillsEffectKey(id: string, r: ActivityRecord, e: Entry)
    requires e.effect.Some?
    ensures Kills(r, "effect:" + id, e) <==> ResolvesEffect(r, e.sourceRecordId, e.workflowRunId, e.sessionId)
  {
    KeyTags(id);
    var k := "effect:" + id;
    if r.kind.ToolResult? { KeyTags(r.kind.callID); }
    if SubjectOf(r).Some? {
      var x := match SubjectOf(r).value case OfTask(x) => x case OfWorkflow(x) => x case OfVerification(x) => x
                                        case OfTest(x) => x case OfApproval(x) => x;
      KeyTags(x);
    }
    assert k[0] != "task:"[0];
  }

  // Nothing after position i closes the item record i opened.
  ghost predicate UnresolvedAfter(ordered: seq<ActivityRecord>, i: int) {
    && 0 <= i < |ordered|
    && forall j :: i < j < |ordered| ==>
         !ResolvesEffect(ordered[j], ordered[i].id, ordered[i].workflowId, ordered[i].sessionId)
  }

  lemma {:induction false} EffectEntryExactlyWhenUnresolved(ordered: seq<ActivityRecord>, i: int)
    requires 0 <= i < |ordered|
    requires forall j :: 0 <= j < |ordered| && j != i ==> ordered[j].id != ordered[i].id
    ensures ("effect:" + ordered[i].id) in Active(ordered).vals
            <==> KindAttention(ordered[i]) == None && OpensItem(ordered[i].effect) && UnresolvedAfter(ordered, i)
    ensures ("effect:" + ordered[i].id) in Active(ordered).vals ==>
              Some(Active(ordered).vals["effect:" + ordered[i].id]) == EffectAttention(ordered[i])
  {
    var r, active := ordered[i], Active(ordered).vals;
    var k := "effect:" + r.id;
    WritesEffectKey(r.id, r);
    if k in active {
      ActiveIsLastWriter(ordered, k, active[k]);
      var n :| LiveAt(ordered, n, Kills, Write, k, active[k]);
      WritesEffectKey(r.id, ordered[n]);
      assert n == i;
      forall j | i < j < |ordered| ensures !ResolvesEffect(ordered[j], r.id, r.workflowId, r.sessionId) {
        assert !Touches(ordered[j], Kills, Write, k, active[k]);
        KillsEffectKey(r.id, ordered[j], active[k]);
      }
    }
    if KindAttention(r) == None && OpensItem(r.effect) && UnresolvedAfter(ordered, i) {
      var e := EffectAttention(r).value;
      forall j | i < j < |ordered| ensures !Touches(ordered[j], Kills, Write, k, e) {
        KillsEffectKey(r.id, ordered[j], e);
        WritesEffectKey(r.id, ordered[j]);
      }
      assert LiveAt(ordered, i, Kills, Write, k, e);
      ActiveIsLastWriter(ordered, k, e);
    }
  }
}
