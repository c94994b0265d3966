// The activity turn control registry (activity-turn-controls.ts): turns indexed by activity and by
// conversation, each with a queue of follow-up requests run one after another.

module TurnControls {
  import opened Options
  import opened Sequences

  datatype Status = Running | StopRequested | Completed | Failed | Cancelled
  datatype QueueItem = QueueItem(requestId: string, record: string)
  datatype EnqueueResult = Queued(queuedCount: nat) | Duplicate(queuedCount: nat) | Unavailable

  predicate Active(s: Status) { s == Running || s == StopRequested }

  // One turn. `accepted` and `ran` are its history: everything ever queued, everything ever run.
  datatype Turn = Turn(queue: seq<QueueItem>, seen: set<string>, conversationId: Option<string>, status: Status,
                       aborted: bool, accepted: seq<QueueItem>, ran: seq<QueueItem>)

  datatype State = State(turns: map<string, Turn>, index: map<string, string>)

  const NEW_TURN := Turn([], {}, None, Running, false, [], [])

  datatype Op =
    | Start(activityId: string)
    | Bind(activityId: string, conversationId: string)
    | Enqueue(conversationId: string, item: QueueItem)
    | RequestStop(conversationId: string)
    | Finish(conversationId: string, status: Status)

  function BindTurn(s: State, a: string, c: string): State
    requires a in s.turns
  {
    var before := s.turns[a].conversationId;
    if before == Some(c) then s
    else
      // An empty id counts as no id, so its index entry is not dropped.
      var dropped := if before.Some? && before.value != "" then s.index - {before.value} else s.index;
      State(s.turns[a := s.turns[a].(conversationId := Some(c))], dropped[c := a])
  }

  function EnqueueOn(t: Turn, item: QueueItem): Turn {
    if !Active(t.status) || item.requestId in t.seen then t
    else t.(queue := t.queue + [item], seen := t.seen + {item.requestId}, accepted := t.accepted + [item])
  }

  function StopOn(t: Turn): Turn {
    if Active(t.status) then t.(status := StopRequested, aborted := true) else t
  }

  function FinishOn(t: Turn, status: Status): Turn {
    if t.queue != [] then t.(queue := t.queue[1..], status := Running, ran := t.ran + [t.queue[0]])
    else t.(status := status)
  }

  // The turn an operation on a conversation reaches, when the index names one.
  predicate Indexed(s: State, c: string) { c in s.index && s.index[c] in s.turns }

  function Apply(s: State, op: Op): State {
    match op
    case Start(a) => if a in s.turns then s else s.(turns := s.turns[a := NEW_TURN])
    case Bind(a, c) => if a in s.turns then BindTurn(s, a, c) else s
    case Enqueue(c, item) =>
      if Indexed(s, c) then s.(turns := s.turns[s.index[c] := EnqueueOn(s.turns[s.index[c]], item)]) else s
    case RequestStop(c) =>
      if Indexed(s, c) then s.(turns := s.turns[s.index[c] := StopOn(s.turns[s.index[c]])]) else s
    case Finish(c, status) =>
      if Indexed(s, c) then s.(turns := s.turns[s.index[c] := FinishOn(s.turns[s.index[c]], status)]) else s
  }

  // What an enqueue answers.
  function EnqueueOutcome(s: State, c: string, item: QueueItem): EnqueueResult {
    if !Indexed(s, c) || !Active(s.turns[s.index[c]].status) then Unavailable
    else
      var t := s.turns[s.index[c]];
      if item.requestId in t.seen then Duplicate(|t.queue|) else Queued(|t.queue| + 1)
  }

  class TurnEntry {
    const activityId: string
    var queue: seq<QueueItem>
    var seenRequestIds: set<string>
    var conversationId: Option<string>
    var status: Status
    var aborted: bool
    ghost var accepted: seq<QueueItem>
    ghost var ran: seq<QueueItem>

    constructor (activityId: string)
      ensures this.activityId == activityId && View() == NEW_TURN
    {
      this.activityId := activityId;
      queue, seenRequestIds, conversationId, status, aborted := [], {}, None, Running, false;
      accepted, ran := [], [];
    }

    ghost function View(): Turn
      reads this
    {
      Turn(queue, seenRequestIds, conversationId, status, aborted, accepted, ran)
    }

    method Rebind(conversationId: string)
      modifies this
      ensures View() == old(View()).(conversationId := Some(conversationId))
    {
      this.conversationId := Some(conversationId);
    }

    method Accept(item: QueueItem)
      requires Active(status) && item.requestId !in seenRequestIds
      modifies this
      ensures View() == EnqueueOn(old(View()), item)
    {
      seenRequestIds := seenRequestIds + {item.requestId};
      queue := queue + [item];
      accepted := accepted + [item];
    }

    method Abort()
      requires Active(status)
      modifies this
      ensures View() == StopOn(old(View()))
    {
      status := StopRequested;
      aborted := true;
    }

    // The next queued request is run, or the turn ends with the given status.
    method Advance(status: Status) returns (continued: bool)
      modifies this
      ensures View() == FinishOn(old(View()), status) && (continued <==> old(queue) != [])
    {
      continued := queue != [];
      if continued {
        var next := queue[0];
        queue := queue[1..];
        this.status := Running;
        ran := ran + [next];
      } else {
        this.status := status;
      }
    }
  }

  class ActivityTurnControlRegistry {
    var byActivity: map<string, TurnEntry>
    var byConversation: map<string, TurnEntry>

    // Each turn is filed under its own activity, and only filed turns are indexed.
    ghost predicate Valid()
      reads this
    {
      && (forall a :: a in byActivity ==> byActivity[a].activityId == a)
      && (forall c :: c in byConversation ==>
            byConversation[c].activityId in byActivity
            && byActivity[byConversation[c].activityId] == byConversation[c])
    }

    ghost function Entries(): set<TurnEntry>
      reads this
    {
      byActivity.Values
    }

    ghost function Turns(): map<string, Turn>
      reads this, Entries()
    {
      map a | a in byActivity :: byActivity[a].View()
    }

    ghost function Index(): map<string, string>
      reads this
    {
      map c | c in byConversation :: byConversation[c].activityId
    }

    ghost function View(): State
      reads this, Entries()
    {
      State(Turns(), Index())
    }

    constructor ()
      ensures Valid() && View() == State(map[], map[])
    {
      byActivity, byConversation := map[], map[];
    }

    // Changing one filed turn changes that turn of the view and nothing else.
    twostate lemma OneTurnChanged(entry: TurnEntry)
      requires old(Valid()) && byActivity == old(byActivity)
      requires entry.activityId in byActivity && byActivity[entry.activityId] == entry
      requires forall e :: e in Entries() && e != entry ==> unchanged(e)
      ensures Turns() == old(Turns())[entry.activityId := entry.View()]
    {
      forall a | a in byActivity && a != entry.activityId ensures Turns()[a] == old(Turns())[a] {
        assert byActivity[a] in Entries() && byActivity[a] != entry;
      }
    }

    // Starting a known activity again hands back the existing turn, whatever its status.
    method StartTurn(activityId: string) returns (entry: TurnEntry)
      requires Valid()
      modifies this
      ensures Valid() && View() == Apply(old(View()), Start(activityId))
      ensures activityId in byActivity && entry == byActivity[activityId]
    {
      if activityId in byActivity { return byActivity[activityId]; }
      entry := new TurnEntry(activityId);
      byActivity := byActivity[activityId := entry];
    }

    method BindConversation(entry: TurnEntry, conversationId: string)
      requires Valid() && entry.activityId in byActivity && byActivity[entry.activityId] == entry
      modifies `byConversation, entry
      ensures Valid() && View() == Apply(old(View()), Bind(entry.activityId, conversationId))
    {
      hide EnqueueOn, StopOn, FinishOn, Index, Valid;
      if entry.conversationId == Some(conversationId) { return; }
      DropIndexEntry(entry);
      SetConversation(entry, conversationId);
      SetIndexEntry(entry, conversationId);
    }

    method SetConversation(entry: TurnEntry, conversationId: string)
      requires Valid() && entry.activityId in byActivity && byActivity[entry.activityId] == entry
      modifies entry
      ensures Valid() && Index() == old(Index())
      ensures Turns() == old(Turns())[entry.activityId := old(entry.View()).(conversationId := Some(conversationId))]
    {
      entry.Rebind(conversationId);
      OneTurnChanged(entry);
    }

    method SetIndexEntry(entry: TurnEntry, conversationId: string)
      requires Valid() && entry.activityId in byActivity && byActivity[entry.activityId] == entry
      modifies `byConversation
      ensures Valid() && Turns() == old(Turns()) && Index() == old(Index())[conversationId := entry.activityId]
    {
      byConversation := byConversation[conversationId := entry];
    }

    // A conversation id that is empty counts as none, and keeps its index entry.
    method DropIndexEntry(entry: TurnEntry)
      requires Valid()
      modifies `byConversation
      ensures Valid() && Turns() == old(Turns())
      ensures Index() == if entry.conversationId.Some? && entry.conversationId.value != ""
                         then old(Index()) - {entry.conversationId.value} else old(Index())
    {
      if entry.conversationId.Some? && entry.conversationId.value != "" {
        byConversation := byConversation - {entry.conversationId.value};
      }
    }

    // For a request id that is not empty: whether an enqueue under it would be answered otherwise than
    // unavailable, whatever it carries. The empty id is refused here, although an enqueue takes it.
    method CanQueue(conversationId: string, requestId: string) returns (r: bool)
      requires Valid()
      ensures requestId != "" ==>
                (r <==> forall record ::
                          !EnqueueOutcome(View(), conversationId, QueueItem(requestId, record)).Unavailable?)
      ensures requestId == "" ==> !r
    {
      r := conversationId in byConversation && Active(byConversation[conversationId].status) && requestId != "";
      assert EnqueueOutcome(View(), conversationId, QueueItem(requestId, "")).Unavailable?
        <==> conversationId !in byConversation || !Active(byConversation[conversationId].status);
    }

    method EnqueueRequest(conversationId: string, item: QueueItem) returns (result: EnqueueResult)
      requires Valid()
      modifies byConversation.Values
      ensures Valid() && View() == Apply(old(View()), Enqueue(conversationId, item))
      ensures result == EnqueueOutcome(old(View()), conversationId, item)
      ensures result.Queued? <==>
                conversationId in byConversation && old(Active(byConversation[conversationId].status))
                && item.requestId !in old(byConversation[conversationId].seenRequestIds)
      ensures !result.Unavailable? ==>
                conversationId in byConversation && result.queuedCount == |byConversation[conversationId].queue|
    {
      if conversationId !in byConversation || !Active(byConversation[conversationId].status) { return Unavailable; }
      var entry := byConversation[conversationId];
      if item.requestId in entry.seenRequestIds { return Duplicate(|entry.queue|); }
      entry.Accept(item);
      OneTurnChanged(entry);
      result := Queued(|entry.queue|);
    }

    method Stop(conversationId: string) returns (requested: bool)
      requires Valid()
      modifies byConversation.Values
      ensures Valid() && View() == Apply(old(View()), RequestStop(conversationId))
      ensures requested <==> conversationId in byConversation && old(Active(byConversation[conversationId].status))
    {
      if conversationId !in byConversation || !Active(byConversation[conversationId].status) { return false; }
      var entry := byConversation[conversationId];
      entry.Abort();
      OneTurnChanged(entry);
      requested := true;
    }

    // Returns whether a queued request was started.
    method FinishTurn(conversationId: string, status: Status) returns (continued: bool)
      requires Valid() && !Active(status)
      modifies byConversation.Values
      ensures Valid() && View() == Apply(old(View()), Finish(conversationId, status))
      ensures continued <==> conversationId in byConversation && old(byConversation[conversationId].queue) != []
    {
      if conversationId !in byConversation { return false; }
      var entry := byConversation[conversationId];
      continued := entry.Advance(status);
      OneTurnChanged(entry);
    }
  }
}

// What every sequence of registry operations keeps.
module TurnControlRuns {
  import opened Options
  import opened Sequences
  import opened TurnControls

  // Finishing always names a terminal status.
  predicate Proper(op: Op) { op.Finish? ==> !Active(op.status) }

  ghost function Run(ops: seq<Op>): State {
    if ops == [] then State(map[], map[]) else Apply(Run(ops[..|ops| - 1]), ops[|ops| - 1])
  }

  function RequestIds(items: seq<QueueItem>): seq<string> {
    seq(|items|, i requires 0 <= i < |items| => items[i].requestId)
  }

  // What ran followed by what waits is what was accepted, each request once; a terminal turn has
  // nothing waiting.
  ghost predicate Orderly(t: Turn) {
    && t.ran + t.queue == t.accepted
    && Distinct(RequestIds(t.accepted))
    && (forall id :: id in t.seen <==> id in RequestIds(t.accepted))
    && (!Active(t.status) ==> t.queue == [])
  }

  lemma AcceptDistinct(items: seq<QueueItem>, item: QueueItem)
    requires Distinct(RequestIds(items)) && item.requestId !in RequestIds(items)
    ensures RequestIds(items + [item]) == RequestIds(items) + [item.requestId]
    ensures Distinct(RequestIds(items + [item]))
  {}

  lemma TurnStaysOrderly(t: Turn, op: Op)
    requires Orderly(t) && Proper(op)
    ensures op.Enqueue? ==> Orderly(EnqueueOn(t, op.item))
    ensures op.RequestStop? ==> Orderly(StopOn(t))
    ensures op.Finish? ==> Orderly(FinishOn(t, op.status))
  {
    if op.Enqueue? && Active(t.status) && op.item.requestId !in t.seen {
      AcceptDistinct(t.accepted, op.item);
      assert t.ran + (t.queue + [op.item]) == t.accepted + [op.item];
    }
    if op.Finish? && t.queue != [] {
      assert (t.ran + [t.queue[0]]) + t.queue[1..] == t.accepted;
    }
  }

  // For every operation sequence, every turn is orderly.
  lemma {:induction false} EveryTurnIsOrderly(ops: seq<Op>, a: string)
    requires forall i :: 0 <= i < |ops| ==> Proper(ops[i])
    ensures a in Run(ops).turns ==> Orderly(Run(ops).turns[a])
  {
    if ops != [] {
      var n := |ops| - 1;
      EveryTurnIsOrderly(ops[..n], a);
      hide Orderly, EnqueueOn, StopOn, FinishOn;
      NewTurnIsOrderly();
      if a in Run(ops[..n]).turns {
        TurnStaysOrderly(Run(ops[..n]).turns[a], ops[n]);
        BindingStaysOrderly(Run(ops[..n]).turns[a], ops[n]);
      }
    }
  }

  lemma NewTurnIsOrderly()
    ensures Orderly(NEW_TURN)
  {}

  lemma BindingStaysOrderly(t: Turn, op: Op)
    requires Orderly(t)
    ensures op.Bind? ==> Orderly(t.(conversationId := Some(op.conversationId)))
  {}

  lemma EndedTurnStaysEnded(s: State, op: Op, a: string)
    requires a in s.turns && Orderly(s.turns[a]) && !Active(s.turns[a].status) && Proper(op)
    ensures a in Apply(s, op).turns && !Active(Apply(s, op).turns[a].status)
    ensures Apply(s, op).turns[a].ran == s.turns[a].ran && Apply(s, op).turns[a].accepted == s.turns[a].accepted
  {}

  // A turn that has ended stays ended, accepts nothing more and runs nothing more.
  lemma {:induction false} EndedTurnsStayEnded(ops: seq<Op>, k: nat, a: string)
    requires forall i :: 0 <= i < |ops| ==> Proper(ops[i])
    requires k <= |ops| && a in Run(ops[..k]).turns && !Active(Run(ops[..k]).turns[a].status)
    ensures a in Run(ops).turns && !Active(Run(ops).turns[a].status)
    ensures Run(ops).turns[a].ran == Run(ops[..k]).turns[a].ran
    ensures Run(ops).turns[a].accepted == Run(ops[..k]).turns[a].accepted
  {
    if k == |ops| {
      assert ops[..k] == ops;
    } else {
      var front := ops[..|ops| - 1];
      assert front[..k] == ops[..k];
      EndedTurnsStayEnded(front, k, a);
      EveryTurnIsOrderly(front, a);
      hide Orderly, Apply, Active;
      EndedTurnStaysEnded(Run(front), ops[|ops| - 1], a);
    }
  }

  // ----- how a turn stands -----

  // The operation goes to this turn: the index names it for the operation's conversation.
  predicate Reaches(s: State, op: Op, a: string) {
    && (op.Enqueue? || op.RequestStop? || op.Finish?)
    && op.conversationId in s.index && s.index[op.conversationId] == a
  }

  // What an operation says of the status of turn a. A finish ends it as given when everything accepted
  // has run, and otherwise keeps it going; a stop request counts while it is not over.
  function StatusSaid(s: State, op: Op, a: string): Option<Status>
    requires a in s.turns
  {
    var t := s.turns[a];
    if !Reaches(s, op, a) then None
    else match op
      case Finish(_, status) => Some(if |t.ran| == |t.accepted| then status else Running)
      case RequestStop(_) =>
        if t.status == Running || t.status == StopRequested then Some(StopRequested) else None
      case _ => None
  }

  ghost predicate StatusLastAt(ops: seq<Op>, a: string, k: int) {
    && 0 <= k < |ops| && a in Run(ops[..k]).turns && StatusSaid(Run(ops[..k]), ops[k], a).Some?
    && forall j :: k < j < |ops| ==>
         a in Run(ops[..j]).turns && StatusSaid(Run(ops[..j]), ops[j], a) == None
  }

  lemma StatusStep(s: State, op: Op, a: string)
    requires a in s.turns && Orderly(s.turns[a])
    ensures a in Apply(s, op).turns
    ensures Apply(s, op).turns[a].status == StatusSaid(s, op, a).GetOr(s.turns[a].status)
  {
    assert |s.turns[a].queue| == |s.turns[a].accepted| - |s.turns[a].ran|;
  }

  lemma StatusGrows(ops: seq<Op>, a: string)
    requires ops != [] && a in Run(ops[..|ops| - 1]).turns
    ensures var n := |ops| - 1;
            var front := ops[..n];
            if StatusSaid(Run(front), ops[n], a).Some?
            then StatusLastAt(ops, a, n) && forall j :: StatusLastAt(ops, a, j) ==> j == n
            else forall j :: StatusLastAt(ops, a, j) <==> StatusLastAt(front, a, j)
  {
    hide Run, StatusSaid;
    var n := |ops| - 1;
    var front := ops[..n];
    assert forall j :: 0 <= j <= n ==> front[..j] == ops[..j];
  }

  lemma StatusIsSaid(ops: seq<Op>, a: string, k: int)
    ensures StatusLastAt(ops, a, k) ==>
              0 <= k < |ops| && a in Run(ops[..k]).turns && StatusSaid(Run(ops[..k]), ops[k], a).Some?
  {}

  // A turn stands as the last operation that said so, and runs while none has.
  lemma {:induction false} TurnStandsAsLastSaid(ops: seq<Op>, a: string, k: int)
    requires forall i :: 0 <= i < |ops| ==> Proper(ops[i])
    requires a in Run(ops).turns
    ensures StatusLastAt(ops, a, k) ==>
              Run(ops).turns[a].status == StatusSaid(Run(ops[..k]), ops[k], a).value
    ensures (forall j :: !StatusLastAt(ops, a, j)) ==> Run(ops).turns[a].status == Running
  {
    hide StatusSaid, StatusLastAt, Orderly, Apply;
    var n := |ops| - 1;
    var front := ops[..n];
    assert Run(ops) == Apply(Run(front), ops[n]);
    hide Run;
    if a in Run(front).turns {
      EveryTurnIsOrderly(front, a);
      StatusStep(Run(front), ops[n], a);
      TurnStandsAsLastSaid(front, a, k);
      StatusGrows(ops, a);
      StatusIsSaid(ops, a, k);
      StatusIsSaid(front, a, k);
      if 0 <= k <= n { assert front[..k] == ops[..k]; }
    } else {
      NothingSaidOfNewTurn(ops, a, k);
    }
  }

  lemma NothingSaidOfNewTurn(ops: seq<Op>, a: string, k: int)
    requires ops != [] && a in Run(ops).turns && a !in Run(ops[..|ops| - 1]).turns
    ensures Run(ops).turns[a] == NEW_TURN && !StatusLastAt(ops, a, k)
  {
    var n := |ops| - 1;
    hide StatusSaid;
    assert a !in Run(ops[..n]).turns;
  }

  // Step k is a stop request that counts.
  ghost predicate StopsAt(ops: seq<Op>, a: string, k: int) {
    && 0 <= k < |ops| && ops[k].RequestStop? && a in Run(ops[..k]).turns
    && StatusSaid(Run(ops[..k]), ops[k], a) == Some(StopRequested)
  }

  lemma StopStep(s: State, op: Op, a: string)
    requires a in s.turns
    ensures a in Apply(s, op).turns
    ensures Apply(s, op).turns[a].aborted
            <==> s.turns[a].aborted || (op.RequestStop? && StatusSaid(s, op, a) == Some(StopRequested))
  {}

  lemma StopsGrow(ops: seq<Op>, a: string)
    requires ops != []
    ensures var n := |ops| - 1;
            (exists k :: StopsAt(ops, a, k)) <==> (exists k :: StopsAt(ops[..n], a, k)) || StopsAt(ops, a, n)
  {
    hide Run, StatusSaid;
    var n := |ops| - 1;
    assert forall j :: 0 <= j < n ==> ops[..n][..j] == ops[..j];
    if k :| StopsAt(ops[..n], a, k) { assert StopsAt(ops, a, k); }
    if k :| StopsAt(ops, a, k) && k < n { assert StopsAt(ops[..n], a, k); }
  }

  // A turn's work is told to abort exactly when a stop request reached it while it was not over.
  lemma {:induction false} AbortedByStopsExactly(ops: seq<Op>, a: string)
    requires a in Run(ops).turns
    ensures Run(ops).turns[a].aborted <==> exists k :: StopsAt(ops, a, k)
  {
    var n := |ops| - 1;
    StopsGrow(ops, a);
    if a in Run(ops[..n]).turns {
      StopStep(Run(ops[..n]), ops[n], a);
      AbortedByStopsExactly(ops[..n], a);
      hide Apply, StatusSaid;
      assert Run(ops) == Apply(Run(ops[..n]), ops[n]);
      hide Run;
    } else {
      NothingSaidOfNewTurn(ops, a, n);
      NeverThere(ops[..n], a);
      hide Apply, StatusSaid;
    }
  }

  // Turns stay, so one that is not there never was.
  lemma {:induction false} NeverThere(ops: seq<Op>, a: string)
    requires a !in Run(ops).turns
    ensures forall k :: !StopsAt(ops, a, k)
  {
    if ops != [] {
      NeverThere(ops[..|ops| - 1], a);
      StopsGrow(ops, a);
      hide StatusSaid;
    }
  }

  // What an enqueue answers is what it does: the request is accepted exactly when it is answered
  // queued, and the count is what waits then.
  lemma {:induction false} AnswerIsWhatHappens(s: State, c: string, item: QueueItem)
    requires Indexed(s, c) && Orderly(s.turns[s.index[c]])
    ensures var before, after := s.turns[s.index[c]], Apply(s, Enqueue(c, item)).turns[s.index[c]];
            && (EnqueueOutcome(s, c, item).Queued? <==> after.accepted == before.accepted + [item])
            && (!EnqueueOutcome(s, c, item).Queued? ==> after == before)
            && (!EnqueueOutcome(s, c, item).Unavailable? ==> EnqueueOutcome(s, c, item).queuedCount == |after.queue|)
  {
    var t := s.turns[s.index[c]];
    hide Orderly;
    assert |t.accepted + [item]| == |t.accepted| + 1;
  }

  // It happens: the empty request id, which `canQueue` refuses, is taken by an enqueue.
  lemma {:induction false} EmptyRequestIdIsQueued(record: string)
    ensures EnqueueOutcome(Run([Start("a"), Bind("a", "c")]), "c", QueueItem("", record)) == Queued(1)
  {
    var ops := [Start("a"), Bind("a", "c")];
    assert ops[..1] == [Start("a")] && ops[..1][..0] == [];
    assert Run(ops[..1]) == Apply(Run([]), Start("a"));
    assert Run(ops) == Apply(Run(ops[..1]), Bind("a", "c"));
  }

  // ----- the conversation index -----

  // Every index entry points to a turn bound to that conversation.
  ghost predicate IndexSound(s: State) {
    forall c :: c in s.index ==> s.index[c] in s.turns && s.turns[s.index[c]].conversationId == Some(c)
  }

  // Rebinding the turn indexed under the empty conversation id.
  predicate LeavesEmptyId(s: State, op: Op) {
    && op.Bind? && op.activityId in s.turns && s.turns[op.activityId].conversationId == Some("")
    && op.conversationId != "" && "" in s.index && s.index[""] == op.activityId
  }

  // One step keeps the index sound exactly unless it rebinds a turn away from the empty id.
  lemma {:induction false} IndexStaysSoundExactly(s: State, op: Op)
    requires IndexSound(s)
    ensures IndexSound(Apply(s, op)) <==> !LeavesEmptyId(s, op)
  {
    if LeavesEmptyId(s, op) {
      assert "" in Apply(s, op).index;
    }
  }

  // Over a whole run the index is sound at every point exactly when no step does that.
  lemma {:induction false} IndexSoundThroughoutExactly(ops: seq<Op>)
    ensures (forall i :: 0 <= i <= |ops| ==> IndexSound(Run(ops[..i])))
            <==> forall i :: 0 <= i < |ops| ==> !LeavesEmptyId(Run(ops[..i]), ops[i])
  {
    assert forall i {:trigger ops[..i]} :: 0 <= i < |ops| ==>
           ops[..i + 1][..i] == ops[..i] && ops[..i + 1][i] == ops[i];
    if forall i :: 0 <= i <= |ops| ==> IndexSound(Run(ops[..i])) {
      forall i | 0 <= i < |ops| ensures !LeavesEmptyId(Run(ops[..i]), ops[i]) {
        assert IndexSound(Run(ops[..i + 1]));
        IndexStaysSoundExactly(Run(ops[..i]), ops[i]);
      }
    }
    if forall i :: 0 <= i < |ops| ==> !LeavesEmptyId(Run(ops[..i]), ops[i]) {
      forall i | 0 <= i <= |ops| ensures IndexSound(Run(ops[..i])) {
        SoundUpTo(ops, i);
      }
    }
  }

  lemma {:induction false} SoundUpTo(ops: seq<Op>, i: nat)
    requires i <= |ops| && forall j :: 0 <= j < |ops| ==> !LeavesEmptyId(Run(ops[..j]), ops[j])
    ensures IndexSound(Run(ops[..i]))
  {
    if i > 0 {
      SoundUpTo(ops, i - 1);
      assert ops[..i][..i - 1] == ops[..i - 1];
      IndexStaysSoundExactly(Run(ops[..i - 1]), ops[i - 1]);
    }
  }

  // It can happen: bound to the empty id and then to another, the empty id keeps pointing there.
  lemma {:induction false} EmptyIdLeavesAStaleIndex()
    ensures !IndexSound(Run([Start("a"), Bind("a", ""), Bind("a", "c")]))
  {
    assert [Start("a"), Bind("a", ""), Bind("a", "c")][..2] == [Start("a"), Bind("a", "")];
    assert [Start("a"), Bind("a", "")][..1] == [Start("a")] && [Start("a")][..0] == [];
    var s := Run([Start("a"), Bind("a", ""), Bind("a", "c")]);
    assert s.index[""] == "a" && s.turns["a"].conversationId == Some("c");
  }

  // Every bound turn can be found through the index.
  ghost predicate BoundIsIndexed(s: State) {
    forall a :: a in s.turns && s.turns[a].conversationId.Some? ==>
      s.turns[a].conversationId.value in s.index && s.index[s.turns[a].conversationId.value] == a
  }

  // Binding keeps every bound turn findable exactly when the conversation is not another turn's.
  lemma {:induction false} BindKeepsTurnsFindableExactly(s: State, a: string, c: string)
    requires IndexSound(s) && BoundIsIndexed(s) && a in s.turns
    ensures BoundIsIndexed(Apply(s, Bind(a, c))) <==> (c in s.index ==> s.index[c] == a)
  {
    var after := Apply(s, Bind(a, c));
    if c in s.index && s.index[c] != a {
      var b := s.index[c];
      assert after.turns[b].conversationId == Some(c);
    } else {
      forall b | b in after.turns && after.turns[b].conversationId.Some?
        ensures after.turns[b].conversationId.value in after.index
                && after.index[after.turns[b].conversationId.value] == b
      {
        if b != a { assert s.turns[b].conversationId == after.turns[b].conversationId; }
      }
    }
  }

  // Two turns bound to one conversation: when the first moves on, the second is lost to the index.
  lemma {:induction false} SharedConversationLosesATurn()
    ensures var s := Run([Start("a"), Start("b"), Bind("a", "c"), Bind("b", "c"), Bind("a", "d")]);
            "b" in s.turns && s.turns["b"].conversationId == Some("c") && "c" !in s.index
  {
    var ops := [Start("a"), Start("b"), Bind("a", "c"), Bind("b", "c"), Bind("a", "d")];
    assert ops[..4][..3] == ops[..3] && ops[..3][..2] == ops[..2] && ops[..2][..1] == ops[..1] && ops[..1][..0] == [];
    assert Run(ops[..1]) == Apply(Run([]), Start("a"));
    assert Run(ops[..2]) == Apply(Run(ops[..1]), Start("b"));
    assert Run(ops[..3]) == Apply(Run(ops[..2]), Bind("a", "c"));
    assert Run(ops[..4]) == Apply(Run(ops[..3]), Bind("b", "c"));
  }
}
