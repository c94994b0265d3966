// From bus event to durable activity fact (m9-ingestion-bridge.ts, m9-adapter.ts), and the
// activity store that keeps one record per event identity (m9-store.ts).

module ActivityIngestion {
  import opened Options
  import opened Sequences

  // The tool part of an update, as far as it is present.
  datatype Part = Part(callID: Option<string>, callId: Option<string>, status: Option<string>)

  // `id` is the delivery id the bus gives every emission.
  datatype BusEvent =
    | ToolUpdate(id: string, source: string, agentId: Option<string>, part: Option<Part>)
    | Interaction(id: string, responded: bool, semanticId: Option<string>, actorId: string)
    | HumanMessage(id: string, messageId: Option<string>, userId: string, agentAuthored: bool)
    | ResponseCompleted(id: string, messageId: Option<string>)
    | Lifecycle(id: string, busType: string, activityType: string, actorId: string)
    | Unmapped(id: string)

  datatype ActivityEvent = ActivityEvent(eventId: string, activityType: string, actorId: string)
  datatype Record = Record(sequenceNumber: nat, event: ActivityEvent)

  const RAW_BRIDGE := "opencode-event-bridge"

  // An absent or empty text counts as missing.
  predicate Present(o: Option<string>) { o.Some? && o.value != "" }

  datatype ToolLifecycle = Called | Succeeded | Failed

  function LifecycleOf(status: Option<string>): ToolLifecycle {
    if status == Some("completed") then Succeeded
    else if status == Some("error") || status == Some("failed") then Failed
    else Called
  }

  function ToolType(l: ToolLifecycle): string {
    match l
    case Called => "tool.called"
    case Succeeded => "tool.succeeded"
    case Failed => "tool.failed"
  }

  function FromToolEvent(l: ToolLifecycle, callID: string, agentId: Option<string>): ActivityEvent {
    ActivityEvent(ToolType(l) + ":" + callID, ToolType(l), agentId.GetOr("vestara"))
  }

  // The remaining event types the bridge ingests.
  predicate IngestedType(busType: string) {
    busType in {"conversation:provider.request.started", "agent:started", "agent:completed", "changeset:created",
                "changeset:applied", "verification:started", "verification:completed", "plan:created", "plan:approved"}
    || "orchestration." <= busType
  }

  // The call an update is about: under either name of the field, or else the delivery itself.
  function CallIDOf(id: string, part: Part): string {
    if part.callID.Some? then part.callID.value else part.callId.GetOr(id)
  }

  // The agent an update names, if it names one.
  function AgentOf(agentId: Option<string>): Option<string> { if Present(agentId) then agentId else None }

  // Null for an unknown type, a part that is no tool, and the raw bridge's actor-less copies.
  function MapToActivity(e: BusEvent): Option<ActivityEvent> {
    match e
    case ToolUpdate(id, source, agentId, part) =>
      if source == RAW_BRIDGE || part.None? then None
      else Some(FromToolEvent(LifecycleOf(part.value.status), CallIDOf(id, part.value), AgentOf(agentId)))
    case Interaction(id, responded, semanticId, actorId) =>
      Some(ActivityEvent(if Present(semanticId) then semanticId.value else id,
                         if responded then "interaction.responded" else "interaction.presented", actorId))
    case HumanMessage(_, messageId, userId, _) =>
      // Without a message id the adapter makes up an id, which is replaced below.
      Some(ActivityEvent("human.message:" + messageId.GetOr(""), "human.message", userId))
    case ResponseCompleted(id, _) => Some(ActivityEvent(id, "agent.completed", "conversation-runtime"))
    case Lifecycle(id, busType, activityType, actorId) =>
      if IngestedType(busType) then Some(ActivityEvent(id, activityType, actorId)) else None
    case Unmapped(_) => None
  }

  // The identity the store deduplicates by.
  function SemanticEventId(e: BusEvent, a: ActivityEvent): string {
    match e
    case ToolUpdate(_, _, _, _) => a.eventId
    case Interaction(id, responded, semanticId, _) =>
      if Present(semanticId) then semanticId.value
      else (if responded then "interaction:responded:" else "interaction:presented:") + id
    case HumanMessage(id, messageId, _, _) =>
      if Present(messageId) then "human.message:" + messageId.value else "conversation:message.sent:" + id
    case ResponseCompleted(id, messageId) =>
      if Present(messageId) then "agent.completed:" + messageId.value else "conversation:response.completed:" + id
    case Lifecycle(id, busType, _, _) => busType + ":" + id
    case Unmapped(_) => a.eventId
  }

  // What an event adds to the store; a human message authored by an agent is skipped.
  function Ingested(e: BusEvent): Option<ActivityEvent> {
    if e.HumanMessage? && e.agentAuthored then None
    else
      var a := MapToActivity(e);
      if a.None? then None else Some(a.value.(eventId := SemanticEventId(e, a.value)))
  }

  ghost predicate Recorded(log: seq<Record>, eventId: string) {
    exists k :: 0 <= k < |log| && log[k].event.eventId == eventId
  }

  ghost function Append(log: seq<Record>, a: ActivityEvent): seq<Record> {
    if Recorded(log, a.eventId) then log else log + [Record(|log| + 1, a)]
  }

  ghost function Ingest(log: seq<Record>, e: BusEvent): seq<Record> {
    if Ingested(e).Some? then Append(log, Ingested(e).value) else log
  }

  ghost function Logged(events: seq<BusEvent>): seq<Record> {
    if events == [] then [] else Ingest(Logged(events[..|events| - 1]), events[|events| - 1])
  }

  class IdempotentActivityStore {
    var byEventId: map<string, Record>
    var records: seq<Record>
    var sequenceCounter: nat

    // The index holds exactly the records; the counter is their number.
    ghost predicate Valid()
      reads this
    {
      && sequenceCounter == |records|
      && (forall k :: 0 <= k < |records| ==>
            records[k].event.eventId in byEventId && byEventId[records[k].event.eventId] == records[k])
      && (forall id :: id in byEventId ==> Recorded(records, id))
    }

    constructor ()
      ensures Valid() && records == []
    {
      byEventId, records, sequenceCounter := map[], [], 0;
    }

    method AppendEvent(a: ActivityEvent) returns (r: Record)
      requires Valid()
      modifies this
      ensures Valid() && records == Append(old(records), a)
      ensures r in records && r.event.eventId == a.eventId
      ensures !Recorded(old(records), a.eventId) ==> r == Record(|records|, a)
    {
      if a.eventId in byEventId {
        r := byEventId[a.eventId];
        assert Recorded(records, a.eventId);
        ghost var k :| 0 <= k < |records| && records[k].event.eventId == a.eventId;
        assert byEventId[records[k].event.eventId] == records[k];
        return;
      }
      sequenceCounter := sequenceCounter + 1;
      r := Record(sequenceCounter, a);
      byEventId := byEventId[a.eventId := r];
      records := records + [r];
      assert records[|records| - 1] == r;
      forall id | id in byEventId ensures Recorded(records, id) {
        if id != a.eventId {
          ghost var k :| 0 <= k < |old(records)| && old(records)[k].event.eventId == id;
          assert records[k].event.eventId == id;
        }
      }
    }
  }

  class M9IngestionBridge {
    const store: IdempotentActivityStore

    constructor (store: IdempotentActivityStore)
      ensures this.store == store
    {
      this.store := store;
    }

    method IngestEvent(e: BusEvent)
      requires store.Valid()
      modifies store
      ensures store.Valid() && store.records == Ingest(old(store.records), e)
    {
      if e.HumanMessage? && e.agentAuthored { return; }
      var activity := MapToActivity(e);
      if activity.None? { return; }
      var deterministic := activity.value.(eventId := SemanticEventId(e, activity.value));
      var _ := store.AppendEvent(deterministic);
    }
  }
}

// What the log of any sequence of bus events holds.
module ToolLogMeaning {
  import opened Options
  import opened Sequences
  import opened ActivityIngestion
  import Turn = OpenCodeTurn
  import opened TurnRuns

  predicate Names(e: BusEvent, eventId: string) { Ingested(e).Some? && Ingested(e).value.eventId == eventId }

  ghost predicate Named(events: seq<BusEvent>, eventId: string) {
    exists i :: 0 <= i < |events| && Names(events[i], eventId)
  }

  // The events that are the first to name their identity, as activity facts.
  ghost function Firsts(events: seq<BusEvent>): seq<ActivityEvent> {
    if events == [] then []
    else
      var front, e := events[..|events| - 1], events[|events| - 1];
      Firsts(front)
      + (if Ingested(e).Some? && !Named(front, Ingested(e).value.eventId) then [Ingested(e).value] else [])
  }

  lemma NamedBySnoc(front: seq<BusEvent>, e: BusEvent, id: string)
    ensures Named(front + [e], id) <==> Named(front, id) || Names(e, id)
  {
    var events := front + [e];
    if Named(front, id) {
      var i :| 0 <= i < |front| && Names(front[i], id);
      assert Names(events[i], id);
    }
    if Names(e, id) { assert Names(events[|front|], id); }
  }

  lemma RecordedBySnoc(log: seq<Record>, r: Record, id: string)
    ensures Recorded(log + [r], id) <==> Recorded(log, id) || r.event.eventId == id
  {
    if Recorded(log, id) {
      var k :| 0 <= k < |log| && log[k].event.eventId == id;
      assert (log + [r])[k].event.eventId == id;
    }
    assert (log + [r])[|log|] == r;
  }

  // An identity is in the log exactly when some event names it.
  lemma {:induction false} LoggedExactlyWhenNamed(events: seq<BusEvent>, id: string)
    ensures Recorded(Logged(events), id) <==> Named(events, id)
  {
    if events != [] {
      var front, e := events[..|events| - 1], events[|events| - 1];
      assert events == front + [e];
      NamedBySnoc(front, e, id);
      LoggedExactlyWhenNamed(front, id);
      if Ingested(e).Some? {
        LoggedExactlyWhenNamed(front, Ingested(e).value.eventId);
        RecordedBySnoc(Logged(front), Record(|Logged(front)| + 1, Ingested(e).value), id);
      }
    }
  }

  // The log is the first fact of every identity, in order, numbered from one, and no identity twice.
  lemma {:induction false} LogIsTheFirstOfEachIdentity(events: seq<BusEvent>)
    ensures |Logged(events)| == |Firsts(events)|
    ensures forall k :: 0 <= k < |Logged(events)| ==> Logged(events)[k] == Record(k + 1, Firsts(events)[k])
    ensures forall j, k :: 0 <= j < k < |Logged(events)| ==>
            Logged(events)[j].event.eventId != Logged(events)[k].event.eventId
  {
    if events != [] {
      var front, e := events[..|events| - 1], events[|events| - 1];
      LogIsTheFirstOfEachIdentity(front);
      if Ingested(e).Some? {
        LoggedExactlyWhenNamed(front, Ingested(e).value.eventId);
      }
    }
  }

  // ----- replays and raw copies -----

  // A raw or unmapped copy, or a repetition of an identity that came before.
  ghost predicate Redundant(before: seq<BusEvent>, e: BusEvent) {
    Ingested(e).None? || Named(before, Ingested(e).value.eventId)
  }

  // `padded` is `events` with redundant events put in anywhere.
  ghost predicate Padded(events: seq<BusEvent>, padded: seq<BusEvent>)
    decreases |padded|
  {
    if padded == [] then events == []
    else
      var front, e := padded[..|padded| - 1], padded[|padded| - 1];
      || (Redundant(front, e) && Padded(events, front))
      || (events != [] && events[|events| - 1] == e && Padded(events[..|events| - 1], front))
  }

  // Replays and interleaved raw copies leave the whole log as it is.
  lemma {:induction false} PaddingLeavesTheLog(events: seq<BusEvent>, padded: seq<BusEvent>)
    requires Padded(events, padded)
    ensures Logged(padded) == Logged(events)
    decreases |padded|
  {
    if padded != [] {
      var front, e := padded[..|padded| - 1], padded[|padded| - 1];
      if Redundant(front, e) && Padded(events, front) {
        PaddingLeavesTheLog(events, front);
        if Ingested(e).Some? { LoggedExactlyWhenNamed(front, Ingested(e).value.eventId); }
      } else {
        PaddingLeavesTheLog(events[..|events| - 1], front);
      }
    }
  }

  // An event takes nothing into the log exactly when it is redundant.
  lemma {:induction false} AddsNothingExactly(events: seq<BusEvent>, e: BusEvent)
    ensures Logged(events + [e]) == Logged(events) <==> Redundant(events, e)
  {
    assert (events + [e])[..|events|] == events;
    if Ingested(e).Some? { LoggedExactlyWhenNamed(events, Ingested(e).value.eventId); }
  }

  predicate IsToolFact(e: BusEvent) { e.ToolUpdate? && e.source != RAW_BRIDGE && e.part.Some? }

  // The same transition of the same call, however the two updates spell them.
  predicate SameFact(a: BusEvent, b: BusEvent) {
    && IsToolFact(a) && IsToolFact(b)
    && LifecycleOf(a.part.value.status) == LifecycleOf(b.part.value.status)
    && CallIDOf(a.id, a.part.value) == CallIDOf(b.id, b.part.value)
  }

  // A copy from the raw bridge is redundant anywhere. One tool update makes another redundant exactly
  // when both are about the same transition of the same call.
  lemma {:induction false} CopiesAreRedundant(before: seq<BusEvent>, e: BusEvent, i: nat)
    requires e.ToolUpdate?
    ensures e.source == RAW_BRIDGE ==> Redundant(before, e)
    ensures i < |before| && SameFact(before[i], e) ==> Redundant(before, e)
    ensures i < |before| && IsToolFact(before[i]) && IsToolFact(e) ==>
              (Names(before[i], Ingested(e).value.eventId) <==> SameFact(before[i], e))
  {
    if i < |before| && IsToolFact(before[i]) && IsToolFact(e) {
      var a := before[i];
      ToolIdsDiffer(LifecycleOf(a.part.value.status), CallIDOf(a.id, a.part.value),
                    LifecycleOf(e.part.value.status), CallIDOf(e.id, e.part.value));
    }
  }

  // A record carries the actor its namers agree on, whatever else was delivered.
  lemma {:induction false} ActorIsTheNamers(events: seq<BusEvent>, k: nat, actor: string)
    requires k < |Logged(events)|
    requires forall i :: 0 <= i < |events| && Names(events[i], Logged(events)[k].event.eventId) ==>
                           Ingested(events[i]).value.actorId == actor
    ensures Logged(events)[k].event.actorId == actor
  {
    var front, e := events[..|events| - 1], events[|events| - 1];
    if k < |Logged(front)| {
      assert Logged(events)[k] == Logged(front)[k];
      forall i | 0 <= i < |front| && Names(front[i], Logged(front)[k].event.eventId)
        ensures Ingested(front[i]).value.actorId == actor
      {
        assert events[i] == front[i];
      }
      ActorIsTheNamers(front, k, actor);
    } else {
      assert Names(events[|events| - 1], Logged(events)[k].event.eventId);
    }
  }

  // ----- tool facts -----

  function ToolId(l: ToolLifecycle, callID: string): string { ToolType(l) + ":" + callID }

  // Tool facts of different transitions or calls have different identities.
  lemma {:induction false} ToolIdsDiffer(l: ToolLifecycle, c: string, l': ToolLifecycle, c': string)
    ensures ToolId(l, c) == ToolId(l', c') <==> l == l' && c == c'
  {
    var p, q := ToolType(l) + ":", ToolType(l') + ":";
    if ToolId(l, c) == ToolId(l', c') {
      assert ToolId(l, c)[5] == p[5] && ToolId(l', c')[5] == q[5];
      assert l == l';
      assert c == ToolId(l, c)[|p|..] && c' == ToolId(l', c')[|q|..];
    }
  }

  // The bus event a turn's mirror emits.
  function MirrorEvent(id: string, agent: string, m: Turn.Mirror): BusEvent {
    var status := match m.status
      case ToolRunning => "running"
      case ToolCompleted => "completed"
      case ToolFailed => "error";
    ToolUpdate(id, "assistant-opencode-adapter", Some(agent), Some(Part(Some(m.callID), None, Some(status))))
  }

  function MirrorLifecycle(m: Turn.Mirror): ToolLifecycle {
    match m.status
    case ToolRunning => Called
    case ToolCompleted => Succeeded
    case ToolFailed => Failed
  }

  // The actor a tool fact carries for a named agent; an empty name counts as none.
  function ActorOf(agent: string): string { AgentOf(Some(agent)).GetOr("vestara") }

  lemma MirrorNamesItsFact(id: string, agent: string, m: Turn.Mirror)
    ensures Ingested(MirrorEvent(id, agent, m))
            == Some(FromToolEvent(MirrorLifecycle(m), m.callID, Some(ActorOf(agent))))
    ensures Names(MirrorEvent(id, agent, m), ToolId(MirrorLifecycle(m), m.callID))
  {}

  // The bus delivered every mirror of a turn, among anything else and in any order.
  ghost predicate Delivered(mirrors: seq<Turn.Mirror>, agent: string, events: seq<BusEvent>) {
    forall k :: 0 <= k < |mirrors| ==> Carries(events, agent, mirrors[k])
  }

  ghost predicate Carries(events: seq<BusEvent>, agent: string, m: Turn.Mirror) {
    exists i :: 0 <= i < |events| && events[i] == MirrorEvent(events[i].id, agent, m)
  }

  lemma DeliveredIsLogged(mirrors: seq<Turn.Mirror>, agent: string, events: seq<BusEvent>, k: nat)
    requires Delivered(mirrors, agent, events) && k < |mirrors|
    ensures Recorded(Logged(events), ToolId(MirrorLifecycle(mirrors[k]), mirrors[k].callID))
  {
    assert Carries(events, agent, mirrors[k]);
    var i :| 0 <= i < |events| && events[i] == MirrorEvent(events[i].id, agent, mirrors[k]);
    MirrorNamesItsFact(events[i].id, agent, mirrors[k]);
    assert Named(events, ToolId(MirrorLifecycle(mirrors[k]), mirrors[k].callID));
    LoggedExactlyWhenNamed(events, ToolId(MirrorLifecycle(mirrors[k]), mirrors[k].callID));
  }

  // How many records carry an identity.
  function Copies(log: seq<Record>, id: string): nat {
    if log == [] then 0
    else Copies(log[..|log| - 1], id) + (if log[|log| - 1].event.eventId == id then 1 else 0)
  }

  lemma {:induction false} CopiesCount(log: seq<Record>, id: string)
    requires forall j, k :: 0 <= j < k < |log| ==> log[j].event.eventId != log[k].event.eventId
    ensures Copies(log, id) == if Recorded(log, id) then 1 else 0
  {
    if log != [] {
      var front := log[..|log| - 1];
      CopiesCount(front, id);
      assert log == front + [log[|log| - 1]];
      RecordedBySnoc(front, log[|log| - 1], id);
      if Recorded(front, id) {
        var k :| 0 <= k < |front| && front[k].event.eventId == id;
        assert log[k].event.eventId == id;
      }
    }
  }

  lemma SettledCallIsLogged(mirrors: seq<Turn.Mirror>, agent: string, events: seq<BusEvent>, k: nat)
    requires Delivered(mirrors, agent, events)
    requires k < |mirrors| && mirrors[k].status.ToolRunning? && SettledLater(mirrors, k)
    ensures var c, log := mirrors[k].callID, Logged(events);
            && Copies(log, ToolId(Called, c)) == 1
            && Copies(log, ToolId(Succeeded, c)) + Copies(log, ToolId(Failed, c)) >= 1
  {
    var j :| k < j < |mirrors| && mirrors[j].callID == mirrors[k].callID && !mirrors[j].status.ToolRunning?;
    hide Logged, Names, Ingested, Delivered, Copies, Recorded;
    DeliveredIsLogged(mirrors, agent, events, k);
    DeliveredIsLogged(mirrors, agent, events, j);
    LogIsTheFirstOfEachIdentity(events);
    CopiesCount(Logged(events), ToolId(Called, mirrors[k].callID));
    CopiesCount(Logged(events), ToolId(MirrorLifecycle(mirrors[j]), mirrors[k].callID));
  }

  // ----- facts, not just identities -----

  // How many records hold exactly this fact: its identity, its type and its actor.
  function Facts(log: seq<Record>, a: ActivityEvent): nat {
    if log == [] then 0 else Facts(log[..|log| - 1], a) + (if log[|log| - 1].event == a then 1 else 0)
  }

  ghost predicate Holds(log: seq<Record>, a: ActivityEvent) { exists k :: 0 <= k < |log| && log[k].event == a }

  lemma HoldsBySnoc(log: seq<Record>, r: Record, a: ActivityEvent)
    ensures Holds(log + [r], a) <==> Holds(log, a) || r.event == a
  {
    if Holds(log, a) {
      var k :| 0 <= k < |log| && log[k].event == a;
      assert (log + [r])[k].event == a;
    }
    assert (log + [r])[|log|] == r;
  }

  lemma {:induction false} FactsCount(log: seq<Record>, a: ActivityEvent)
    requires forall j, k :: 0 <= j < k < |log| ==> log[j].event.eventId != log[k].event.eventId
    ensures Facts(log, a) == if Holds(log, a) then 1 else 0
  {
    if log != [] {
      var front := log[..|log| - 1];
      FactsCount(front, a);
      assert log == front + [log[|log| - 1]];
      HoldsBySnoc(front, log[|log| - 1], a);
    }
  }

  // Event i is the first to name this identity, and names it as this fact.
  ghost predicate FirstNames(events: seq<BusEvent>, i: int, a: ActivityEvent) {
    && 0 <= i < |events| && Ingested(events[i]) == Some(a)
    && forall j :: 0 <= j < i ==> !Names(events[j], a.eventId)
  }

  // A fact is in the log exactly when it is how its identity was named first.
  lemma {:induction false} HeldExactlyWhenNamedFirst(events: seq<BusEvent>, a: ActivityEvent)
    ensures Holds(Logged(events), a) <==> exists i :: FirstNames(events, i, a)
  {
    hide Ingested;
    if events != [] {
      var n := |events| - 1;
      var front, e := events[..n], events[n];
      HeldExactlyWhenNamedFirst(front, a);
      LoggedExactlyWhenNamed(front, a.eventId);
      forall i | i < n ensures FirstNames(events, i, a) <==> FirstNames(front, i, a) {}
      if Ingested(e).Some? { HoldsBySnoc(Logged(front), Record(|Logged(front)| + 1, Ingested(e).value), a); }
      assert FirstNames(events, n, a) <==> Ingested(e) == Some(a) && !Named(front, a.eventId);
    }
  }

  predicate IsUpdateBy(e: BusEvent, agent: string) { e.ToolUpdate? && AgentOf(e.agentId).GetOr("vestara") == agent }

  // Nothing but a tool update is ingested as a tool fact, and it names its own agent.
  lemma OnlyUpdatesBecomeToolFacts(e: BusEvent, l: ToolLifecycle, c: string, agent: string)
    ensures Ingested(e) == Some(FromToolEvent(l, c, Some(agent))) <==> Names(e, ToolId(l, c)) && IsUpdateBy(e, agent)
  {
    assert ToolId(l, c)[0] == 't';
    match e
    case ToolUpdate(id, source, agentId, part) =>
      if IsToolFact(e) { ToolIdsDiffer(LifecycleOf(part.value.status), CallIDOf(id, part.value), l, c); }
    case Lifecycle(id, busType, _, _) =>
      if IngestedType(busType) { assert (busType + ":" + id)[0] == busType[0] != 't'; }
    case _ =>
  }

  // The first event that names the transition of the call is a tool update of the agent.
  ghost predicate UpdateNamesFirst(events: seq<BusEvent>, l: ToolLifecycle, c: string, agent: string) {
    exists i :: 0 <= i < |events| && Names(events[i], ToolId(l, c)) && IsUpdateBy(events[i], agent)
                && forall j :: 0 <= j < i ==> !Names(events[j], ToolId(l, c))
  }

  // The log holds the agent's fact of a transition once, or not at all, exactly according to that.
  lemma {:induction false} ToolFactHeldExactly(events: seq<BusEvent>, l: ToolLifecycle, c: string, agent: string)
    ensures Facts(Logged(events), FromToolEvent(l, c, Some(agent)))
            == if UpdateNamesFirst(events, l, c, agent) then 1 else 0
  {
    var a := FromToolEvent(l, c, Some(agent));
    HeldExactlyWhenNamedFirst(events, a);
    LogIsTheFirstOfEachIdentity(events);
    FactsCount(Logged(events), a);
    forall i | 0 <= i < |events|
      ensures Ingested(events[i]) == Some(a) <==> Names(events[i], ToolId(l, c)) && IsUpdateBy(events[i], agent)
    {
      OnlyUpdatesBecomeToolFacts(events[i], l, c, agent);
    }
    hide Logged, Names, Ingested, IsUpdateBy, Facts;
    if i :| FirstNames(events, i, a) { assert UpdateNamesFirst(events, l, c, agent); }
    if UpdateNamesFirst(events, l, c, agent) {
      var i :| 0 <= i < |events| && Names(events[i], ToolId(l, c)) && IsUpdateBy(events[i], agent)
               && forall j :: 0 <= j < i ==> !Names(events[j], ToolId(l, c));
      assert FirstNames(events, i, a);
    }
  }

  // Nobody but the agent's tool updates names the call's transitions.
  ghost predicate OnlyTheAgentNames(events: seq<BusEvent>, c: string, agent: string) {
    forall i, l :: 0 <= i < |events| && Names(events[i], ToolId(l, c)) ==> IsUpdateBy(events[i], agent)
  }

  lemma {:induction false} SomeEventIsFirst(events: seq<BusEvent>, id: string) returns (i: nat)
    requires Named(events, id)
    ensures i < |events| && Names(events[i], id) && forall j :: 0 <= j < i ==> !Names(events[j], id)
  {
    var n := |events| - 1;
    if Named(events[..n], id) {
      i := SomeEventIsFirst(events[..n], id);
      assert forall j :: 0 <= j <= i ==> events[..n][j] == events[j];
    } else {
      i := n;
      assert forall j :: 0 <= j < n ==> events[..n][j] == events[j];
    }
  }

  lemma OwnNamesComeFirst(events: seq<BusEvent>, l: ToolLifecycle, c: string, agent: string)
    requires OnlyTheAgentNames(events, c, agent) && Recorded(Logged(events), ToolId(l, c))
    ensures UpdateNamesFirst(events, l, c, agent)
  {
    LoggedExactlyWhenNamed(events, ToolId(l, c));
    var i := SomeEventIsFirst(events, ToolId(l, c));
  }

  // For a call mirrored as running and settled later: the agent's called fact is in the log exactly
  // when the first event naming it is the agent's, and so is a terminal fact; both are there, the
  // called one once, when only the agent's updates name the call.
  lemma SettledCallHasFacts(mirrors: seq<Turn.Mirror>, agent: string, events: seq<BusEvent>, k: nat)
    requires Delivered(mirrors, agent, events)
    requires k < |mirrors| && mirrors[k].status.ToolRunning? && SettledLater(mirrors, k)
    ensures ToolFactsMatch(events, mirrors[k].callID, ActorOf(agent))
  {
    var c := mirrors[k].callID;
    var j :| k < j < |mirrors| && mirrors[j].callID == c && !mirrors[j].status.ToolRunning?;
    DeliveredIsLogged(mirrors, agent, events, k);
    DeliveredIsLogged(mirrors, agent, events, j);
    hide Logged, Delivered, Recorded, ToolFactsMatch, ToolId;
    RecordedCallHasFacts(events, c, ActorOf(agent));
  }

  lemma RecordedCallHasFacts(events: seq<BusEvent>, c: string, agent: string)
    requires Recorded(Logged(events), ToolId(Called, c))
    requires Recorded(Logged(events), ToolId(Succeeded, c)) || Recorded(Logged(events), ToolId(Failed, c))
    ensures ToolFactsMatch(events, c, agent)
  {
    ToolFactHeldExactly(events, Called, c, agent);
    ToolFactHeldExactly(events, Succeeded, c, agent);
    ToolFactHeldExactly(events, Failed, c, agent);
    hide Logged, Facts, Recorded, FromToolEvent, UpdateNamesFirst, OnlyTheAgentNames, ToolId;
    if OnlyTheAgentNames(events, c, agent) {
      OwnNamesComeFirst(events, Called, c, agent);
      if Recorded(Logged(events), ToolId(Succeeded, c)) { OwnNamesComeFirst(events, Succeeded, c, agent); }
      if Recorded(Logged(events), ToolId(Failed, c)) { OwnNamesComeFirst(events, Failed, c, agent); }
    }
  }

  ghost predicate ToolFactsMatch(events: seq<BusEvent>, c: string, agent: string) {
    var log := Logged(events);
    var called := Facts(log, FromToolEvent(Called, c, Some(agent)));
    var ended := Facts(log, FromToolEvent(Succeeded, c, Some(agent)))
                 + Facts(log, FromToolEvent(Failed, c, Some(agent)));
    && (called == 1 <==> UpdateNamesFirst(events, Called, c, agent)) && called <= 1
    && (ended >= 1 <==> UpdateNamesFirst(events, Succeeded, c, agent) || UpdateNamesFirst(events, Failed, c, agent))
    && (OnlyTheAgentNames(events, c, agent) ==> called == 1 && ended >= 1)
  }

  // It happens: an interaction under the fact's identity, delivered first, keeps the fact out.
  lemma {:induction false} InteractionStandsIn(id: string, actor: string, agent: string, m: Turn.Mirror)
    requires m.status.ToolRunning?
    ensures var events := [Interaction(id, false, Some(ToolId(Called, m.callID)), actor), MirrorEvent(id, agent, m)];
            && Copies(Logged(events), ToolId(Called, m.callID)) == 1
            && Facts(Logged(events), FromToolEvent(Called, m.callID, Some(agent))) == 0
  {
    var c := m.callID;
    var events := [Interaction(id, false, Some(ToolId(Called, c)), actor), MirrorEvent(id, agent, m)];
    ToolFactHeldExactly(events, Called, c, agent);
    LogIsTheFirstOfEachIdentity(events);
    CopiesCount(Logged(events), ToolId(Called, c));
    LoggedExactlyWhenNamed(events, ToolId(Called, c));
    hide Logged, Facts, Copies;
    assert Names(events[0], ToolId(Called, c));
  }

  // After a turn that aborted, for every call the turn mirrored as running, the durable log holds one
  // record under the called identity and at least one under a terminal one, whatever else the bus
  // delivered and however often; these are the turn's facts exactly when its updates came first.
  lemma {:induction false} AbortedTurnLeavesSettledToolFacts(limits: Turn.Limits, steps: seq<Turn.Step>, agent: string,
                                                             events: seq<BusEvent>, k: nat)
    requires !limits.suggestionOnly && Run(limits, steps).aborts == 1
    requires Delivered(Run(limits, steps).mirrors, agent, events)
    requires k < |Run(limits, steps).mirrors| && Run(limits, steps).mirrors[k].status.ToolRunning?
    ensures var c, log := Run(limits, steps).mirrors[k].callID, Logged(events);
            && Copies(log, ToolId(Called, c)) == 1
            && Copies(log, ToolId(Succeeded, c)) + Copies(log, ToolId(Failed, c)) >= 1
    ensures ToolFactsMatch(events, Run(limits, steps).mirrors[k].callID, ActorOf(agent))
  {
    AbortClosesEveryCall(limits, steps, k);
    hide *;
    SettledCallIsLogged(Run(limits, steps).mirrors, agent, events, k);
    SettledCallHasFacts(Run(limits, steps).mirrors, agent, events, k);
  }
}
