// Under which identity the durable log keeps each kind of bus event, and exactly when two events
// share one.

module EventIdentities {
  import opened Options
  import opened JoinedTexts
  import opened ActivityIngestion
  import opened ToolLogMeaning

  // What an event is known by: the call and transition of a tool, the message of a message or of a
  // response, the id an interaction brings, or else its own delivery.
  datatype Identity =
    | OfTool(lifecycle: ToolLifecycle, callID: string)
    | OfMessage(messageId: string)
    | OfMessageDelivery(id: string)
    | OfResponse(messageId: string)
    | OfResponseDelivery(id: string)
    | Brought(text: string)
    | OfPresentation(id: string)
    | OfResponding(id: string)
    | OfDelivery(busType: string, id: string)

  // Lifecycles of runs, agents, change sets, verifications, plans and orchestrations.
  predicate Durable(busType: string) {
    || busType == "conversation:provider.request.started"
    || busType == "agent:started" || busType == "agent:completed"
    || busType == "changeset:created" || busType == "changeset:applied"
    || busType == "verification:started" || busType == "verification:completed"
    || busType == "plan:created" || busType == "plan:approved"
    || "orchestration." <= busType
  }

  function IdentityOf(e: BusEvent): Option<Identity> {
    match e
    case ToolUpdate(id, source, _, Some(part)) =>
      if source == "opencode-event-bridge" then None
      else
        var lifecycle := match part.status
          case Some("completed") => Succeeded
          case Some("error") => Failed
          case Some("failed") => Failed
          case _ => Called;
        Some(OfTool(lifecycle, FirstOf([part.callID, part.callId, Some(id)])))
    case HumanMessage(id, messageId, _, false) =>
      Some(if Given(messageId) then OfMessage(messageId.value) else OfMessageDelivery(id))
    case ResponseCompleted(id, messageId) =>
      Some(if Given(messageId) then OfResponse(messageId.value) else OfResponseDelivery(id))
    case Interaction(id, responded, semanticId, _) =>
      Some(if Given(semanticId) then Brought(semanticId.value)
           else if responded then OfResponding(id) else OfPresentation(id))
    case Lifecycle(id, busType, _, _) => if Durable(busType) then Some(OfDelivery(busType, id)) else None
    case _ => None
  }

  function Spelling(x: Identity): string {
    match x
    case OfTool(Called, callID) => "tool.called:" + callID
    case OfTool(Succeeded, callID) => "tool.succeeded:" + callID
    case OfTool(Failed, callID) => "tool.failed:" + callID
    case OfMessage(messageId) => "human.message:" + messageId
    case OfMessageDelivery(id) => "conversation:message.sent:" + id
    case OfResponse(messageId) => "agent.completed:" + messageId
    case OfResponseDelivery(id) => "conversation:response.completed:" + id
    case Brought(text) => text
    case OfPresentation(id) => "interaction:presented:" + id
    case OfResponding(id) => "interaction:responded:" + id
    case OfDelivery(busType, id) => Joined(busType, ':', id)
  }

  // What kind of fact an event is, and whose.
  function FactOf(e: BusEvent): (string, string) {
    match e
    case ToolUpdate(_, _, agentId, Some(part)) =>
      (match part.status
       case Some("completed") => "tool.succeeded"
       case Some("error") => "tool.failed"
       case Some("failed") => "tool.failed"
       case _ => "tool.called",
       if Given(agentId) then agentId.value else "vestara")
    case HumanMessage(_, _, userId, _) => ("human.message", userId)
    case ResponseCompleted(_, _) => ("agent.completed", "conversation-runtime")
    case Interaction(_, true, _, actorId) => ("interaction.responded", actorId)
    case Interaction(_, false, _, actorId) => ("interaction.presented", actorId)
    case Lifecycle(_, _, activityType, actorId) => (activityType, actorId)
    case _ => ("", "")
  }

  lemma ToolKept(id: string, source: string, agentId: Option<string>, part: Part)
    requires source != RAW_BRIDGE
    ensures var e := ToolUpdate(id, source, agentId, Some(part));
            && IdentityOf(e).Some?
            && Ingested(e) == Some(ActivityEvent(Spelling(IdentityOf(e).value), FactOf(e).0, FactOf(e).1))
  {
    FirstOfThree(part.callID, part.callId, id);
    FirstOfTwo(part.callId, id);
    var e := ToolUpdate(id, source, agentId, Some(part));
    assert FactOf(e).1 == AgentOf(agentId).GetOr("vestara");
    assert FactOf(e).0 == ToolType(LifecycleOf(part.status));
    var l, callID := LifecycleOf(part.status), CallIDOf(id, part);
    assert IdentityOf(e) == Some(OfTool(l, callID));
    assert ToolType(Called) + ":" == "tool.called:" && ToolType(Succeeded) + ":" == "tool.succeeded:";
    assert ToolType(Failed) + ":" == "tool.failed:";
    assert Spelling(OfTool(l, callID)) == ToolType(l) + ":" + callID;
  }

  // An event is kept under the spelling of its identity, as its own fact; one without an identity is
  // not kept.
  lemma {:induction false} KeptUnderItsIdentity(e: BusEvent)
    ensures Ingested(e) == match IdentityOf(e)
                           case Some(x) => Some(ActivityEvent(Spelling(x), FactOf(e).0, FactOf(e).1))
                           case None => None
  {
    match e
    case ToolUpdate(id, _, _, Some(part)) =>
      if e.source != RAW_BRIDGE { ToolKept(id, e.source, e.agentId, part); }
    case Lifecycle(id, busType, _, _) => assert busType + ":" + id == Joined(busType, ':', id);
    case _ =>
  }

  // ----- when two identities read the same -----

  // The same identity, two deliveries whose types and ids read the same once joined, or an interaction
  // that brings the other's very text.
  predicate ReadsAs(x: Identity, y: Identity) {
    || x == y
    || (x.OfDelivery? && y.OfDelivery? && ReadAlike(x.busType, x.id, y.busType, y.id, ':'))
    || (x.Brought? && x.text == Spelling(y))
    || (y.Brought? && y.text == Spelling(x))
  }

  function Prefix(x: Identity): string
    requires !x.Brought? && !x.OfDelivery?
  {
    match x
    case OfTool(Called, _) => "tool.called:"
    case OfTool(Succeeded, _) => "tool.succeeded:"
    case OfTool(Failed, _) => "tool.failed:"
    case OfMessage(_) => "human.message:"
    case OfMessageDelivery(_) => "conversation:message.sent:"
    case OfResponse(_) => "agent.completed:"
    case OfResponseDelivery(_) => "conversation:response.completed:"
    case OfPresentation(_) => "interaction:presented:"
    case OfResponding(_) => "interaction:responded:"
  }

  function Rest(x: Identity): string
    requires !x.Brought? && !x.OfDelivery?
  {
    match x
    case OfTool(_, callID) => callID
    case OfMessage(messageId) => messageId
    case OfResponse(messageId) => messageId
    case OfMessageDelivery(id) => id
    case OfResponseDelivery(id) => id
    case OfPresentation(id) => id
    case OfResponding(id) => id
  }

  lemma SpelledInTwo(x: Identity)
    requires !x.Brought? && !x.OfDelivery?
    ensures Spelling(x) == Prefix(x) + Rest(x)
  {}

  // Two prefixes that a text can both begin with are the same.
  lemma PrefixesDiffer(x: Identity, y: Identity)
    requires !x.Brought? && !x.OfDelivery? && !y.Brought? && !y.OfDelivery?
    requires Spelling(x) == Spelling(y)
    ensures Prefix(x) == Prefix(y) && Rest(x) == Rest(y)
  {
    SpelledInTwo(x);
    SpelledInTwo(y);
    var p, q := Prefix(x), Prefix(y);
    BeginAlike(p, Rest(x), q, Rest(y));
    hide Spelling, Rest;
    assert p[0] == q[0];
    if p[0] == 't' { assert p[5] == q[5]; }
    if p[0] == 'i' { assert p[12] == q[12]; }
    if p[0] == 'c' { assert p[13] == q[13]; }
    KeyRest(p, Rest(x), Rest(y));
  }

  lemma BeginAlike(p: string, a: string, q: string, b: string)
    requires p + a == q + b
    ensures forall i :: 0 <= i < |p| && i < |q| ==> p[i] == q[i]
  {
    assert forall i :: 0 <= i < |p| ==> (p + a)[i] == p[i];
    assert forall i :: 0 <= i < |q| ==> (q + b)[i] == q[i];
  }

  lemma KeyRest(p: string, a: string, b: string)
    ensures p + a == p + b ==> a == b
  {
    assert (p + a)[|p|..] == a && (p + b)[|p|..] == b;
  }

  lemma TypeMarks(busType: string)
    requires Durable(busType)
    ensures var t := busType + ":";
            && |t| > 5 && t[0] in {'c', 'a', 'v', 'p', 'o'}
            && (t[0] == 'a' ==> t[5] == ':')
            && (t[0] == 'c' && t[1] == 'o' ==> |t| > 13 && t[13] == 'p')
  {
    if "orchestration." <= busType { assert busType[0] == "orchestration."[0]; }
  }

  lemma PrefixMarks(x: Identity)
    requires !x.Brought? && !x.OfDelivery?
    ensures var p := Prefix(x);
            && |p| > 5 && p[0] in {'t', 'h', 'c', 'a', 'i'}
            && (p[0] == 'a' ==> p[5] == '.')
            && (p[0] == 'c' ==> |p| > 13 && p[1] == 'o' && p[13] != 'p')
  {}

  // A lifecycle type is none of the other prefixes, so what it spells begins like none of them.
  lemma DeliveriesDiffer(x: Identity, y: Identity, e: BusEvent)
    requires !x.Brought? && !x.OfDelivery? && IdentityOf(e) == Some(y) && y.OfDelivery?
    ensures Spelling(x) != Spelling(y)
  {
    SpelledInTwo(x);
    PrefixMarks(x);
    TypeMarks(y.busType);
    var p, t := Prefix(x), y.busType + ":";
    assert Spelling(y) == t + y.id;
    hide *;
    if Spelling(x) == Spelling(y) { BeginAlike(p, Rest(x), t, y.id); }
  }

  // Two ingested events share an identity exactly when theirs read the same.
  lemma {:induction false} SharedExactly(a: BusEvent, b: BusEvent)
    requires IdentityOf(a).Some? && IdentityOf(b).Some?
    ensures Ingested(a).Some? && Ingested(b).Some?
    ensures Ingested(a).value.eventId == Ingested(b).value.eventId
            <==> ReadsAs(IdentityOf(a).value, IdentityOf(b).value)
  {
    var x, y := IdentityOf(a).value, IdentityOf(b).value;
    KeptUnderItsIdentity(a);
    KeptUnderItsIdentity(b);
    hide Ingested, FactOf;
    if x.Brought? || y.Brought? {
    } else if x.OfDelivery? && y.OfDelivery? {
      SameKeyExactly(x.busType, x.id, y.busType, y.id, ':');
    } else if x.OfDelivery? {
      DeliveriesDiffer(y, x, a);
    } else if y.OfDelivery? {
      DeliveriesDiffer(x, y, b);
    } else {
      if Spelling(x) == Spelling(y) {
        PrefixesDiffer(x, y);
        SamePrefixSameIdentity(x, y);
      }
    }
  }

  lemma SamePrefixSameIdentity(x: Identity, y: Identity)
    requires !x.Brought? && !x.OfDelivery? && !y.Brought? && !y.OfDelivery?
    requires Prefix(x) == Prefix(y) && Rest(x) == Rest(y)
    ensures x == y
  {
    assert Prefix(x)[0] == Prefix(y)[0] && |Prefix(x)| == |Prefix(y)|;
  }

  // ----- replays -----

  // Some event before shares the identity.
  ghost predicate Known(before: seq<BusEvent>, e: BusEvent) {
    exists i :: 0 <= i < |before| && KnownFrom(before[i], e)
  }

  predicate KnownFrom(a: BusEvent, e: BusEvent) {
    IdentityOf(a).Some? && IdentityOf(e).Some? && ReadsAs(IdentityOf(a).value, IdentityOf(e).value)
  }

  // An event adds nothing to the log exactly when it has no identity or its identity was there before,
  // and otherwise it adds its own fact.
  lemma {:induction false} ReplayAddsNothingExactly(events: seq<BusEvent>, e: BusEvent)
    ensures Logged(events + [e])
            == if IdentityOf(e).None? || Known(events, e) then Logged(events)
               else Logged(events)
                    + [Record(|Logged(events)| + 1,
                              ActivityEvent(Spelling(IdentityOf(e).value), FactOf(e).0, FactOf(e).1))]
  {
    KeptUnderItsIdentity(e);
    assert (events + [e])[..|events|] == events;
    if IdentityOf(e).Some? {
      var id := Ingested(e).value.eventId;
      LoggedExactlyWhenNamed(events, id);
      forall i | 0 <= i < |events| ensures Names(events[i], id) <==> KnownFrom(events[i], e) {
        KeptUnderItsIdentity(events[i]);
        if IdentityOf(events[i]).Some? { SharedExactly(events[i], e); }
      }
      hide IdentityOf, Ingested, Spelling, FactOf, KnownFrom;
      assert Named(events, id) <==> Known(events, e);
    }
  }

  // Two human messages are kept as one exactly when they carry the same message id, or both carry none
  // and are one delivery.
  lemma {:induction false} MessagesSharedExactly(a: BusEvent, b: BusEvent)
    requires a.HumanMessage? && b.HumanMessage? && !a.agentAuthored && !b.agentAuthored
    ensures KnownFrom(a, b)
            <==> if Given(a.messageId) then a.messageId == b.messageId else !Given(b.messageId) && a.id == b.id
    ensures Ingested(a).Some? && Ingested(b).Some?
    ensures Ingested(a).value.eventId == Ingested(b).value.eventId <==> KnownFrom(a, b)
  {
    SharedExactly(a, b);
  }

  lemma {:induction false} ResponsesSharedExactly(a: BusEvent, b: BusEvent)
    requires a.ResponseCompleted? && b.ResponseCompleted?
    ensures KnownFrom(a, b)
            <==> if Given(a.messageId) then a.messageId == b.messageId else !Given(b.messageId) && a.id == b.id
    ensures Ingested(a).Some? && Ingested(b).Some?
    ensures Ingested(a).value.eventId == Ingested(b).value.eventId <==> KnownFrom(a, b)
  {
    SharedExactly(a, b);
  }

  // How an interaction is known when it brings no id.
  function OwnId(e: BusEvent): string
    requires e.Interaction?
  {
    (if e.responded then "interaction:responded:" else "interaction:presented:") + e.id
  }

  lemma {:induction false} InteractionsSharedExactly(a: BusEvent, b: BusEvent)
    requires a.Interaction? && b.Interaction?
    ensures KnownFrom(a, b)
            <==> if Given(a.semanticId) && Given(b.semanticId) then a.semanticId == b.semanticId
                 else if Given(a.semanticId) then a.semanticId.value == OwnId(b)
                 else if Given(b.semanticId) then b.semanticId.value == OwnId(a)
                 else a.responded == b.responded && a.id == b.id
    ensures Ingested(a).Some? && Ingested(b).Some?
    ensures Ingested(a).value.eventId == Ingested(b).value.eventId <==> KnownFrom(a, b)
  {
    SharedExactly(a, b);
  }
}
