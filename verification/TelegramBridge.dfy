// Questions answered from Telegram (telegram-question-bridge.ts): a correlation ledger and the two
// dispatchers, each of which awaits an authorization check between looking an entry up and acting.

module TelegramBridge {
  import opened Options
  import opened OrderedMaps
  import opened InteractionBroker

  datatype TrackedQuestion = TrackedQuestion(chatId: string, messageId: string, conversationId: string,
                                             requestId: string, optionCounts: seq<nat>,
                                             selections: set<(nat, nat)>, expiresAt: int)

  type Entries = OrderedMap<string, TrackedQuestion>

  function EntryKey(chatId: string, messageId: string): string { chatId + ":" + messageId }

  function TrackIn(entries: Entries, e: TrackedQuestion): Entries { Put(entries, EntryKey(e.chatId, e.messageId), e) }

  function InChat(entries: seq<TrackedQuestion>, chatId: string): seq<TrackedQuestion> {
    if entries == [] then []
    else
      var last := entries[|entries| - 1];
      InChat(entries[..|entries| - 1], chatId) + if last.chatId == chatId then [last] else []
  }

  function ExpiredBy(now: int): (string, TrackedQuestion) -> bool {
    (k: string, e: TrackedQuestion) => e.expiresAt <= now
  }

  class TelegramQuestionLedger {
    var entries: Entries

    constructor ()
      ensures entries == Empty()
    {
      entries := Empty();
    }

    method Track(entry: TrackedQuestion)
      modifies this
      ensures entries == TrackIn(old(entries), entry)
    {
      entries := Put(entries, EntryKey(entry.chatId, entry.messageId), entry);
    }

    method Get(chatId: string, messageId: string) returns (entry: Option<TrackedQuestion>)
      ensures entry == Lookup(entries, EntryKey(chatId, messageId))
    {
      entry := Lookup(entries, EntryKey(chatId, messageId));
    }

    // Expired entries are listed too.
    method ListByChat(chatId: string) returns (found: seq<TrackedQuestion>)
      ensures found == InChat(ValuesOf(entries), chatId)
    {
      found := [];
      var all := ValuesOf(entries);
      for i := 0 to |all|
        invariant found == InChat(all[..i], chatId)
      {
        assert all[..i + 1][..i] == all[..i];
        if all[i].chatId == chatId { found := found + [all[i]]; }
      }
      assert all[..|all|] == all;
    }

    method Remove(chatId: string, messageId: string)
      modifies this
      ensures entries == OrderedMaps.Remove(old(entries), EntryKey(chatId, messageId))
    {
      entries := OrderedMaps.Remove(entries, EntryKey(chatId, messageId));
    }

    method SweepExpired(now: int)
      modifies this
      ensures entries == Sweep(old(entries), old(entries).keys, ExpiredBy(now))
    {
      entries := DeleteWhere(entries, ExpiredBy(now));
    }
  }

  // ----- the stretches of the two dispatchers -----

  datatype Tap = Custom | Reject | Done | Select(questionIndex: nat, optionIndex: nat)

  // A handler suspended on the authorization check, holding the entry it looked up.
  datatype Suspended =
    | Tapped(entry: TrackedQuestion, tap: Tap, lookedUpAt: int)
    | Typed(entry: TrackedQuestion, lookedUpAt: int)

  // Looking up a tap: a missing or expired entry ends the handler and drops the entry.
  function LookUpTap(entries: Entries, chatId: string, messageId: string, tap: Tap, now: int)
    : (Entries, Option<Suspended>)
  {
    match Lookup(entries, EntryKey(chatId, messageId))
    case None => (entries, None)
    case Some(e) =>
      if e.expiresAt <= now then (OrderedMaps.Remove(entries, EntryKey(chatId, messageId)), None)
      else (entries, Some(Tapped(e, tap, now)))
  }

  // Among live entries whose question the text answers, the one that expires first.
  function OldestMatch(entries: seq<TrackedQuestion>, now: int, matches: TrackedQuestion -> bool)
    : Option<TrackedQuestion>
  {
    if entries == [] then None
    else
      var last, front := entries[|entries| - 1], OldestMatch(entries[..|entries| - 1], now, matches);
      if last.expiresAt <= now || !matches(last) then front
      else if front.Some? && front.value.expiresAt <= last.expiresAt then front
      else Some(last)
  }

  function LookUpText(entries: Entries, chatId: string, now: int, matches: TrackedQuestion -> bool): Option<Suspended> {
    match OldestMatch(InChat(ValuesOf(entries), chatId), now, matches)
    case None => None
    case Some(e) => Some(Typed(e, now))
  }

  // What an authorized handler asks of the broker, if anything.
  datatype Ask = NoAsk | AskCancel | AskDecide(answers: string)

  // `answers` is what the staged selections (or the typed text) amount to: None when nothing is picked.
  function AskOf(s: Suspended, answers: Option<string>): Ask {
    match s
    case Typed(_, _) => AskDecide(answers.GetOr(""))
    case Tapped(_, Reject, _) => AskCancel
    case Tapped(_, Done, _) => if answers.Some? then AskDecide(answers.value) else NoAsk
    case Tapped(_, _, _) => NoAsk
  }

  function AfterAuthorized(entries: Entries, s: Suspended, answers: Option<string>, toggled: set<(nat, nat)>): Entries {
    var e := s.entry;
    if AskOf(s, answers) != NoAsk then OrderedMaps.Remove(entries, EntryKey(e.chatId, e.messageId))
    else if s.Tapped? && s.tap.Select? && s.tap.questionIndex < |e.optionCounts|
            && s.tap.optionIndex < e.optionCounts[s.tap.questionIndex] then TrackIn(entries, e.(selections := toggled))
    else entries
  }

  ghost function AskBroker(b: Broker, e: TrackedQuestion, ask: Ask): Broker {
    match ask
    case NoAsk => b
    case AskCancel => Next(b, CancelQuestion(e.conversationId, e.requestId))
    case AskDecide(answers) => Next(b, Decide(Question, e.conversationId, e.requestId, answers))
  }

  class QuestionDispatch {
    const ledger: TelegramQuestionLedger
    const broker: AssistantInteractionBroker

    constructor (ledger: TelegramQuestionLedger, broker: AssistantInteractionBroker)
      ensures this.ledger == ledger && this.broker == broker
    {
      this.ledger, this.broker := ledger, broker;
    }

    // Up to the authorization check of a tap.
    method TapArrives(chatId: string, messageId: string, tap: Tap, now: int) returns (handler: Option<Suspended>)
      modifies ledger
      ensures (ledger.entries, handler) == LookUpTap(old(ledger.entries), chatId, messageId, tap, now)
    {
      var entry := ledger.Get(chatId, messageId);
      if entry == None || entry.value.expiresAt <= now {
        if entry.Some? { ledger.Remove(chatId, messageId); }
        return None;
      }
      handler := Some(Tapped(entry.value, tap, now));
    }

    // Up to the authorization check of a typed reply.
    method TextArrives(chatId: string, now: int, matches: TrackedQuestion -> bool) returns (handler: Option<Suspended>)
      ensures handler == LookUpText(ledger.entries, chatId, now, matches)
    {
      var inChat := ledger.ListByChat(chatId);
      var oldest: Option<TrackedQuestion> := None;
      for i := 0 to |inChat|
        invariant oldest == OldestMatch(inChat[..i], now, matches)
      {
        assert inChat[..i + 1][..i] == inChat[..i];
        if inChat[i].expiresAt > now && matches(inChat[i]) {
          if oldest == None || oldest.value.expiresAt > inChat[i].expiresAt { oldest := Some(inChat[i]); }
        }
      }
      assert inChat[..|inChat|] == inChat;
      handler := if oldest.Some? then Some(Typed(oldest.value, now)) else None;
    }

    // From the authorization check on. Nothing happens to an unauthorized sender's handler.
    method Authorized(s: Suspended, ok: bool, answers: Option<string>, toggled: set<(nat, nat)>)
      modifies ledger, broker
      ensures ledger.entries
              == if ok then AfterAuthorized(old(ledger.entries), s, answers, toggled) else old(ledger.entries)
      ensures broker.View()
              == if ok then AskBroker(old(broker.View()), s.entry, AskOf(s, answers)) else old(broker.View())
    {
      if !ok { return; }
      var e := s.entry;
      match AskOf(s, answers) {
        case AskCancel =>
          ledger.Remove(e.chatId, e.messageId);
          var _ := broker.Cancel(e.conversationId, e.requestId);
        case AskDecide(text) =>
          ledger.Remove(e.chatId, e.messageId);
          var _ := broker.DecideWait(Question, e.conversationId, e.requestId, text);
        case NoAsk =>
          if s.Tapped? && s.tap.Select? {
            if s.tap.questionIndex < |e.optionCounts| && s.tap.optionIndex < e.optionCounts[s.tap.questionIndex] {
              ledger.Track(e.(selections := toggled));
            }
          }
      }
    }
  }
}

// All interleavings of taps, typed replies, browser answers, timers and new questions.
module BridgeRuns {
  import opened Options
  import opened OrderedMaps
  import opened InteractionBroker
  import BrokerRuns
  import opened TelegramBridge

  datatype Source = FromTelegram | FromBrowser | FromTimer
  // A call into the broker made by a Telegram handler.
  datatype Call = Call(entry: TrackedQuestion, lookedUpAt: int)
  // An accepted resolution: which promise, and who resolved it.
  datatype Resolution = Resolution(wait: nat, source: Source)

  datatype System = System(broker: Broker, entries: Entries, handlers: map<nat, Suspended>,
                           calls: seq<Call>, accepted: seq<Resolution>)

  datatype Event =
    | Forwarded(entry: TrackedQuestion)
    | Swept(now: int)
    | TapArrives(handler: nat, chatId: string, messageId: string, tap: Tap, now: int)
    | TextArrives(handler: nat, chatId: string, now: int, matches: TrackedQuestion -> bool)
    | Authorized(handler: nat, ok: bool, answers: Option<string>, toggled: set<(nat, nat)>)
    | BrokerStep(step: Step)

  ghost const START := System(NEW, Empty(), map[], [], [])

  // The broker step an event amounts to, if any.
  ghost function StepOf(s: System, ev: Event): Option<Step> {
    match ev
    case BrokerStep(step) => Some(step)
    case Authorized(h, ok, answers, _) =>
      if h !in s.handlers || !ok then None
      else
        var e := s.handlers[h].entry;
        (match AskOf(s.handlers[h], answers)
         case NoAsk => None
         case AskCancel => Some(CancelQuestion(e.conversationId, e.requestId))
         case AskDecide(text) => Some(Decide(Question, e.conversationId, e.requestId, text)))
    case _ => None
  }

  ghost function SourceOf(ev: Event): Source {
    match ev
    case BrokerStep(TimerFires(_)) => FromTimer
    case BrokerStep(_) => FromBrowser
    case _ => FromTelegram
  }

  // The promises resolved by going from one broker state to the next.
  ghost function Newly(before: Broker, after: Broker, source: Source): seq<Resolution> {
    if |after.settled| == |before.settled| + 1 then [Resolution(after.settled[|before.settled|].wait, source)] else []
  }

  ghost function Suspend(handlers: map<nat, Suspended>, h: nat, s: Option<Suspended>): map<nat, Suspended> {
    if s.Some? then handlers[h := s.value] else handlers - {h}
  }

  ghost function Advance(s: System, ev: Event): System {
    var broker := if StepOf(s, ev).Some? then Next(s.broker, StepOf(s, ev).value) else s.broker;
    var t := s.(broker := broker, accepted := s.accepted + Newly(s.broker, broker, SourceOf(ev)));
    match ev
    case Forwarded(entry) => t.(entries := TrackIn(s.entries, entry))
    case Swept(now) => t.(entries := Sweep(s.entries, s.entries.keys, ExpiredBy(now)))
    case TapArrives(h, chatId, messageId, tap, now) =>
      if h in s.handlers then t
      else
        var (entries, handler) := LookUpTap(s.entries, chatId, messageId, tap, now);
        t.(entries := entries, handlers := Suspend(s.handlers, h, handler))
    case TextArrives(h, chatId, now, matches) =>
      if h in s.handlers then t
      else t.(handlers := Suspend(s.handlers, h, LookUpText(s.entries, chatId, now, matches)))
    case Authorized(h, ok, answers, toggled) =>
      if h !in s.handlers then t
      else
        var done := t.(handlers := s.handlers - {h});
        if !ok then done
        else
          var handler := s.handlers[h];
          done.(entries := AfterAuthorized(s.entries, handler, answers, toggled),
                calls := if AskOf(handler, answers) == NoAsk then s.calls
                         else s.calls + [Call(handler.entry, handler.lookedUpAt)])
    case BrokerStep(_) => t
  }

  ghost function Run(events: seq<Event>): System {
    if events == [] then START else Advance(Run(events[..|events| - 1]), events[|events| - 1])
  }

  // The broker steps of a run, in order.
  ghost function BrokerSteps(events: seq<Event>): seq<Step> {
    if events == [] then []
    else
      var n := |events| - 1;
      var step := StepOf(Run(events[..n]), events[n]);
      BrokerSteps(events[..n]) + if step.Some? then [step.value] else []
  }

  // The broker inside the bridge goes through an ordinary broker run, so everything proved of
  // broker runs holds here.
  lemma {:induction false} BridgeRunIsABrokerRun(events: seq<Event>)
    ensures Run(events).broker == BrokerRuns.Run(BrokerSteps(events))
  {
    hide Next, AfterAuthorized, LookUpTap, LookUpText;
    if events != [] {
      var n := |events| - 1;
      BridgeRunIsABrokerRun(events[..n]);
      var step := StepOf(Run(events[..n]), events[n]);
      if step.Some? {
        assert (BrokerSteps(events[..n]) + [step.value])[..|BrokerSteps(events[..n])|] == BrokerSteps(events[..n]);
      } else {
        assert BrokerSteps(events) == BrokerSteps(events[..n]);
      }
    }
  }

  ghost predicate AcceptedMatchesSettled(s: System) {
    |s.accepted| == |s.broker.settled|
    && forall i :: 0 <= i < |s.accepted| ==> s.accepted[i].wait == s.broker.settled[i].wait
  }

  lemma SettledGrowsByAtMostOne(b: Broker, step: Step)
    ensures var after := Next(b, step);
            after.settled == b.settled || exists s :: after.settled == b.settled + [s]
  {}

  // What an event does to the broker and the accepted resolutions, whatever it does besides.
  lemma AdvanceAccepts(s: System, ev: Event)
    ensures var broker := if StepOf(s, ev).Some? then Next(s.broker, StepOf(s, ev).value) else s.broker;
            Advance(s, ev).broker == broker
            && Advance(s, ev).accepted == s.accepted + Newly(s.broker, broker, SourceOf(ev))
  {
    hide Next, AfterAuthorized, LookUpTap, LookUpText, StepOf, Newly, SourceOf;
  }

  lemma NewlyMatches(s: System, after: Broker, source: Source)
    requires AcceptedMatchesSettled(s)
    requires after.settled == s.broker.settled || exists x :: after.settled == s.broker.settled + [x]
    ensures AcceptedMatchesSettled(s.(broker := after, accepted := s.accepted + Newly(s.broker, after, source)))
  {}

  lemma AdvanceKeepsMatch(s: System, ev: Event)
    requires AcceptedMatchesSettled(s)
    ensures AcceptedMatchesSettled(Advance(s, ev))
  {
    var step := StepOf(s, ev);
    var broker := if step.Some? then Next(s.broker, step.value) else s.broker;
    AdvanceAccepts(s, ev);
    if step.Some? { SettledGrowsByAtMostOne(s.broker, step.value); }
    hide Next, Advance, StepOf, Newly, SourceOf;
    NewlyMatches(s, broker, SourceOf(ev));
  }

  lemma {:induction false} AcceptedAreTheSettlements(events: seq<Event>)
    ensures AcceptedMatchesSettled(Run(events))
  {
    if events == [] {
      assert START.broker.settled == [];
    } else {
      AcceptedAreTheSettlements(events[..|events| - 1]);
      AdvanceKeepsMatch(Run(events[..|events| - 1]), events[|events| - 1]);
      hide Advance, AcceptedMatchesSettled;
    }
  }

  lemma {:induction false} TwiceResolved(settled: seq<Settlement>, i: int, j: int)
    requires 0 <= i < j < |settled| && settled[i].wait == settled[j].wait
    ensures BrokerRuns.Times(settled, settled[i].wait) >= 2
  {
    var n := |settled| - 1;
    if j < n {
      TwiceResolved(settled[..n], i, j);
    } else {
      OnceResolved(settled[..n], i);
    }
  }

  lemma {:induction false} OnceResolved(settled: seq<Settlement>, i: int)
    requires 0 <= i < |settled|
    ensures BrokerRuns.Times(settled, settled[i].wait) >= 1
  {
    if i < |settled| - 1 { OnceResolved(settled[..|settled| - 1], i); }
  }

  // Across button taps, typed replies, browser answers, cancellations and timeouts, no pending
  // question is ever resolved by two accepted resolutions.
  lemma {:induction false} AtMostOneAcceptedResolution(events: seq<Event>, i: int, j: int)
    requires 0 <= i < j < |Run(events).accepted|
    ensures Run(events).accepted[i].wait != Run(events).accepted[j].wait
  {
    var s := Run(events);
    AcceptedAreTheSettlements(events);
    BridgeRunIsABrokerRun(events);
    BrokerRuns.EveryWaitResolvedExactlyOnce(BrokerSteps(events), s.accepted[i].wait);
    if s.accepted[i].wait == s.accepted[j].wait { TwiceResolved(s.broker.settled, i, j); }
  }

  // ----- expired entries -----

  ghost predicate LiveWhenLookedUp(s: System) {
    && (forall h :: h in s.handlers ==> s.handlers[h].entry.expiresAt > s.handlers[h].lookedUpAt)
    && (forall i :: 0 <= i < |s.calls| ==> s.calls[i].entry.expiresAt > s.calls[i].lookedUpAt)
  }

  lemma {:induction false} OldestMatchIsLive(entries: seq<TrackedQuestion>, now: int, matches: TrackedQuestion -> bool)
    ensures var oldest := OldestMatch(entries, now, matches);
            oldest.Some? ==>
              (oldest.value in entries && oldest.value.expiresAt > now && matches(oldest.value)
               && forall e :: e in entries && e.expiresAt > now && matches(e) ==> oldest.value.expiresAt <= e.expiresAt)
    ensures OldestMatch(entries, now, matches) == None ==>
              forall e :: e in entries && e.expiresAt > now ==> !matches(e)
  {
    if entries != [] {
      var n := |entries| - 1;
      OldestMatchIsLive(entries[..n], now, matches);
      assert entries == entries[..n] + [entries[n]];
    }
  }

  lemma LookedUpLive(entries: Entries, chatId: string, messageId: string, tap: Tap, now: int,
                     matches: TrackedQuestion -> bool)
    ensures var h := LookUpTap(entries, chatId, messageId, tap, now).1;
            h.Some? ==> h.value.entry.expiresAt > h.value.lookedUpAt
    ensures var h := LookUpText(entries, chatId, now, matches);
            h.Some? ==> h.value.entry.expiresAt > h.value.lookedUpAt
  {
    OldestMatchIsLive(InChat(ValuesOf(entries), chatId), now, matches);
  }

  lemma AdvanceKeepsLive(s: System, ev: Event)
    requires LiveWhenLookedUp(s)
    ensures LiveWhenLookedUp(Advance(s, ev))
  {
    hide Next, LookUpTap, LookUpText, AfterAuthorized;
    match ev {
      case TapArrives(_, chatId, messageId, tap, now) =>
        LookedUpLive(s.entries, chatId, messageId, tap, now, e => true);
      case TextArrives(_, chatId, now, matches) => LookedUpLive(s.entries, chatId, "", Custom, now, matches);
      case _ =>
    }
  }

  // No handler ever asks the broker about an entry that was already expired when it looked it up.
  lemma {:induction false} NoCallOnAnExpiredEntry(events: seq<Event>)
    ensures LiveWhenLookedUp(Run(events))
  {
    if events != [] {
      NoCallOnAnExpiredEntry(events[..|events| - 1]);
      AdvanceKeepsLive(Run(events[..|events| - 1]), events[|events| - 1]);
    }
  }

  // ----- a late 'select' -----

  // A select tap suspended on its authorization while another tap answers the question.
  ghost function BothSuspended(e: TrackedQuestion): seq<Event> {
    [BrokerStep(Await(Question, e.conversationId, e.requestId)), Forwarded(e),
     TapArrives(0, e.chatId, e.messageId, Select(0, 0), e.expiresAt - 1),
     TapArrives(1, e.chatId, e.messageId, Done, e.expiresAt - 1)]
  }

  lemma RunOneMore(events: seq<Event>, ev: Event)
    ensures Run(events + [ev]) == Advance(Run(events), ev)
  {
    assert (events + [ev])[..|events|] == events;
  }

  lemma EmptyRun()
    ensures Run([]) == START
  {}

  lemma QuestionIsForwarded(e: TrackedQuestion)
    ensures var s := Run(BothSuspended(e)[..2]);
            && s.broker == Next(NEW, Await(Question, e.conversationId, e.requestId))
            && s.entries == TrackIn(Empty(), e) && s.handlers == map[] && s.accepted == []
  {
    hide Run, Consistent;
    var evs := BothSuspended(e);
    EmptyRun();
    RunOneMore([], evs[0]);
    RunOneMore([evs[0]], evs[1]);
    assert evs[..2] == [evs[0]] + [evs[1]] && [] + [evs[0]] == [evs[0]];
  }

  lemma BothAreSuspended(e: TrackedQuestion)
    ensures var s := Run(BothSuspended(e));
            && s.broker == Next(NEW, Await(Question, e.conversationId, e.requestId))
            && s.entries == TrackIn(Empty(), e) && s.accepted == []
            && s.handlers == map[0 := Tapped(e, Select(0, 0), e.expiresAt - 1), 1 := Tapped(e, Done, e.expiresAt - 1)]
  {
    hide Run, Consistent, Next;
    var evs := BothSuspended(e);
    QuestionIsForwarded(e);
    RunOneMore(evs[..2], evs[2]);
    assert evs[..2] + [evs[2]] == evs[..3];
    RunOneMore(evs[..3], evs[3]);
    assert evs[..3] + [evs[3]] == evs;
  }

  // The late select puts the entry back although its question is answered; whatever a later tap on
  // that entry asks of the broker is refused.
  lemma {:induction false} LateSelectLeavesADeadEntry(e: TrackedQuestion, text: string, ask: Ask)
    requires |e.optionCounts| > 0 && e.optionCounts[0] > 0
    ensures var s := Run(BothSuspended(e) + [Authorized(1, true, Some(text), {})]
                         + [Authorized(0, true, None, {(0, 0)})]);
            && EntryKey(e.chatId, e.messageId) in s.entries.vals
            && |s.accepted| == 1
            && AskBroker(s.broker, e, ask) == s.broker
  {
    hide Run, Consistent;
    var evs := BothSuspended(e);
    BothAreSuspended(e);
    RunOneMore(evs, Authorized(1, true, Some(text), {}));
    RunOneMore(evs + [Authorized(1, true, Some(text), {})], Authorized(0, true, None, {(0, 0)}));
    var s5 := Run(evs + [Authorized(1, true, Some(text), {})]);
    assert s5.broker.pending == map[];
    assert s5.handlers == map[0 := Tapped(e, Select(0, 0), e.expiresAt - 1)];
  }
}
