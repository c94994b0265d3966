// What the promises handed out by the broker are resolved with, told without keys and timers, and
// what an answer from Telegram makes of them.

module BrokerStories {
  import opened Options
  import opened JoinedTexts
  import opened InteractionBroker
  import opened BrokerRuns

  // What was asked when a promise was handed out.
  datatype Request = Request(kind: WaitKind, conversationId: string, requestId: string)

  // The requests that got a promise, in order: promise w belongs to request w.
  ghost function Requests(steps: seq<Step>): seq<Request> {
    if steps == [] then []
    else
      var front, last := steps[..|steps| - 1], steps[|steps| - 1];
      Requests(front) +
      if last.Await? && Run(steps).nextWait > Run(front).nextWait
      then [Request(last.kind, last.conversationId, last.requestId)] else []
  }

  // Handed out and not resolved.
  ghost predicate Open(b: Broker, wait: nat) { wait < b.nextWait && Times(b.settled, wait) == 0 }

  // A step names a request by a conversation and a request id that read like the request's own.
  predicate About(q: Request, conversationId: string, requestId: string) {
    ReadAlike(q.conversationId, q.requestId, conversationId, requestId, ':')
  }

  // What a step resolves an open promise with, if it does: a decision with the user's words, a
  // cancellation or the promise's own timer with nothing.
  function Resolves(q: Request, wait: nat, step: Step): Option<Option<string>> {
    match step
    case Decide(kind, c, r, decision) => if kind == q.kind && About(q, c, r) then Some(Some(decision)) else None
    case CancelQuestion(c, r) => if q.kind == Question && About(q, c, r) then Some(None) else None
    case TimerFires(w) => if w == wait then Some(None) else None
    case _ => None
  }

  // An armed timer is an open promise, and carries what was asked.
  ghost predicate TimersAsked(b: Broker, requests: seq<Request>) {
    TimersCarry(b, requests) && forall w :: w in b.timers <==> Open(b, w)
  }

  ghost predicate TimersCarry(b: Broker, requests: seq<Request>) {
    && |requests| == b.nextWait
    && (forall w :: w in b.timers ==>
          w < |requests| && b.timers[w] == Timer(requests[w].kind, requests[w].conversationId, requests[w].requestId))
  }

  lemma KeysReadAlike(c: string, r: string, d: string, q: string)
    ensures Key(c, r) == Key(d, q) <==> ReadAlike(c, r, d, q, ':')
  {
    SameKeyExactly(c, r, d, q, ':');
    assert Key(c, r) == Joined(c, ':', r) && Key(d, q) == Joined(d, ':', q);
  }

  lemma RunOneMore(steps: seq<Step>, step: Step)
    ensures Run(steps + [step]) == Next(Run(steps), step)
    ensures Requests(steps + [step])
            == Requests(steps)
               + if step.Await? && Next(Run(steps), step).nextWait > Run(steps).nextWait
                 then [Request(step.kind, step.conversationId, step.requestId)] else []
  {
    assert (steps + [step])[..|steps|] == steps;
  }

  lemma OpenAreTimed(b: Broker)
    requires Inv(b)
    ensures forall w :: w in b.timers <==> Open(b, w)
  {}

  lemma {:induction false} TimersCarryWhatWasAsked(steps: seq<Step>)
    ensures TimersCarry(Run(steps), Requests(steps))
  {
    if steps != [] {
      var n := |steps| - 1;
      TimersCarryWhatWasAsked(steps[..n]);
      assert steps == steps[..n] + [steps[n]];
      RunOneMore(steps[..n], steps[n]);
      NextCarries(Run(steps[..n]), Requests(steps[..n]), steps[n]);
      hide Run, Requests, Next, TimersCarry;
    }
  }

  lemma EveryRunAsks(steps: seq<Step>)
    ensures Inv(Run(steps)) && TimersAsked(Run(steps), Requests(steps))
  {
    EveryRunKeepsInv(steps);
    OpenAreTimed(Run(steps));
    TimersCarryWhatWasAsked(steps);
    hide Run, Requests, Inv, Open, TimersCarry;
  }

  // Only an await arms a timer.
  lemma NextCarries(b: Broker, requests: seq<Request>, step: Step)
    requires TimersCarry(b, requests)
    ensures TimersCarry(Next(b, step),
                        requests + if step.Await? && Next(b, step).nextWait > b.nextWait
                                   then [Request(step.kind, step.conversationId, step.requestId)] else [])
  {}

  // An open promise of a request that reads alike.
  ghost predicate OpenAbout(steps: seq<Step>, wait: nat, conversationId: string, requestId: string) {
    && Open(Run(steps), wait) && wait < |Requests(steps)|
    && About(Requests(steps)[wait], conversationId, requestId)
  }

  // The pending entry under a key is the open promise whose request reads alike.
  lemma {:induction false} PendingIsOpen(steps: seq<Step>, c: string, r: string)
    ensures Key(c, r) in Run(steps).pending <==> exists w :: OpenAbout(steps, w, c, r)
    ensures forall w: nat :: OpenAbout(steps, w, c, r) ==>
              Key(c, r) in Run(steps).pending
              && Run(steps).pending[Key(c, r)] == Pending(Requests(steps)[w].kind, w)
  {
    EveryRunAsks(steps);
    hide Run, Requests, Open, SettledOnce, LogMatchesPending;
    var b, requests := Run(steps), Requests(steps);
    forall w: nat
      ensures OpenAbout(steps, w, c, r)
              <==> w in b.timers && Key(b.timers[w].conversationId, b.timers[w].requestId) == Key(c, r)
    {
      if w in b.timers { KeysReadAlike(requests[w].conversationId, requests[w].requestId, c, r); }
    }
    hide OpenAbout, About, Key;
    if Key(c, r) in b.pending {
      assert OpenAbout(steps, b.pending[Key(c, r)].wait, c, r);
    }
  }

  // A request is handed a promise exactly when no open one reads like it.
  lemma {:induction false} PromisedExactly(steps: seq<Step>, kind: WaitKind, c: string, r: string)
    ensures Run(steps + [Await(kind, c, r)]).nextWait
            == Run(steps).nextWait + if exists w :: OpenAbout(steps, w, c, r) then 0 else 1
  {
    PendingIsOpen(steps, c, r);
    RunOneMore(steps, Await(kind, c, r));
    hide Run;
  }

  // A decision or cancellation is accepted exactly when an open promise of its kind reads alike.
  lemma {:induction false} AcceptedExactly(steps: seq<Step>, kind: WaitKind, c: string, r: string)
    ensures Accepts(Run(steps).pending, kind, c, r)
            <==> exists w: nat :: OpenAbout(steps, w, c, r) && Requests(steps)[w].kind == kind
  {
    PendingIsOpen(steps, c, r);
    hide Run, OpenAbout, Requests;
    if Accepts(Run(steps).pending, kind, c, r) {
      var w :| OpenAbout(steps, w, c, r);
    }
  }

  // ----- what the promises are resolved with -----

  // The step resolves this open promise so.
  ghost predicate ResolvesNow(steps: seq<Step>, step: Step, wait: nat, with: Option<string>) {
    && Open(Run(steps), wait) && wait < |Requests(steps)|
    && Resolves(Requests(steps)[wait], wait, step) == Some(with)
  }

  // One step resolves what it says, and nothing else.
  ghost predicate SettledBy(steps: seq<Step>, step: Step) {
    var before, after := Run(steps).settled, Next(Run(steps), step).settled;
    && (after == before || (|after| == |before| + 1 && after[..|before|] == before))
    && (after == before ==> forall w, with :: !ResolvesNow(steps, step, w, with))
    && (after != before ==> forall w, with ::
          ResolvesNow(steps, step, w, with) <==> after[|before|] == Settlement(w, with))
  }

  lemma NamingResolves(steps: seq<Step>, step: Step, w: nat, with: Option<string>)
    requires step.Decide? || step.CancelQuestion?
    ensures ResolvesNow(steps, step, w, with)
            <==> OpenAbout(steps, w, step.conversationId, step.requestId)
                 && Requests(steps)[w].kind == (if step.Decide? then step.kind else Question)
                 && with == (if step.Decide? then Some(step.decision) else None)
  {
    hide Run, Requests, Open, About;
  }

  lemma NamingSettles(steps: seq<Step>, step: Step)
    requires step.Decide? || step.CancelQuestion?
    ensures SettledBy(steps, step)
  {
    var c, r := step.conversationId, step.requestId;
    var kind := if step.Decide? then step.kind else Question;
    var words := if step.Decide? then Some(step.decision) else None;
    PendingIsOpen(steps, c, r);
    forall w: nat, with
      ensures ResolvesNow(steps, step, w, with)
              <==> OpenAbout(steps, w, c, r) && Requests(steps)[w].kind == kind && with == words
    {
      NamingResolves(steps, step, w, with);
    }
    NextNames(Run(steps), step);
    hide Run, Requests, ResolvesNow, OpenAbout, Next, Key;
  }

  lemma NextNames(b: Broker, step: Step)
    requires step.Decide? || step.CancelQuestion?
    ensures var key := Key(step.conversationId, step.requestId);
            var kind := if step.Decide? then step.kind else Question;
            var words := if step.Decide? then Some(step.decision) else None;
            Next(b, step).settled
            == b.settled + if key in b.pending && b.pending[key].kind == kind
                           then [Settlement(b.pending[key].wait, words)] else []
  {}

  lemma TimerSettles(steps: seq<Step>, wait: nat)
    ensures SettledBy(steps, TimerFires(wait))
  {
    EveryRunAsks(steps);
    hide Run, Requests, Times, SettledOnce, LogMatchesPending;
    var b, step := Run(steps), TimerFires(wait);
    forall w, with ensures ResolvesNow(steps, step, w, with) <==> w == wait && wait in b.timers && with == None {}
    hide ResolvesNow;
  }

  lemma StepSettles(steps: seq<Step>, step: Step)
    ensures SettledBy(steps, step)
  {
    match step
    case Decide(_, _, _, _) => NamingSettles(steps, step);
    case CancelQuestion(_, _) => NamingSettles(steps, step);
    case TimerFires(wait) => TimerSettles(steps, wait);
    case _ => hide Run, Requests, Open;
  }

  // Step n resolved the promise so.
  ghost predicate ResolvedAt(steps: seq<Step>, n: int, wait: nat, with: Option<string>) {
    0 <= n < |steps| && ResolvesNow(steps[..n], steps[n], wait, with)
  }

  lemma ResolvedOneMore(steps: seq<Step>, wait: nat, with: Option<string>)
    requires steps != []
    ensures var last := |steps| - 1;
            (exists n :: ResolvedAt(steps, n, wait, with))
            <==> (exists n :: ResolvedAt(steps[..last], n, wait, with))
                 || ResolvesNow(steps[..last], steps[last], wait, with)
  {
    hide ResolvesNow;
    var last := |steps| - 1;
    var front := steps[..last];
    assert forall n :: 0 <= n < last ==> front[..n] == steps[..n];
    if n :| ResolvedAt(front, n, wait, with) { assert ResolvedAt(steps, n, wait, with); }
    if ResolvesNow(front, steps[last], wait, with) { assert ResolvedAt(steps, last, wait, with); }
    if n :| ResolvedAt(steps, n, wait, with) && n < last { assert ResolvedAt(front, n, wait, with); }
  }

  lemma SettledMembers(steps: seq<Step>, step: Step, wait: nat, with: Option<string>)
    ensures Settlement(wait, with) in Next(Run(steps), step).settled
            <==> Settlement(wait, with) in Run(steps).settled || ResolvesNow(steps, step, wait, with)
  {
    StepSettles(steps, step);
    hide Next, Run, ResolvesNow;
    var before, after := Run(steps).settled, Next(Run(steps), step).settled;
    if after != before { assert after == before + [after[|before|]]; }
  }

  // A promise is resolved with the user's words exactly when a step accepted that very decision on its
  // request, and with nothing exactly when a cancellation or its timer came while it was open.
  lemma {:induction false} ResolvedWithExactly(steps: seq<Step>, wait: nat, with: Option<string>)
    ensures Settlement(wait, with) in Run(steps).settled <==> exists n :: ResolvedAt(steps, n, wait, with)
  {
    if steps == [] {
      assert Run(steps).settled == [];
    } else {
      var last := |steps| - 1;
      ResolvedWithExactly(steps[..last], wait, with);
      SettledMembers(steps[..last], steps[last], wait, with);
      ResolvedOneMore(steps, wait, with);
      assert Run(steps) == Next(Run(steps[..last]), steps[last]);
      hide *;
    }
  }

  // ----- what is logged -----

  // What the trail says of a step: what was asked and handed a promise, what was decided, cancelled or
  // expired while open, and what policy decided.
  ghost function Logs(steps: seq<Step>, step: Step): seq<AuditEntry> {
    match step
    case Await(kind, c, r) =>
      if exists w: nat :: OpenAbout(steps, w, c, r) then [] else [AuditEntry(kind, c, r, Requested)]
    case Decide(kind, c, r, _) => if OpenOfKind(steps, kind, c, r) then [AuditEntry(kind, c, r, Decided)] else []
    case CancelQuestion(c, r) =>
      if OpenOfKind(steps, Question, c, r) then [AuditEntry(Question, c, r, Cancelled)] else []
    case TimerFires(w) =>
      if !Open(Run(steps), w) || w >= |Requests(steps)| then []
      else
        var q := Requests(steps)[w];
        [AuditEntry(q.kind, q.conversationId, q.requestId, Expired)]
    case RecordPolicy(kind, c, r, true) => [AuditEntry(kind, c, r, AutoAllow)]
    case RecordPolicy(kind, c, r, false) => [AuditEntry(kind, c, r, AutoDeny)]
  }

  ghost predicate OpenOfKind(steps: seq<Step>, kind: WaitKind, c: string, r: string) {
    exists w: nat :: OpenAbout(steps, w, c, r) && Requests(steps)[w].kind == kind
  }

  lemma NextLogs(b: Broker, step: Step)
    ensures Next(b, step).log
            == b.log + match step
                       case Await(kind, c, r) =>
                         if Key(c, r) in b.pending then [] else [AuditEntry(kind, c, r, Requested)]
                       case Decide(kind, c, r, _) =>
                         if Accepts(b.pending, kind, c, r) then [AuditEntry(kind, c, r, Decided)] else []
                       case CancelQuestion(c, r) =>
                         if Accepts(b.pending, Question, c, r) then [AuditEntry(Question, c, r, Cancelled)] else []
                       case TimerFires(w) =>
                         if w in b.timers && Key(b.timers[w].conversationId, b.timers[w].requestId) in b.pending
                         then [AuditEntry(b.timers[w].kind, b.timers[w].conversationId, b.timers[w].requestId, Expired)]
                         else []
                       case RecordPolicy(kind, c, r, true) => [AuditEntry(kind, c, r, AutoAllow)]
                       case RecordPolicy(kind, c, r, false) => [AuditEntry(kind, c, r, AutoDeny)]
  {}

  // In every run each step adds to the trail exactly that.
  lemma {:induction false} EveryStepIsLoggedAsItIs(steps: seq<Step>, step: Step)
    ensures Run(steps + [step]).log == Run(steps).log + Logs(steps, step)
  {
    RunOneMore(steps, step);
    NextLogs(Run(steps), step);
    EveryRunAsks(steps);
    match step
    case Await(_, c, r) => PendingIsOpen(steps, c, r); hide Run, Next, OpenAbout, Inv, TimersAsked;
    case Decide(kind, c, r, _) =>
      AcceptedExactly(steps, kind, c, r);
      hide Run, Next, OpenAbout, Accepts, Inv, TimersAsked;
    case CancelQuestion(c, r) =>
      AcceptedExactly(steps, Question, c, r);
      hide Run, Next, OpenAbout, Accepts, Inv, TimersAsked;
    case TimerFires(w) => hide Run, Next, Requests, Open, SettledOnce, LogMatchesPending;
    case RecordPolicy(_, _, _, _) => hide Run, Next, Inv, TimersAsked;
  }
}

module BridgeStories {
  import opened Options
  import opened JoinedTexts
  import opened OrderedMaps
  import opened InteractionBroker
  import opened TelegramBridge
  import opened BridgeRuns
  import opened BrokerStories
  import BrokerRuns

  // ----- what a handler found -----

  lemma {:induction false} InChatExactly(entries: seq<TrackedQuestion>, chatId: string, e: TrackedQuestion)
    ensures e in InChat(entries, chatId) <==> e in entries && e.chatId == chatId
  {
    if entries != [] {
      var n := |entries| - 1;
      assert entries == entries[..n] + [entries[n]];
      InChatExactly(entries[..n], chatId, e);
    }
  }

  // An entry of the ledger that could answer the reply: of its chat, live, and matching.
  ghost predicate Candidate(entries: Entries, chatId: string, now: int, matches: TrackedQuestion -> bool,
                            e: TrackedQuestion)
  {
    e in ValuesOf(entries) && e.chatId == chatId && e.expiresAt > now && matches(e)
  }

  // A typed reply answers the candidate of its own chat that expires first, and none exactly when
  // there is no candidate.
  lemma {:induction false} ReplyPicksFromItsChat(entries: Entries, chatId: string, now: int,
                                                 matches: TrackedQuestion -> bool)
    ensures match LookUpText(entries, chatId, now, matches)
            case None => forall e :: !Candidate(entries, chatId, now, matches, e)
            case Some(h) =>
              && h == Typed(h.entry, now) && Candidate(entries, chatId, now, matches, h.entry)
              && forall e :: Candidate(entries, chatId, now, matches, e) ==> h.entry.expiresAt <= e.expiresAt
  {
    var all := ValuesOf(entries);
    OldestMatchIsLive(InChat(all, chatId), now, matches);
    forall e ensures e in InChat(all, chatId) <==> e in all && e.chatId == chatId { InChatExactly(all, chatId, e); }
    hide InChat, OldestMatch, Consistent;
  }

  // The ledger files every entry under its own chat and message.
  ghost predicate FiledAsItself(entries: Entries) {
    forall k :: k in entries.vals ==> EntryKey(entries.vals[k].chatId, entries.vals[k].messageId) == k
  }

  lemma AdvanceFiles(s: System, ev: BridgeRuns.Event)
    requires FiledAsItself(s.entries)
    ensures FiledAsItself(Advance(s, ev).entries)
  {
    hide Next, StepOf, Newly, SourceOf, Consistent, EntryKey;
    match ev
    case Swept(now) => SweepMeaning(s.entries, s.entries.keys, ExpiredBy(now)); hide Sweep;
    case TextArrives(_, chatId, now, matches) => hide LookUpText;
    case _ =>
  }

  lemma {:induction false} LedgerFilesAsItself(events: seq<BridgeRuns.Event>)
    ensures FiledAsItself(BridgeRuns.Run(events).entries)
  {
    if events != [] {
      LedgerFilesAsItself(events[..|events| - 1]);
      hide Advance, FiledAsItself;
      AdvanceFiles(BridgeRuns.Run(events[..|events| - 1]), events[|events| - 1]);
    }
  }

  // A tap is about a live entry whose chat and message read like the tap's own, or about none.
  lemma {:induction false} TapFindsItsMessage(events: seq<BridgeRuns.Event>, chatId: string, messageId: string,
                                              tap: Tap, now: int)
    ensures var entries := BridgeRuns.Run(events).entries;
            match LookUpTap(entries, chatId, messageId, tap, now).1
            case Some(h) =>
              && h == Tapped(h.entry, tap, now) && h.entry.expiresAt > now && h.entry in ValuesOf(entries)
              && ReadAlike(h.entry.chatId, h.entry.messageId, chatId, messageId, ':')
            case None =>
              forall e :: e in ValuesOf(entries) && ReadAlike(e.chatId, e.messageId, chatId, messageId, ':') ==>
                e.expiresAt <= now
  {
    var entries := BridgeRuns.Run(events).entries;
    LedgerFilesAsItself(events);
    var key := EntryKey(chatId, messageId);
    forall e: TrackedQuestion ensures e in ValuesOf(entries) && ReadAlike(e.chatId, e.messageId, chatId, messageId, ':')
                     <==> key in entries.vals && entries.vals[key] == e
    {
      InValuesOf(entries, e);
      SameKeyExactly(e.chatId, e.messageId, chatId, messageId, ':');
      assert EntryKey(e.chatId, e.messageId) == Joined(e.chatId, ':', e.messageId);
      assert key == Joined(chatId, ':', messageId);
    }
    hide BridgeRuns.Run, EntryKey, ReadAlike, ValuesOf, Consistent, FiledAsItself;
  }

  // A sweep keeps exactly the entries that are still live.
  lemma {:induction false} SweepKeepsTheLive(entries: Entries, now: int, k: string)
    ensures k in Sweep(entries, entries.keys, ExpiredBy(now)).vals
            <==> k in entries.vals && entries.vals[k].expiresAt > now
  {
    SweepMeaning(entries, entries.keys, ExpiredBy(now));
  }

  // ----- what an authorized handler does -----

  // The words it answers with, or nothing for a rejection; None when it only stages or hints.
  function Answer(s: Suspended, answers: Option<string>): Option<Option<string>> {
    match (s, answers)
    case (Typed(_, _), Some(text)) => Some(Some(text))
    case (Typed(_, _), None) => Some(Some(""))
    case (Tapped(_, Reject, _), _) => Some(None)
    case (Tapped(_, Done, _), Some(text)) => Some(Some(text))
    case _ => None
  }

  lemma AskedAsAnswered(s: Suspended, answers: Option<string>)
    ensures match Answer(s, answers)
            case None => AskOf(s, answers) == NoAsk
            case Some(None) => AskOf(s, answers) == AskCancel
            case Some(Some(text)) => AskOf(s, answers) == AskDecide(text)
  {}

  // The tap selects an option the question has.
  predicate SelectsOption(s: Suspended) {
    match s
    case Tapped(e, Select(question, option), _) => question < |e.optionCounts| && option < e.optionCounts[question]
    case _ => false
  }

  // An answered entry is forgotten, a selecting tap files it with the new selections, and nothing else
  // in the ledger changes.
  lemma {:induction false} LedgerAfterAuthorized(entries: Entries, s: Suspended, answers: Option<string>,
                                                 toggled: set<(nat, nat)>, k: string)
    ensures Lookup(AfterAuthorized(entries, s, answers, toggled), k)
            == if k != EntryKey(s.entry.chatId, s.entry.messageId) then Lookup(entries, k)
               else if Answer(s, answers).Some? then None
               else if SelectsOption(s) then Some(s.entry.(selections := toggled))
               else Lookup(entries, k)
  {
    AskedAsAnswered(s, answers);
    hide AskOf, Answer, Consistent;
  }

  // What one authorized handler makes of the promises.
  lemma {:induction false} TelegramAnswerIsDelivered(events: seq<BridgeRuns.Event>, h: nat, answers: Option<string>,
                                                     toggled: set<(nat, nat)>, wait: nat, with: Option<string>)
    requires h in BridgeRuns.Run(events).handlers
    ensures var s, steps := BridgeRuns.Run(events), BrokerSteps(events);
            var e := s.handlers[h].entry;
            var after := Advance(s, BridgeRuns.Authorized(h, true, answers, toggled));
            Settlement(wait, with) in after.broker.settled
            <==> || Settlement(wait, with) in s.broker.settled
                 || (&& OpenAbout(steps, wait, e.conversationId, e.requestId)
                     && Requests(steps)[wait].kind == Question
                     && Answer(s.handlers[h], answers) == Some(with))
  {
    var s, steps := BridgeRuns.Run(events), BrokerSteps(events);
    var e := s.handlers[h].entry;
    var ev := BridgeRuns.Authorized(h, true, answers, toggled);
    BridgeRunIsABrokerRun(events);
    AdvanceAccepts(s, ev);
    AskedAsAnswered(s.handlers[h], answers);
    if AskOf(s.handlers[h], answers) != NoAsk {
      var step := StepOf(s, ev).value;
      NamingResolves(steps, step, wait, with);
      SettledMembers(steps, step, wait, with);
    }
    hide BridgeRuns.Run, BrokerSteps, BrokerRuns.Run, Requests, OpenAbout, ResolvesNow, Next, Advance, AskOf, Answer;
  }

  // The browser and the bridge's own events: only an authorized handler and a broker step resolve
  // anything.
  lemma {:induction false} NothingElseResolves(s: System, ev: BridgeRuns.Event)
    requires !ev.BrokerStep? && !(ev.Authorized? && ev.ok)
    ensures Advance(s, ev).broker == s.broker && Advance(s, ev).accepted == s.accepted
  {
    AdvanceAccepts(s, ev);
    hide Advance, Next;
  }
}
