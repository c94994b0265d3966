// The conversation session registry (assistant-conversation-sessions.ts). Each stretch of an
// acquisition between two awaits is one atomic step; a step that is not enabled changes nothing.

module ConversationSessions {
  import opened Options

  datatype Session = Session(sessionId: string, repositoryDir: string)
  datatype Input = Input(conversationId: string, repositoryDir: string, preferredSessionId: Option<string>)
  datatype Outcome = Acquired(session: Session, created: bool) | RepositoryMismatch | CreateFailed

  // Where a stretch of doAcquire stops: at an awaited call, or at its end.
  datatype Pause = Verifying | Creating | Finished(outcome: Outcome)

  datatype Entry = WaitOn(holder: nat) | Entered(pause: Pause)

  predicate Adopts(input: Input) { input.preferredSessionId.Some? && input.preferredSessionId.value != "" }

  // The first stretch: reuse or refuse an existing binding, else probe the preferred session, else create.
  function FirstStretch(bindings: map<string, Session>, input: Input): Pause {
    if input.conversationId in bindings then
      var existing := bindings[input.conversationId];
      Finished(if existing.repositoryDir != input.repositoryDir then RepositoryMismatch else Acquired(existing, false))
    else if Adopts(input) then Verifying
    else Creating
  }

  // What a later stretch leaves: the bindings, and where it stops.
  datatype Stretch = Stretch(bindings: map<string, Session>, pause: Pause)

  // A preferred session that is alive is adopted without looking at the binding again.
  function ProbedStretch(bindings: map<string, Session>, input: Input, alive: bool): Stretch
    requires Adopts(input)
  {
    if !alive then Stretch(bindings, Creating)
    else
      var adopted := Session(input.preferredSessionId.value, input.repositoryDir);
      Stretch(bindings[input.conversationId := adopted], Finished(Acquired(adopted, false)))
  }

  function CreatedStretch(bindings: map<string, Session>, input: Input, sessionId: string): Stretch {
    var created := Session(sessionId, input.repositoryDir);
    Stretch(bindings[input.conversationId := created], Finished(Acquired(created, true)))
  }

  class AssistantConversationSessionRegistry {
    var byConversation: map<string, Session>
    // Single-flight locks: the acquisition holding each conversation.
    var locks: map<string, nat>

    constructor ()
      ensures byConversation == map[] && locks == map[]
    {
      byConversation, locks := map[], map[];
    }

    method Get(conversationId: string) returns (r: Option<Session>)
      ensures r == if conversationId in byConversation then Some(byConversation[conversationId]) else None
    {
      r := if conversationId in byConversation then Some(byConversation[conversationId]) else None;
    }

    method Set(conversationId: string, session: Session)
      modifies `byConversation
      ensures byConversation == old(byConversation)[conversationId := session]
    {
      byConversation := byConversation[conversationId := session];
    }

    // Queue behind the lock holder, or take the lock and run up to the first await.
    method Acquire(input: Input, self: nat) returns (entry: Entry)
      modifies `locks
      ensures input.conversationId in old(locks) ==>
              entry == WaitOn(old(locks)[input.conversationId]) && locks == old(locks)
      ensures input.conversationId !in old(locks) ==>
                entry == Entered(FirstStretch(byConversation, input))
                    && locks == old(locks)[input.conversationId := self]
    {
      if input.conversationId in locks { return WaitOn(locks[input.conversationId]); }
      locks := locks[input.conversationId := self];
      var pause := DoAcquire(input);
      entry := Entered(pause);
    }

    method DoAcquire(input: Input) returns (pause: Pause)
      ensures pause == FirstStretch(byConversation, input)
    {
      if input.conversationId in byConversation {
        var existing := byConversation[input.conversationId];
        if existing.repositoryDir != input.repositoryDir { return Finished(RepositoryMismatch); }
        return Finished(Acquired(existing, false));
      }
      pause := if Adopts(input) then Verifying else Creating;
    }

    method AfterVerification(input: Input, alive: bool) returns (pause: Pause)
      requires Adopts(input)
      modifies `byConversation
      ensures Stretch(byConversation, pause) == ProbedStretch(old(byConversation), input, alive)
    {
      if !alive { return Creating; }
      var adopted := Session(input.preferredSessionId.value, input.repositoryDir);
      byConversation := byConversation[input.conversationId := adopted];
      pause := Finished(Acquired(adopted, false));
    }

    method AfterCreation(input: Input, sessionId: string) returns (pause: Pause)
      modifies `byConversation
      ensures Stretch(byConversation, pause) == CreatedStretch(old(byConversation), input, sessionId)
    {
      var created := Session(sessionId, input.repositoryDir);
      byConversation := byConversation[input.conversationId := created];
      pause := Finished(Acquired(created, true));
    }

    method Release(conversationId: string)
      modifies `locks
      ensures locks == old(locks) - {conversationId}
    {
      locks := locks - {conversationId};
    }
  }
}

// Every interleaving of acquisitions, their awaited calls and outside settings.
module SessionRuns {
  import opened Options
  import opened ConversationSessions

  datatype Pc = Waiting(holder: nat) | Probing | Opening | Returning(outcome: Outcome) | Done(outcome: Outcome)

  datatype Call = Call(input: Input, locked: bool, pc: Pc)

  // `created` lists the conversation of every createSession call made so far.
  datatype State = State(bindings: map<string, Session>, locks: map<string, nat>, calls: seq<Call>,
                         created: seq<string>)

  datatype Event =
    | Begin(input: Input)
    | Wake(call: nat)
    | Verified(call: nat, alive: bool)
    | Created(call: nat, sessionId: string)
    | CreateFails(call: nat)
    | ReleaseLock(call: nat)
    | SetBinding(conversationId: string, session: Session)

  const START := State(map[], map[], [], [])

  // The lock holder settles one step before it releases the lock.
  function PcAfter(pause: Pause, locked: bool): Pc {
    match pause
    case Verifying => Probing
    case Creating => Opening
    case Finished(outcome) => if locked then Returning(outcome) else Done(outcome)
  }

  function Resume(s: State, i: nat, pause: Pause): State
    requires i < |s.calls|
  {
    s.(calls := s.calls[i := s.calls[i].(pc := PcAfter(pause, s.calls[i].locked))],
       created := if pause.Creating? then s.created + [s.calls[i].input.conversationId] else s.created)
  }

  predicate Enabled(s: State, e: Event) {
    match e
    case Begin(_) => true
    case Wake(i) => i < |s.calls| && s.calls[i].pc.Waiting? && s.calls[i].pc.holder < |s.calls|
                    && s.calls[s.calls[i].pc.holder].pc.Done?
    case Verified(i, _) => i < |s.calls| && s.calls[i].pc.Probing? && Adopts(s.calls[i].input)
    case Created(i, _) => i < |s.calls| && s.calls[i].pc.Opening?
    case CreateFails(i) => i < |s.calls| && s.calls[i].pc.Opening?
    case ReleaseLock(i) => i < |s.calls| && s.calls[i].pc.Returning?
    case SetBinding(_, _) => true
  }

  function Next(s: State, e: Event): State {
    if !Enabled(s, e) then s else
    match e
    case Begin(input) =>
      var c, n := input.conversationId, |s.calls|;
      if c in s.locks then s.(calls := s.calls + [Call(input, false, Waiting(s.locks[c]))])
      else Resume(s.(locks := s.locks[c := n], calls := s.calls + [Call(input, true, Waiting(n))]), n,
                  FirstStretch(s.bindings, input))
    case Wake(i) => Resume(s, i, FirstStretch(s.bindings, s.calls[i].input))
    case Verified(i, alive) =>
      var stretch := ProbedStretch(s.bindings, s.calls[i].input, alive);
      Resume(s.(bindings := stretch.bindings), i, stretch.pause)
    case Created(i, id) =>
      var stretch := CreatedStretch(s.bindings, s.calls[i].input, id);
      Resume(s.(bindings := stretch.bindings), i, stretch.pause)
    case CreateFails(i) => Resume(s, i, Finished(CreateFailed))
    case ReleaseLock(i) =>
      s.(locks := s.locks - {s.calls[i].input.conversationId},
         calls := s.calls[i := s.calls[i].(pc := Done(s.calls[i].pc.outcome))])
    case SetBinding(c, session) => s.(bindings := s.bindings[c := session])
  }

  ghost function Run(events: seq<Event>): State {
    if events == [] then START else Next(Run(events[..|events| - 1]), events[|events| - 1])
  }

  function Count(created: seq<string>, c: string): nat {
    if created == [] then 0 else Count(created[..|created| - 1], c) + (if created[|created| - 1] == c then 1 else 0)
  }

  predicate About(s: State, i: int, c: string) { 0 <= i < |s.calls| && s.calls[i].input.conversationId == c }

  predicate Working(s: State, i: int, c: string) {
    About(s, i, c) && (s.calls[i].pc.Probing? || s.calls[i].pc.Opening?)
  }

  predicate Settled(pc: Pc) { pc.Returning? || pc.Done? }

  predicate InFlight(s: State, c: string) {
    exists i :: 0 <= i < |s.calls| && s.calls[i].input.conversationId == c && !s.calls[i].pc.Done?
  }

  // ----- what holds in every run -----

  // The lock table names only holders that have not released yet.
  ghost predicate LocksNameHolders(s: State) {
    forall c :: c in s.locks ==>
      About(s, s.locks[c], c) && s.calls[s.locks[c]].locked && !s.calls[s.locks[c]].pc.Done?
  }

  // Every such holder is in the table; only holders settle before they are done.
  ghost predicate HoldersAreLocked(s: State) {
    forall i :: 0 <= i < |s.calls| ==>
      if s.calls[i].locked then
        && !s.calls[i].pc.Waiting?
        && (!s.calls[i].pc.Done? ==> s.calls[i].input.conversationId in s.locks
                                     && s.locks[s.calls[i].input.conversationId] == i)
      else !s.calls[i].pc.Returning?
  }

  // A waiter waits for an earlier holder of its own conversation.
  ghost predicate WaitersMatch(s: State) {
    forall i :: 0 <= i < |s.calls| && s.calls[i].pc.Waiting? ==>
      s.calls[i].pc.holder < i && s.calls[s.calls[i].pc.holder].locked
      && About(s, s.calls[i].pc.holder, s.calls[i].input.conversationId)
  }

  ghost predicate ProbersAdopt(s: State) {
    forall i :: 0 <= i < |s.calls| && s.calls[i].pc.Probing? ==> Adopts(s.calls[i].input)
  }

  ghost predicate LocksMatch(s: State) {
    LocksNameHolders(s) && HoldersAreLocked(s) && WaitersMatch(s) && ProbersAdopt(s)
  }

  // An acquisition that ended without a failed create left its conversation bound.
  ghost predicate EndsBound(s: State) {
    forall i :: 0 <= i < |s.calls| && Settled(s.calls[i].pc) && s.calls[i].pc.outcome != CreateFailed ==>
      s.calls[i].input.conversationId in s.bindings
  }

  // A step only extends the list of calls, and moves the program counter of at most one.
  lemma CallsPersist(s: State, e: Event, i: nat)
    requires i < |s.calls|
    ensures i < |Next(s, e).calls| && Next(s, e).calls[i].(pc := s.calls[i].pc) == s.calls[i]
    ensures s.calls[i].pc.Done? ==> Next(s, e).calls[i] == s.calls[i]
  {
    hide FirstStretch;
  }

  lemma StepKeepsLockNames(s: State, e: Event)
    requires LocksMatch(s)
    ensures LocksNameHolders(Next(s, e))
  {
    hide FirstStretch;
  }

  lemma StepKeepsHolders(s: State, e: Event)
    requires LocksMatch(s)
    ensures HoldersAreLocked(Next(s, e))
  {
    hide FirstStretch;
  }

  // Whoever waits after a step waited before it, or has just queued behind a lock.
  lemma WaitersQueue(s: State, e: Event, i: nat)
    requires i < |Next(s, e).calls| && Next(s, e).calls[i].pc.Waiting?
    ensures i < |s.calls| ==> s.calls[i] == Next(s, e).calls[i]
    ensures i >= |s.calls| ==> i == |s.calls| && var c := Next(s, e).calls[i].input.conversationId;
                               c in s.locks && s.locks[c] == Next(s, e).calls[i].pc.holder
  {}

  lemma StepKeepsWaiters(s: State, e: Event)
    requires LocksNameHolders(s) && WaitersMatch(s)
    ensures WaitersMatch(Next(s, e))
  {
    hide Next;
    forall i | 0 <= i < |Next(s, e).calls| && Next(s, e).calls[i].pc.Waiting?
      ensures Next(s, e).calls[i].pc.holder < i && Next(s, e).calls[Next(s, e).calls[i].pc.holder].locked
      ensures About(Next(s, e), Next(s, e).calls[i].pc.holder, Next(s, e).calls[i].input.conversationId)
    {
      WaitersQueue(s, e, i);
      CallsPersist(s, e, Next(s, e).calls[i].pc.holder);
    }
  }

  lemma StepKeepsProbers(s: State, e: Event)
    requires ProbersAdopt(s)
    ensures ProbersAdopt(Next(s, e))
  {}

  lemma StepKeepsLocks(s: State, e: Event)
    requires LocksMatch(s)
    ensures LocksMatch(Next(s, e))
  {
    hide Next, LocksNameHolders, HoldersAreLocked, WaitersMatch, ProbersAdopt;
    StepKeepsProbers(s, e);
    StepKeepsLockNames(s, e);
    StepKeepsHolders(s, e);
    StepKeepsWaiters(s, e);
  }

  lemma StepKeepsEndsBound(s: State, e: Event)
    requires EndsBound(s)
    ensures EndsBound(Next(s, e))
  {}

  lemma {:induction false} EveryRunKeepsLocks(events: seq<Event>)
    ensures LocksMatch(Run(events)) && EndsBound(Run(events))
  {
    if events != [] {
      EveryRunKeepsLocks(events[..|events| - 1]);
      hide LocksMatch, EndsBound, Next;
      StepKeepsLocks(Run(events[..|events| - 1]), events[|events| - 1]);
      StepKeepsEndsBound(Run(events[..|events| - 1]), events[|events| - 1]);
    } else {
      assert LocksMatch(START) && EndsBound(START);
    }
  }

  // In every run, no waiter is stranded: it can go on, or the holder it waits for is at a step
  // that a reply or the release of the lock completes.
  lemma {:induction false} NoWaiterIsStranded(events: seq<Event>, i: nat)
    ensures var s := Run(events);
            i < |s.calls| && s.calls[i].pc.Waiting? ==>
              Enabled(s, Wake(i))
              || (exists b :: Enabled(s, Verified(s.calls[i].pc.holder, b)))
              || Enabled(s, CreateFails(s.calls[i].pc.holder))
              || Enabled(s, ReleaseLock(s.calls[i].pc.holder))
  {
    EveryRunKeepsLocks(events);
    var s := Run(events);
    if i < |s.calls| && s.calls[i].pc.Waiting? {
      var h := s.calls[i].pc.holder;
      assert s.calls[h].locked;
      if s.calls[h].pc.Probing? { assert Enabled(s, Verified(h, true)); }
    }
  }

  // In every run, a woken waiter runs on its own, outside the lock, exactly when the conversation
  // is still unbound, and then the holder's createSession failed.
  lemma {:induction false} WaiterRunsAloneExactly(events: seq<Event>, i: nat)
    requires Enabled(Run(events), Wake(i))
    ensures var s := Run(events);
            var c := s.calls[i].input.conversationId;
            var after := Next(s, Wake(i)).calls[i].pc;
            && (after.Probing? || after.Opening? <==> c !in s.bindings)
            && (c !in s.bindings ==> s.calls[s.calls[i].pc.holder].pc == Done(CreateFailed))
  {
    EveryRunKeepsLocks(events);
  }

  // ----- single flight -----

  // What the single create for a conversation rests on: none of its createSession calls fails.
  predicate CreatesStep(s: State, e: Event, c: string) {
    e.CreateFails? && Enabled(s, e) ==> s.calls[e.call].input.conversationId != c
  }

  ghost predicate NoCreateFails(events: seq<Event>, c: string) {
    events == []
    || (NoCreateFails(events[..|events| - 1], c) && CreatesStep(Run(events[..|events| - 1]), events[|events| - 1], c))
  }

  // For everything that is said about the binding over time: besides, `set` is never called for the
  // conversation while somebody is acquiring it.
  predicate CalmStep(s: State, e: Event, c: string) {
    && CreatesStep(s, e, c)
    && (e.SetBinding? && e.conversationId == c ==> !InFlight(s, c))
  }

  ghost predicate Calm(events: seq<Event>, c: string) {
    events == []
    || (Calm(events[..|events| - 1], c) && CalmStep(Run(events[..|events| - 1]), events[|events| - 1], c))
  }

  // For everything that is said about the present binding: `set` never replaces the session of a
  // bound conversation by another.
  predicate LoyalStep(s: State, e: Event, c: string) {
    e.SetBinding? && e.conversationId == c && c in s.bindings ==> e.session == s.bindings[c]
  }

  ghost predicate Loyal(events: seq<Event>, c: string) {
    events == []
    || (Loyal(events[..|events| - 1], c) && LoyalStep(Run(events[..|events| - 1]), events[|events| - 1], c))
  }

  // Only the holder works, only while the conversation is unbound, and nobody else finishes before
  // it is bound.
  ghost predicate OneFlight(s: State, c: string) {
    && (forall i :: Working(s, i, c) ==> s.calls[i].locked && c !in s.bindings)
    && (forall i :: About(s, i, c) && Settled(s.calls[i].pc) ==> c in s.bindings)
  }

  // The answer a caller gets from a conversation bound to a session.
  predicate Answered(call: Call, session: Session)
    requires Settled(call.pc)
  {
    if call.input.repositoryDir == session.repositoryDir
    then call.pc.outcome.Acquired? && call.pc.outcome.session == session
    else call.pc.outcome == RepositoryMismatch
  }

  // Everyone who has finished got the answer of the present binding.
  ghost predicate AllAnswered(s: State, c: string) {
    forall i :: About(s, i, c) && Settled(s.calls[i].pc) ==> c in s.bindings && Answered(s.calls[i], s.bindings[c])
  }

  // Without a failed create only the holder works, and nobody finishes before the conversation is bound.
  ghost predicate HoldersWork(s: State, c: string) {
    && (forall i :: Working(s, i, c) ==> s.calls[i].locked)
    && (forall i :: About(s, i, c) && Settled(s.calls[i].pc) ==> c in s.bindings)
  }

  // Nobody has finished while somebody is still at work.
  ghost predicate WorkComesFirst(s: State, c: string) {
    forall i, j :: Working(s, i, c) && About(s, j, c) ==> !Settled(s.calls[j].pc)
  }

  predicate At(s: State, i: int, c: string, pc: Pc) { About(s, i, c) && s.calls[i].pc == pc }

  // At most one createSession; none while the holder still probes, and none unless somebody is at it
  // or the conversation is bound.
  ghost predicate CreatedOnce(s: State, c: string) {
    && Count(s.created, c) <= 1
    && (forall i :: At(s, i, c, Probing) ==> Count(s.created, c) == 0)
    && (c !in s.bindings && (forall i :: !At(s, i, c, Opening)) ==> Count(s.created, c) == 0)
  }

  // Whoever is at work on a conversation holds its lock, so there is only one.
  lemma OnlyOneWorks(s: State, i: int, c: string)
    requires LocksMatch(s) && OneFlight(s, c) && Working(s, i, c)
    ensures c in s.locks && s.locks[c] == i && c !in s.bindings
  {
    hide LocksNameHolders, WaitersMatch;
  }

  // The call a step moves, if it moves one.
  function Moved(e: Event): int {
    match e
    case Begin(_) => -1
    case SetBinding(_, _) => -1
    case Wake(i) => i
    case Verified(i, _) => i
    case Created(i, _) => i
    case CreateFails(i) => i
    case ReleaseLock(i) => i
  }

  // A step changes the session of a bound conversation exactly when it sets another one, or binds what
  // a probe or a create has come back with, and that is another one.
  lemma {:induction false} BindingChangesExactly(s: State, e: Event, c: string)
    requires c in s.bindings
    ensures c in Next(s, e).bindings
    ensures Next(s, e).bindings[c] != s.bindings[c] <==>
              || (e.SetBinding? && e.conversationId == c && e.session != s.bindings[c])
              || (e.Verified? && Enabled(s, e) && e.alive && s.calls[e.call].input.conversationId == c
                  && Session(s.calls[e.call].input.preferredSessionId.value, s.calls[e.call].input.repositoryDir)
                     != s.bindings[c])
              || (e.Created? && Enabled(s, e) && s.calls[e.call].input.conversationId == c
                  && Session(e.sessionId, s.calls[e.call].input.repositoryDir) != s.bindings[c])
  {
    hide FirstStretch;
  }

  // In a calm step that leaves only `set`.
  lemma CalmStepRebindsBySet(s: State, e: Event, c: string)
    requires OneFlight(s, c) && c in s.bindings
    ensures c in Next(s, e).bindings
    ensures Next(s, e).bindings[c]
         == if e.SetBinding? && e.conversationId == c then e.session else s.bindings[c]
  {
    hide FirstStretch;
    if Working(s, Moved(e), c) { assert false; }
  }

  lemma CalmStepBindsOnce(s: State, e: Event, c: string)
    requires LocksMatch(s) && OneFlight(s, c) && CalmStep(s, e, c)
    ensures c in s.bindings ==> c in Next(s, e).bindings
    ensures c !in s.bindings && c in Next(s, e).bindings ==>
              (e.SetBinding? && !InFlight(s, c)) || (About(s, Moved(e), c) && c in s.locks && s.locks[c] == Moved(e))
  {
    hide FirstStretch, LocksNameHolders, HoldersAreLocked, WaitersMatch;
    if Working(s, Moved(e), c) {
      OnlyOneWorks(s, Moved(e), c);
    }
  }

  // Only a new lock holder starts working, and only on an unbound conversation.
  lemma CalmStepStartsHolders(s: State, e: Event, c: string, i: int)
    requires LocksMatch(s) && OneFlight(s, c) && CalmStep(s, e, c)
    requires Working(Next(s, e), i, c) && !Working(s, i, c)
    ensures Next(s, e).calls[i].locked && c !in Next(s, e).bindings
  {
    hide LocksNameHolders, HoldersAreLocked;
    assert e.Begin? || e.Wake?;
  }

  lemma CalmStepKeepsWorkers(s: State, e: Event, c: string, i: int)
    requires LocksMatch(s) && OneFlight(s, c) && CalmStep(s, e, c)
    requires Working(Next(s, e), i, c) && Working(s, i, c)
    ensures Next(s, e).calls[i].locked && c !in Next(s, e).bindings
  {
    OnlyOneWorks(s, i, c);
    CallsPersist(s, e, i);
    CalmStepBindsOnce(s, e, c);
    hide LocksMatch, OneFlight, FirstStretch;
  }

  // In any state: whoever finishes in this step is answered from the binding the step leaves, unless
  // its own create failed; whoever had finished keeps the answer.
  lemma StepAnswers(s: State, e: Event, c: string, i: int)
    requires About(Next(s, e), i, c) && Settled(Next(s, e).calls[i].pc)
    ensures if i < |s.calls| && Settled(s.calls[i].pc)
            then About(s, i, c) && Next(s, e).calls[i].pc.outcome == s.calls[i].pc.outcome
            else Next(s, e).calls[i].pc.outcome == CreateFailed
                 || (c in Next(s, e).bindings && Answered(Next(s, e).calls[i], Next(s, e).bindings[c]))
  {}

  lemma CalmStepAnswers(s: State, e: Event, c: string, i: int)
    requires OneFlight(s, c) && CalmStep(s, e, c) && About(Next(s, e), i, c) && Settled(Next(s, e).calls[i].pc)
    ensures c in Next(s, e).bindings
  {
    if c in s.bindings { CalmStepRebindsBySet(s, e, c); }
  }

  lemma CalmStepKeepsOneFlight(s: State, e: Event, c: string)
    requires LocksMatch(s) && OneFlight(s, c) && CalmStep(s, e, c)
    ensures OneFlight(Next(s, e), c)
  {
    hide LocksMatch, Next, CalmStep, Answered;
    var after := Next(s, e);
    forall i | Working(after, i, c) ensures after.calls[i].locked && c !in after.bindings {
      if Working(s, i, c) {
        CalmStepKeepsWorkers(s, e, c, i);
      } else {
        CalmStepStartsHolders(s, e, c, i);
      }
    }
    forall i | About(after, i, c) && Settled(after.calls[i].pc) ensures c in after.bindings {
      CalmStepAnswers(s, e, c, i);
    }
  }

  lemma SoleHolderWorks(s: State, i: int, c: string)
    requires LocksMatch(s) && HoldersWork(s, c) && Working(s, i, c)
    ensures c in s.locks && s.locks[c] == i
  {
    hide LocksNameHolders, WaitersMatch, ProbersAdopt;
  }

  lemma WorkersStayHolders(s: State, e: Event, c: string, i: int)
    requires LocksMatch(s) && HoldersWork(s, c) && Working(Next(s, e), i, c)
    ensures Next(s, e).calls[i].locked
  {
    if i < |s.calls| { CallsPersist(s, e, i); }
    hide LocksNameHolders, HoldersAreLocked, ProbersAdopt;
  }

  lemma SettledStayBound(s: State, e: Event, c: string, i: int)
    requires HoldersWork(s, c) && CreatesStep(s, e, c) && About(Next(s, e), i, c) && Settled(Next(s, e).calls[i].pc)
    ensures c in Next(s, e).bindings
  {}

  lemma StepKeepsHoldersWorking(s: State, e: Event, c: string)
    requires LocksMatch(s) && HoldersWork(s, c) && CreatesStep(s, e, c)
    ensures HoldersWork(Next(s, e), c)
  {
    hide Next, LocksMatch, CreatesStep;
    forall i | Working(Next(s, e), i, c) ensures Next(s, e).calls[i].locked { WorkersStayHolders(s, e, c, i); }
    forall i | About(Next(s, e), i, c) && Settled(Next(s, e).calls[i].pc) ensures c in Next(s, e).bindings {
      SettledStayBound(s, e, c, i);
    }
  }

  // Whoever newly works, or moves on from its probe to create, does so when nothing was created yet.
  lemma NothingCreatedBefore(s: State, e: Event, c: string, i: int)
    requires LocksMatch(s) && HoldersWork(s, c) && CreatedOnce(s, c)
    requires Working(Next(s, e), i, c) && !(i < |s.calls| && s.calls[i].pc == Next(s, e).calls[i].pc)
    ensures Count(s.created, c) == 0
  {
    if i < |s.calls| && Working(s, i, c) {
      assert At(s, i, c, Probing);
    } else {
      if j :| At(s, j, c, Opening) { SoleHolderWorks(s, j, c); }
      hide LocksNameHolders, ProbersAdopt, Count;
      assert c !in s.bindings;
    }
  }

  // Someone at the createSession call stays there until the conversation is bound.
  lemma CreationEndsBound(s: State, e: Event, c: string)
    requires CreatesStep(s, e, c) && c !in Next(s, e).bindings
    requires forall i :: !At(Next(s, e), i, c, Opening)
    ensures c !in s.bindings && forall i :: !At(s, i, c, Opening)
  {
    forall i | About(s, i, c) ensures !At(s, i, c, Opening) {
      CallsPersist(s, e, i);
      assert !At(Next(s, e), i, c, Opening);
    }
  }

  lemma StepCreatesOnce(s: State, e: Event, c: string)
    requires LocksMatch(s) && HoldersWork(s, c) && CreatedOnce(s, c) && CreatesStep(s, e, c)
    ensures CreatedOnce(Next(s, e), c)
  {
    var r := Next(s, e);
    ArrivalIsCounted(s, e, c);
    StepKeepsLocks(s, e);
    StepKeepsHoldersWorking(s, e, c);
    hide Next, LocksMatch, HoldersWork, CreatesStep, Count;
    if j :| At(r, j, c, Opening) && !(j < |s.calls| && s.calls[j].pc.Opening?) {
      NothingCreatedBefore(s, e, c, j);
    }
    forall i | At(r, i, c, Probing) ensures Count(r.created, c) == 0 {
      if j :| At(r, j, c, Opening) {
        SoleHolderWorks(r, i, c);
        SoleHolderWorks(r, j, c);
      }
      if i < |s.calls| && s.calls[i].pc == Probing {
        SameCall(s, e, i);
        assert At(s, i, c, Probing);
      } else {
        NothingCreatedBefore(s, e, c, i);
      }
    }
    if c !in r.bindings && forall i :: !At(r, i, c, Opening) { CreationEndsBound(s, e, c); }
  }

  lemma SameCall(s: State, e: Event, i: nat)
    requires i < |s.calls|
    ensures i < |Next(s, e).calls| && Next(s, e).calls[i].input == s.calls[i].input
  {
    CallsPersist(s, e, i);
    hide Next;
  }

  lemma {:induction false} RunsCreateOnce(events: seq<Event>, c: string)
    requires NoCreateFails(events, c)
    ensures HoldersWork(Run(events), c) && CreatedOnce(Run(events), c)
  {
    if events == [] {
      assert HoldersWork(START, c) && CreatedOnce(START, c);
    } else {
      var front := events[..|events| - 1];
      RunsCreateOnce(front, c);
      EveryRunKeepsLocks(front);
      hide HoldersWork, CreatedOnce, LocksMatch, Next, CreatesStep;
      StepKeepsHoldersWorking(Run(front), events[|events| - 1], c);
      StepCreatesOnce(Run(front), events[|events| - 1], c);
    }
  }

  lemma {:induction false} CalmRunsAreSingleFlight(events: seq<Event>, c: string)
    requires Calm(events, c)
    ensures OneFlight(Run(events), c)
  {
    if events == [] {
      assert OneFlight(START, c);
    } else {
      var front := events[..|events| - 1];
      CalmRunsAreSingleFlight(front, c);
      EveryRunKeepsLocks(front);
      hide OneFlight, LocksMatch, Next, CalmStep;
      CalmStepKeepsOneFlight(Run(front), events[|events| - 1], c);
    }
  }

  // ----- exactly when there is a second createSession -----

  predicate FailedCall(s: State, i: int, c: string) {
    About(s, i, c) && Settled(s.calls[i].pc) && s.calls[i].pc.outcome == CreateFailed
  }

  // Some acquisition of the conversation has ended with a failed create.
  ghost predicate Failed(s: State, c: string) { exists i :: FailedCall(s, i, c) }

  // Somebody reaches createSession in this step.
  ghost predicate Arrives(s: State, e: Event, c: string) {
    exists i :: At(Next(s, e), i, c, Opening) && !(i < |s.calls| && s.calls[i].pc.Opening?)
  }

  // Somebody reaches createSession although an acquisition has ended with a failed create.
  ghost predicate Retries(events: seq<Event>, c: string) {
    events != []
    && (Retries(events[..|events| - 1], c)
        || (Failed(Run(events[..|events| - 1]), c) && Arrives(Run(events[..|events| - 1]), events[|events| - 1], c)))
  }

  lemma ArrivalIsCounted(s: State, e: Event, c: string)
    ensures Count(Next(s, e).created, c) == Count(s.created, c) + (if Arrives(s, e, c) then 1 else 0)
  {
    var i := if e.Begin? then |s.calls| else Moved(e);
    if Next(s, e).created != s.created {
      assert (s.created + [Next(s, e).calls[i].input.conversationId])[..|s.created|] == s.created;
      hide FirstStretch;
      assert Next(s, e).calls[i].input.conversationId == c ==> At(Next(s, e), i, c, Opening);
    }
  }

  // Whoever is at createSession, or has failed there, was counted.
  ghost predicate CreatorsCounted(s: State, c: string) {
    Failed(s, c) || (exists i :: At(s, i, c, Opening)) ==> Count(s.created, c) >= 1
  }

  lemma StepCountsCreators(s: State, e: Event, c: string)
    requires CreatorsCounted(s, c)
    ensures CreatorsCounted(Next(s, e), c)
  {
    ArrivalIsCounted(s, e, c);
    hide Count;
    if i :| At(Next(s, e), i, c, Opening) {
      if i < |s.calls| && s.calls[i].pc.Opening? { SameCall(s, e, i); assert At(s, i, c, Opening); }
    }
    if i :| FailedCall(Next(s, e), i, c) {
      FailureComesFromCreating(s, e, c, i);
    }
    hide Next;
  }

  lemma FailureComesFromCreating(s: State, e: Event, c: string, i: int)
    requires FailedCall(Next(s, e), i, c)
    ensures At(s, i, c, Opening) || Failed(s, c)
    ensures CreatesStep(s, e, c) ==> Failed(s, c)
  {
    if i < |s.calls| && Settled(s.calls[i].pc) {
      StepAnswers(s, e, c, i);
      assert FailedCall(s, i, c);
    }
  }

  lemma FailureStays(s: State, e: Event, c: string)
    ensures Failed(s, c) ==> Failed(Next(s, e), c)
    ensures !CreatesStep(s, e, c) ==> Failed(Next(s, e), c)
  {
    if i :| FailedCall(s, i, c) {
      SameCall(s, e, i);
      SettledStays(s, e, i);
      assert FailedCall(Next(s, e), i, c);
    }
    if !CreatesStep(s, e, c) { assert FailedCall(Next(s, e), e.call, c); }
  }

  lemma SettledStays(s: State, e: Event, i: nat)
    requires i < |s.calls| && Settled(s.calls[i].pc)
    ensures i < |Next(s, e).calls| && Settled(Next(s, e).calls[i].pc)
    ensures Next(s, e).calls[i].pc.outcome == s.calls[i].pc.outcome
  {
    hide FirstStretch;
  }

  lemma {:induction false} FailedExactly(events: seq<Event>, c: string)
    ensures Failed(Run(events), c) <==> !NoCreateFails(events, c)
    ensures CreatorsCounted(Run(events), c)
  {
    if events == [] {
      assert !Failed(START, c);
    } else {
      var s, e := Run(events[..|events| - 1]), events[|events| - 1];
      FailedExactly(events[..|events| - 1], c);
      StepCountsCreators(s, e, c);
      FailureStays(s, e, c);
      if i :| FailedCall(Next(s, e), i, c) {
        FailureComesFromCreating(s, e, c, i);
      }
      hide Next, CreatorsCounted, CreatesStep;
    }
  }

  // In every run: a conversation gets a second createSession exactly when somebody reaches it although
  // an acquisition of that conversation has already ended with a failed create.
  lemma {:induction false} SecondCreateExactly(events: seq<Event>, c: string)
    ensures Count(Run(events).created, c) <= 1 <==> !Retries(events, c)
  {
    if events != [] {
      var front := events[..|events| - 1];
      var s, e := Run(front), events[|events| - 1];
      SecondCreateExactly(front, c);
      ArrivalIsCounted(s, e, c);
      FailedExactly(front, c);
      if !Failed(s, c) {
        RunsCreateOnce(front, c);
        EveryRunKeepsLocks(front);
        FirstFailureCreatesNothing(s, e, c);
        if CreatesStep(s, e, c) { StepCreatesOnce(s, e, c); }
      }
      hide Next, Failed, Arrives, HoldersWork, LocksMatch, CreatesStep, Count;
    }
  }

  lemma FirstFailureCreatesNothing(s: State, e: Event, c: string)
    ensures !CreatesStep(s, e, c) ==> !Arrives(s, e, c)
  {}

  // With no failed create, whatever `set` does, a conversation gets at most one createSession, only one
  // caller is ever at it, and nobody finishes before it is bound.
  lemma {:induction false} SingleCreate(events: seq<Event>, c: string)
    requires NoCreateFails(events, c)
    ensures Count(Run(events).created, c) <= 1
    ensures forall i :: About(Run(events), i, c) && Settled(Run(events).calls[i].pc) ==> c in Run(events).bindings
    ensures forall i, j :: About(Run(events), i, c) && About(Run(events), j, c) && i != j
                           && Run(events).calls[i].pc.Opening? ==>
              !Run(events).calls[j].pc.Opening?
  {
    SecondCreateExactly(events, c);
    NoFailureNoRetry(events, c);
    RunsCreateOnce(events, c);
    EveryRunKeepsLocks(events);
    var s := Run(events);
    hide Run, CreatedOnce, LocksMatch, Retries;
    forall i, j | About(s, i, c) && About(s, j, c) && i != j && s.calls[i].pc.Opening? ensures !s.calls[j].pc.Opening? {
      SoleHolderWorks(s, i, c);
      if s.calls[j].pc.Opening? { SoleHolderWorks(s, j, c); }
    }
  }

  lemma {:induction false} NoFailureNoRetry(events: seq<Event>, c: string)
    requires NoCreateFails(events, c)
    ensures !Retries(events, c)
  {
    if events != [] {
      NoFailureNoRetry(events[..|events| - 1], c);
      FailedExactly(events[..|events| - 1], c);
      hide Run, Failed, Arrives;
    }
  }

  // Caller i has finished by the m-th point of the run, with the answer of the binding at that point.
  ghost predicate AnsweredAt(events: seq<Event>, c: string, i: int, m: int) {
    && 0 <= m <= |events| && About(Run(events[..m]), i, c) && Settled(Run(events[..m]).calls[i].pc)
    && c in Run(events[..m]).bindings && Answered(Run(events[..m]).calls[i], Run(events[..m]).bindings[c])
    && i < |Run(events).calls| && Settled(Run(events).calls[i].pc)
    && Run(events).calls[i].pc.outcome == Run(events[..m]).calls[i].pc.outcome
  }

  // The m-th step is the one in which caller i finished.
  ghost predicate FinishedAt(events: seq<Event>, i: int, m: int) {
    && 0 < m <= |events| && 0 <= i < |Run(events[..m]).calls| && Settled(Run(events[..m]).calls[i].pc)
    && (i < |Run(events[..m - 1]).calls| ==> !Settled(Run(events[..m - 1]).calls[i].pc))
  }

  // In every run: a finished caller got the answer of the binding in the step it finished, and at any
  // point at all, exactly when its own create did not fail.
  lemma {:induction false} AnsweredFromTheBindingThen(events: seq<Event>, c: string, i: int) returns (m: nat)
    requires About(Run(events), i, c) && Settled(Run(events).calls[i].pc)
    ensures FinishedAt(events, i, m)
    ensures AnsweredAt(events, c, i, m) <==> Run(events).calls[i].pc.outcome != CreateFailed
    ensures (exists k :: AnsweredAt(events, c, i, k)) <==> Run(events).calls[i].pc.outcome != CreateFailed
  {
    var n := |events| - 1;
    var s, e := Run(events[..n]), events[n];
    StepAnswers(s, e, c, i);
    hide Next;
    assert events[..|events|] == events;
    if i < |s.calls| && Settled(s.calls[i].pc) {
      m := AnsweredFromTheBindingThen(events[..n], c, i);
      assert events[..n][..m] == events[..m] && events[..n][..m - 1] == events[..m - 1];
    } else {
      m := |events|;
    }
  }

  // From point k on the conversation is bound to the session.
  ghost predicate KeptFrom(events: seq<Event>, k: nat, c: string, session: Session) {
    forall m :: k <= m <= |events| ==> BoundTo(events[..m], c, session)
  }

  // From point k on nothing sets another session.
  ghost predicate NothingElseSet(events: seq<Event>, k: nat, c: string, session: Session) {
    forall m :: k <= m < |events| ==> SetsNothingElse(events[m], c, session)
  }

  lemma OneMorePoint(events: seq<Event>, k: nat, c: string, session: Session)
    requires k < |events|
    ensures var front := events[..|events| - 1];
            && (KeptFrom(events, k, c, session) <==> KeptFrom(front, k, c, session) && BoundTo(events, c, session))
            && (NothingElseSet(events, k, c, session)
                <==> NothingElseSet(front, k, c, session) && SetsNothingElse(events[|events| - 1], c, session))
            && (KeptFrom(front, k, c, session) ==> BoundTo(front, c, session))
  {
    hide BoundTo, SetsNothingElse;
    var front := events[..|events| - 1];
    assert events[..|events|] == events && front[..|front|] == front;
    assert forall m :: 0 <= m <= |front| ==> front[..m] == events[..m];
  }

  // In a calm run a binding stays what it was from point k on exactly when nothing sets another one.
  lemma {:induction false} BindingKeptExactly(events: seq<Event>, k: nat, c: string)
    requires Calm(events, c) && k <= |events| && c in Run(events[..k]).bindings
    ensures var session := Run(events[..k]).bindings[c];
            KeptFrom(events, k, c, session) <==> NothingElseSet(events, k, c, session)
  {
    var session := Run(events[..k]).bindings[c];
    if k == |events| {
      assert events[..k] == events;
    } else {
      var front := events[..|events| - 1];
      assert front[..k] == events[..k];
      BindingKeptExactly(front, k, c);
      CalmRunsAreSingleFlight(front, c);
      OneMorePoint(events, k, c, session);
      if BoundTo(front, c, session) { LastPointBound(events, c, session); }
      hide *;
    }
  }

  ghost predicate BoundTo(events: seq<Event>, c: string, session: Session) {
    c in Run(events).bindings && Run(events).bindings[c] == session
  }

  predicate SetsNothingElse(e: Event, c: string, session: Session) {
    e.SetBinding? && e.conversationId == c ==> e.session == session
  }

  lemma LastPointBound(events: seq<Event>, c: string, session: Session)
    requires events != [] && OneFlight(Run(events[..|events| - 1]), c) && BoundTo(events[..|events| - 1], c, session)
    ensures BoundTo(events, c, session) <==> SetsNothingElse(events[|events| - 1], c, session)
  {
    CalmStepRebindsBySet(Run(events[..|events| - 1]), events[|events| - 1], c);
    hide Next, OneFlight;
  }

  // With the third hypothesis a binding, and with it the repository, never changes.
  lemma {:induction false} BindingNeverChanges(events: seq<Event>, k: nat, c: string)
    requires Calm(events, c) && Loyal(events, c) && k <= |events| && c in Run(events[..k]).bindings
    ensures c in Run(events).bindings && Run(events).bindings[c] == Run(events[..k]).bindings[c]
  {
    if k == |events| {
      assert events[..k] == events;
    } else {
      var front := events[..|events| - 1];
      assert front[..k] == events[..k];
      BindingNeverChanges(front, k, c);
      CalmRunsAreSingleFlight(front, c);
      CalmStepRebindsBySet(Run(front), events[|events| - 1], c);
      hide Next, OneFlight;
    }
  }

  // What the answers rest on, besides the locks.
  ghost predicate OrderlyWork(s: State, c: string) { HoldersWork(s, c) && WorkComesFirst(s, c) }

  lemma StepKeepsWorkFirst(s: State, e: Event, c: string, i: int, j: int)
    requires LocksMatch(s) && OrderlyWork(s, c) && CreatesStep(s, e, c)
    requires Working(Next(s, e), i, c) && About(Next(s, e), j, c)
    ensures !Settled(Next(s, e).calls[j].pc)
  {
    if Working(s, i, c) { SoleHolderWorks(s, i, c); }
    if Working(s, Moved(e), c) { SoleHolderWorks(s, Moved(e), c); }
    if i < |s.calls| { CallsPersist(s, e, i); }
    if j < |s.calls| { CallsPersist(s, e, j); }
    hide LocksNameHolders, HoldersAreLocked, ProbersAdopt;
  }

  lemma StepKeepsOrderlyWork(s: State, e: Event, c: string)
    requires LocksMatch(s) && OrderlyWork(s, c) && CreatesStep(s, e, c)
    ensures OrderlyWork(Next(s, e), c)
  {
    StepKeepsHoldersWorking(s, e, c);
    hide Next, LocksMatch, HoldersWork, CreatesStep;
    forall i, j | Working(Next(s, e), i, c) && About(Next(s, e), j, c) ensures !Settled(Next(s, e).calls[j].pc) {
      StepKeepsWorkFirst(s, e, c, i, j);
    }
  }

  // With somebody finished, only `set` rebinds.
  lemma FinishedStepRebindsBySet(s: State, e: Event, c: string, i: int)
    requires OrderlyWork(s, c) && About(s, i, c) && Settled(s.calls[i].pc)
    ensures c in s.bindings && c in Next(s, e).bindings
    ensures Next(s, e).bindings[c]
         == if e.SetBinding? && e.conversationId == c then e.session else s.bindings[c]
  {
    hide FirstStretch;
    if Working(s, Moved(e), c) { assert false; }
  }

  lemma AnswerSurvives(s: State, e: Event, c: string, i: int)
    requires OrderlyWork(s, c) && AllAnswered(s, c) && CreatesStep(s, e, c)
    requires !(e.SetBinding? && e.conversationId == c) && About(Next(s, e), i, c) && Settled(Next(s, e).calls[i].pc)
    ensures c in Next(s, e).bindings && Answered(Next(s, e).calls[i], Next(s, e).bindings[c])
  {
    StepAnswers(s, e, c, i);
    if i < |s.calls| && Settled(s.calls[i].pc) {
      FinishedStepRebindsBySet(s, e, c, i);
      CallsPersist(s, e, i);
      hide Next;
    } else {
      assert Next(s, e).calls[i].pc.outcome != CreateFailed by { hide Answered, FirstStretch; }
    }
  }

  // A `set`, if that is what the step is, sets a session from which every finished caller would have
  // got the answer it got.
  ghost predicate SetKeepsAnswers(s: State, e: Event, c: string) {
    e.SetBinding? && e.conversationId == c ==>
      forall i :: About(s, i, c) && Settled(s.calls[i].pc) ==> Answered(s.calls[i], e.session)
  }

  // A step leaves everyone with the present binding's answer exactly then.
  lemma {:induction false} AnswersSurviveExactly(s: State, e: Event, c: string)
    requires OrderlyWork(s, c) && AllAnswered(s, c) && CreatesStep(s, e, c)
    ensures AllAnswered(Next(s, e), c) <==> SetKeepsAnswers(s, e, c)
  {
    if e.SetBinding? && e.conversationId == c {
      hide OrderlyWork, Answered;
      assert forall i :: About(Next(s, e), i, c) <==> About(s, i, c);
    } else {
      forall i | About(Next(s, e), i, c) && Settled(Next(s, e).calls[i].pc)
        ensures c in Next(s, e).bindings && Answered(Next(s, e).calls[i], Next(s, e).bindings[c])
      {
        AnswerSurvives(s, e, c, i);
      }
      hide Next, Answered;
    }
  }

  lemma {:induction false} RunsWorkInOrder(events: seq<Event>, c: string)
    requires NoCreateFails(events, c)
    ensures OrderlyWork(Run(events), c)
  {
    if events == [] {
      assert OrderlyWork(START, c);
    } else {
      RunsWorkInOrder(events[..|events| - 1], c);
      EveryRunKeepsLocks(events[..|events| - 1]);
      hide OrderlyWork, LocksMatch, Next, CreatesStep;
      StepKeepsOrderlyWork(Run(events[..|events| - 1]), events[|events| - 1], c);
    }
  }

  // At every point of the run everyone who has finished has the present binding's answer.
  ghost predicate AnsweredThroughout(events: seq<Event>, c: string) {
    AllAnswered(Run(events), c) && (events == [] || AnsweredThroughout(events[..|events| - 1], c))
  }

  ghost predicate SetsKeepAnswers(events: seq<Event>, c: string) {
    events == []
    || (SetsKeepAnswers(events[..|events| - 1], c)
        && SetKeepsAnswers(Run(events[..|events| - 1]), events[|events| - 1], c))
  }

  // Over a run without a failed create, everyone has the present binding's answer at every point
  // exactly when every `set` keeps the answers.
  lemma {:induction false} AnsweredThroughoutExactly(events: seq<Event>, c: string)
    requires NoCreateFails(events, c)
    ensures AnsweredThroughout(events, c) <==> SetsKeepAnswers(events, c)
  {
    if events == [] {
      assert AllAnswered(START, c);
    } else {
      var front := events[..|events| - 1];
      AnsweredThroughoutExactly(front, c);
      RunsWorkInOrder(front, c);
      assert AnsweredThroughout(front, c) ==> AllAnswered(Run(front), c);
      hide OrderlyWork, Next, CreatesStep, AllAnswered, SetKeepsAnswers;
      if AnsweredThroughout(front, c) { AnswersSurviveExactly(Run(front), events[|events| - 1], c); }
    }
  }

  lemma LoyalStepKeepsAnswers(s: State, e: Event, c: string)
    requires AllAnswered(s, c) && LoyalStep(s, e, c)
    ensures SetKeepsAnswers(s, e, c)
  {
    hide Answered;
  }

  lemma {:induction false} LoyalRunsAnswerAll(events: seq<Event>, c: string)
    requires NoCreateFails(events, c) && Loyal(events, c)
    ensures AnsweredThroughout(events, c)
  {
    if events == [] {
      assert AllAnswered(START, c);
    } else {
      var front := events[..|events| - 1];
      LoyalRunsAnswerAll(front, c);
      AnsweredThroughoutExactly(front, c);
      AnsweredThroughoutExactly(events, c);
      hide Next, CreatesStep, AllAnswered, SetKeepsAnswers, LoyalStep;
      LoyalStepKeepsAnswers(Run(front), events[|events| - 1], c);
    }
  }

  // Single flight: with no failed create, and no `set` that gives a bound conversation another session,
  // each finished acquisition for the bound repository got the bound session, and each other was refused.
  lemma {:induction false} SingleFlight(events: seq<Event>, c: string)
    requires NoCreateFails(events, c) && Loyal(events, c)
    ensures Count(Run(events).created, c) <= 1
    ensures forall i :: About(Run(events), i, c) && Settled(Run(events).calls[i].pc) ==>
              c in Run(events).bindings && Answered(Run(events).calls[i], Run(events).bindings[c])
    ensures forall i, j :: About(Run(events), i, c) && About(Run(events), j, c) && i != j
                           && Run(events).calls[i].pc.Opening? ==>
              !Run(events).calls[j].pc.Opening?
  {
    SingleCreate(events, c);
    LoyalRunsAnswerAll(events, c);
    hide Run, Answered;
  }

  // It happens: with nobody in flight, a lone `set` gives a bound conversation another session.
  lemma {:induction false} LoneSetRebinds(input: Input, id: string, session: Session)
    requires !Adopts(input) && session != Session(id, input.repositoryDir)
    ensures var c, done := input.conversationId, [Begin(input), Created(0, id), ReleaseLock(0)];
            && Calm(done + [SetBinding(c, session)], c) && !Loyal(done + [SetBinding(c, session)], c)
            && Run(done).bindings == map[c := Session(id, input.repositoryDir)]
            && Run(done + [SetBinding(c, session)]).bindings == map[c := session]
  {
    var c, done := input.conversationId, [Begin(input), Created(0, id), ReleaseLock(0)];
    OneAcquires(input, id);
    CalmWithoutSets(done, c);
    RunExtends(done, SetBinding(c, session));
    hide Run;
    var all := done + [SetBinding(c, session)];
    assert all[..|all| - 1] == done && all[|all| - 1] == SetBinding(c, session);
    assert CalmStep(Run(done), SetBinding(c, session), c);
    assert !LoyalStep(Run(done), SetBinding(c, session), c);
  }

  lemma {:induction false} CalmWithoutSets(events: seq<Event>, c: string)
    requires forall i :: 0 <= i < |events| ==> !events[i].SetBinding? && !events[i].CreateFails?
    ensures Calm(events, c)
  {
    hide Run;
    if events != [] { CalmWithoutSets(events[..|events| - 1], c); }
  }

  lemma OneAcquires(input: Input, id: string)
    requires !Adopts(input)
    ensures var c, done := input.conversationId, [Begin(input), Created(0, id), ReleaseLock(0)];
            var got := Session(id, input.repositoryDir);
            Run(done) == State(map[c := got], map[], [Call(input, true, Done(Acquired(got, true)))], [c])
  {
    var done := [Begin(input), Created(0, id), ReleaseLock(0)];
    RunExtends([], Begin(input));
    RunExtends([Begin(input)], Created(0, id));
    RunExtends([Begin(input), Created(0, id)], ReleaseLock(0));
    assert Run([]) == START;
    hide Run;
    assert [] + [Begin(input)] == [Begin(input)];
    assert [Begin(input)] + [Created(0, id)] == [Begin(input), Created(0, id)];
    assert [Begin(input), Created(0, id)] + [ReleaseLock(0)] == done;
    assert Run([Begin(input)]).calls == [Call(input, true, Opening)];
  }

  // ----- the hypotheses are needed -----

  // After one failed create, two waiters create at the same time.
  lemma {:induction false} FailedCreateLetsTwoCreate(input: Input)
    requires !Adopts(input)
    ensures var s := Run([Begin(input), Begin(input), Begin(input), CreateFails(0), ReleaseLock(0), Wake(1), Wake(2)]);
            |s.calls| == 3 && s.calls[1].pc.Opening? && s.calls[2].pc.Opening?
  {
    var failed := Call(input, true, Done(CreateFailed));
    var freed := [Begin(input), Begin(input), Begin(input), CreateFails(0), ReleaseLock(0)];
    FailedCreateFreesTheLock(input);
    RunExtends(freed, Wake(1));
    RunExtends(freed + [Wake(1)], Wake(2));
    hide Run;
    assert freed + [Wake(1)] + [Wake(2)]
        == [Begin(input), Begin(input), Begin(input), CreateFails(0), ReleaseLock(0), Wake(1), Wake(2)];
    assert Run(freed + [Wake(1)]).calls == [failed, Call(input, false, Opening), Call(input, false, Waiting(0))];
  }

  lemma FailedCreateFreesTheLock(input: Input)
    requires !Adopts(input)
    ensures var s := Run([Begin(input), Begin(input), Begin(input), CreateFails(0), ReleaseLock(0)]);
            s.calls == [Call(input, true, Done(CreateFailed)),
                        Call(input, false, Waiting(0)), Call(input, false, Waiting(0))]
            && s.bindings == map[]
  {
    var queued := [Begin(input), Begin(input), Begin(input)];
    TwoQueueBehindOne(input);
    RunExtends(queued, CreateFails(0));
    RunExtends(queued + [CreateFails(0)], ReleaseLock(0));
    hide Run;
    assert queued + [CreateFails(0)] + [ReleaseLock(0)]
        == [Begin(input), Begin(input), Begin(input), CreateFails(0), ReleaseLock(0)];
  }

  lemma TwoQueueBehindOne(input: Input)
    requires !Adopts(input)
    ensures Run([Begin(input), Begin(input), Begin(input)])
         == State(map[], map[input.conversationId := 0],
                  [Call(input, true, Opening), Call(input, false, Waiting(0)), Call(input, false, Waiting(0))],
                  [input.conversationId])
  {
    RunExtends([], Begin(input));
    RunExtends([Begin(input)], Begin(input));
    RunExtends([Begin(input), Begin(input)], Begin(input));
    assert Run([]) == START;
    hide Run;
    assert [] + [Begin(input)] == [Begin(input)];
    assert [Begin(input)] + [Begin(input)] == [Begin(input), Begin(input)];
    assert [Begin(input), Begin(input)] + [Begin(input)] == [Begin(input), Begin(input), Begin(input)];
    assert [] + [input.conversationId] == [input.conversationId];
    assert Run([Begin(input)]).calls == [Call(input, true, Opening)];
  }

  // A `set` during an acquisition is overwritten by it: the conversation changes session.
  lemma {:induction false} OverlappingSetIsOverwritten(input: Input, session: Session, id: string)
    requires !Adopts(input)
    ensures Run([Begin(input), SetBinding(input.conversationId, session)]).bindings
            == map[input.conversationId := session]
    ensures Run([Begin(input), SetBinding(input.conversationId, session), Created(0, id)]).bindings
         == map[input.conversationId := Session(id, input.repositoryDir)]
  {
    RunExtends([], Begin(input));
    RunExtends([Begin(input)], SetBinding(input.conversationId, session));
    RunExtends([Begin(input), SetBinding(input.conversationId, session)], Created(0, id));
    assert Run([]) == START;
    hide Run;
    assert [] + [Begin(input)] == [Begin(input)];
    assert [Begin(input)] + [SetBinding(input.conversationId, session)]
        == [Begin(input), SetBinding(input.conversationId, session)];
    assert [Begin(input), SetBinding(input.conversationId, session)] + [Created(0, id)]
        == [Begin(input), SetBinding(input.conversationId, session), Created(0, id)];
  }

  lemma RunExtends(events: seq<Event>, e: Event)
    ensures Run(events + [e]) == Next(Run(events), e)
  {
    assert (events + [e])[..|events|] == events;
  }
}
