// What every caller of the session registry gets, read off what it found and what it was told, in
// every interleaving.

module SessionStories {
  import opened Options
  import opened ConversationSessions
  import opened SessionRuns

  // What a caller has met so far: the binding when it first ran, the answer of its probe, and what its
  // createSession came back with, an id or a failure.
  datatype Heard = Heard(found: Option<Option<Session>>, probe: Option<bool>, created: Option<Option<string>>)

  const NOTHING := Heard(None, None, None)

  function BindingOf(s: State, c: string): Option<Session> {
    if c in s.bindings then Some(s.bindings[c]) else None
  }

  // What a step tells caller i.
  function Hears(s: State, e: Event, i: nat, h: Heard): Heard {
    if !Enabled(s, e) then h
    else match e
      case Begin(input) =>
        if i == |s.calls| && input.conversationId !in s.locks
        then h.(found := Some(BindingOf(s, input.conversationId))) else h
      case Wake(n) => if n == i then h.(found := Some(BindingOf(s, s.calls[n].input.conversationId))) else h
      case Verified(n, alive) => if n == i then h.(probe := Some(alive)) else h
      case Created(n, sessionId) => if n == i then h.(created := Some(Some(sessionId))) else h
      case CreateFails(n) => if n == i then h.(created := Some(None)) else h
      case _ => h
  }

  ghost function HeardBy(events: seq<Event>, i: nat): Heard {
    if events == [] then NOTHING
    else Hears(Run(events[..|events| - 1]), events[|events| - 1], i, HeardBy(events[..|events| - 1], i))
  }

  datatype Fate = Queued | Asking | Making | Ended(outcome: Outcome)

  // A bound conversation is answered from its binding. An unbound one adopts the preferred session, if
  // there is one and it is alive, and otherwise gets a new one.
  function FateOf(input: Input, h: Heard): Fate {
    match h.found
    case None => Queued
    case Some(Some(session)) =>
      Ended(if session.repositoryDir == input.repositoryDir then Acquired(session, false) else RepositoryMismatch)
    case Some(None) =>
      match input.preferredSessionId
      case None => Creation(input, h)
      case Some(preferred) =>
        if preferred == "" then Creation(input, h)
        else match h.probe
          case None => Asking
          case Some(true) => Ended(Acquired(Session(preferred, input.repositoryDir), false))
          case Some(false) => Creation(input, h)
  }

  function Creation(input: Input, h: Heard): Fate {
    match h.created
    case None => Making
    case Some(None) => Ended(CreateFailed)
    case Some(Some(id)) => Ended(Acquired(Session(id, input.repositoryDir), true))
  }

  predicate Lives(pc: Pc, fate: Fate) {
    match pc
    case Waiting(_) => fate == Queued
    case Probing => fate == Asking
    case Opening => fate == Making
    case Returning(outcome) => fate == Ended(outcome)
    case Done(outcome) => fate == Ended(outcome)
  }

  // A caller has heard nothing before it runs, and nothing of a create before it is at one.
  predicate InStep(call: Call, h: Heard) {
    && Lives(call.pc, FateOf(call.input, h))
    && (call.pc.Waiting? ==> h == NOTHING)
    && (call.pc.Probing? ==> h.probe == None)
    && (call.pc.Probing? || call.pc.Opening? ==> h.created == None)
  }

  lemma NewcomerInStep(s: State, e: Event)
    requires e.Begin?
    ensures var r := Next(s, e);
            |r.calls| == |s.calls| + 1 && InStep(r.calls[|s.calls|], Hears(s, e, |s.calls|, NOTHING))
  {}

  lemma MovedStaysInStep(s: State, e: Event, i: nat, h: Heard)
    requires i < |s.calls| && InStep(s.calls[i], h) && Moved(e) == i
    ensures i < |Next(s, e).calls| && InStep(Next(s, e).calls[i], Hears(s, e, i, h))
  {}

  lemma OthersStayInStep(s: State, e: Event, i: nat, h: Heard)
    requires Moved(e) != i && !(e.Begin? && i == |s.calls|)
    ensures Hears(s, e, i, h) == h
    ensures i < |s.calls| <==> i < |Next(s, e).calls|
    ensures i < |s.calls| ==> Next(s, e).calls[i] == s.calls[i]
  {
    hide FirstStretch;
  }

  lemma StepStaysInStep(s: State, e: Event, i: nat, h: Heard)
    requires if i < |s.calls| then InStep(s.calls[i], h) else h == NOTHING
    ensures if i < |Next(s, e).calls| then InStep(Next(s, e).calls[i], Hears(s, e, i, h))
            else Hears(s, e, i, h) == NOTHING
  {
    if e.Begin? && i == |s.calls| {
      NewcomerInStep(s, e);
    } else if Moved(e) == i && i < |s.calls| {
      MovedStaysInStep(s, e, i, h);
    } else if Moved(e) == i {
      assert !Enabled(s, e);
    } else {
      OthersStayInStep(s, e, i, h);
      hide Hears, Next, InStep;
    }
  }

  // In every run each caller is where what it has met so far puts it: it queues, asks, makes a session,
  // or has the answer these determine.
  lemma {:induction false} CallersGetWhatTheyHear(events: seq<Event>, i: nat)
    ensures var s := Run(events);
            if i < |s.calls| then InStep(s.calls[i], HeardBy(events, i)) else HeardBy(events, i) == NOTHING
  {
    if events != [] {
      CallersGetWhatTheyHear(events[..|events| - 1], i);
      StepStaysInStep(Run(events[..|events| - 1]), events[|events| - 1], i, HeardBy(events[..|events| - 1], i));
      hide InStep, Next, Hears;
    }
  }

  // The n-th step of the run is this one, and it happens.
  ghost predicate Happens(events: seq<Event>, n: int, e: Event) {
    0 <= n < |events| && events[n] == e && Enabled(Run(events[..n]), e)
  }

  ghost predicate Happened(events: seq<Event>, e: Event) { exists n :: Happens(events, n, e) }

  lemma HappenedOneMore(events: seq<Event>, e: Event)
    requires events != []
    ensures var n := |events| - 1;
            Happened(events, e)
            <==> Happened(events[..n], e) || (events[n] == e && Enabled(Run(events[..n]), e))
  {
    hide Run, Enabled;
    var last := |events| - 1;
    assert forall m :: 0 <= m < last ==> events[..last][..m] == events[..m];
    if n :| Happens(events, n, e) && n < last { assert Happens(events[..last], n, e); }
    if n :| Happens(events[..last], n, e) { assert Happens(events, n, e); }
    if events[last] == e && Enabled(Run(events[..last]), e) { assert Happens(events, last, e); }
  }

  // A caller has heard an answer exactly when the step that brings it happened.
  lemma {:induction false} HeardExactly(events: seq<Event>, i: nat, alive: bool, sessionId: string)
    ensures HeardBy(events, i).probe == Some(alive) <==> Happened(events, Verified(i, alive))
    ensures HeardBy(events, i).created == Some(Some(sessionId)) <==> Happened(events, Created(i, sessionId))
    ensures HeardBy(events, i).created == Some(None) <==> Happened(events, CreateFails(i))
  {
    if events != [] {
      var n := |events| - 1;
      HeardExactly(events[..n], i, alive, sessionId);
      HappenedOneMore(events, Verified(i, alive));
      HappenedOneMore(events, Created(i, sessionId));
      HappenedOneMore(events, CreateFails(i));
      CallersGetWhatTheyHear(events[..n], i);
      hide Run, Happened;
      AnswersComeOnce(Run(events[..n]), events[n], i, HeardBy(events[..n], i));
    }
  }

  lemma AnswersComeOnce(s: State, e: Event, i: nat, h: Heard)
    requires if i < |s.calls| then InStep(s.calls[i], h) else h == NOTHING
    ensures Enabled(s, e) && e.Verified? && e.call == i ==> h.probe == None && Hears(s, e, i, h).probe == Some(e.alive)
    ensures Enabled(s, e) && e.Created? && e.call == i ==>
              h.created == None && Hears(s, e, i, h).created == Some(Some(e.sessionId))
    ensures Enabled(s, e) && e.CreateFails? && e.call == i ==>
              h.created == None && Hears(s, e, i, h).created == Some(None)
    ensures !(Enabled(s, e) && e.Verified? && e.call == i) ==> Hears(s, e, i, h).probe == h.probe
    ensures !(Enabled(s, e) && (e.Created? || e.CreateFails?) && e.call == i) ==>
              Hears(s, e, i, h).created == h.created
  {}

  // ----- adoption -----

  predicate HasPreferred(input: Input) {
    match input.preferredSessionId case Some(id) => id != "" case None => false
  }

  // At createSession, or past it.
  predicate AtCreate(pc: Pc) {
    pc.Opening? || (Settled(pc) && (pc.outcome == CreateFailed || (pc.outcome.Acquired? && pc.outcome.created)))
  }

  // Nobody with a preferred session reaches createSession unless its own probe found it dead; whoever's
  // probe found it alive ends with it, and it was not created; and a session counts as created exactly
  // for the caller whose own createSession made it.
  lemma {:induction false} AliveIsAdoptedDeadIsReplaced(events: seq<Event>, i: nat)
    requires i < |Run(events).calls|
    ensures var call := Run(events).calls[i];
            && (AtCreate(call.pc) && HasPreferred(call.input) ==> Happened(events, Verified(i, false)))
            && (Happened(events, Verified(i, true)) ==>
                  HasPreferred(call.input) && Settled(call.pc)
                  && call.pc.outcome
                     == Acquired(Session(call.input.preferredSessionId.value, call.input.repositoryDir), false))
            && forall id ::
                 Happened(events, Created(i, id))
                 <==> Settled(call.pc) && call.pc.outcome == Acquired(Session(id, call.input.repositoryDir), true)
  {
    var call := Run(events).calls[i];
    CallersGetWhatTheyHear(events, i);
    AnsweredInPlace(events, i);
    HeardExactly(events, i, true, "");
    HeardExactly(events, i, false, "");
    forall id ensures HeardBy(events, i).created == Some(Some(id)) <==> Happened(events, Created(i, id)) {
      HeardExactly(events, i, true, id);
    }
    forall id
      ensures HeardBy(events, i).created == Some(Some(id))
              <==> Settled(call.pc) && call.pc.outcome == Acquired(Session(id, call.input.repositoryDir), true)
    {
      CreatedReadOff(call, HeardBy(events, i), id);
    }
    ProbeReadOff(call, HeardBy(events, i));
    hide *;
  }

  lemma CreatedReadOff(call: Call, h: Heard, id: string)
    requires InStep(call, h) && InPlace(call.input, h)
    ensures h.created == Some(Some(id))
            <==> Settled(call.pc) && call.pc.outcome == Acquired(Session(id, call.input.repositoryDir), true)
  {}

  lemma ProbeReadOff(call: Call, h: Heard)
    requires InStep(call, h) && InPlace(call.input, h)
    ensures AtCreate(call.pc) && HasPreferred(call.input) ==> h.probe == Some(false)
    ensures h.probe == Some(true) ==>
              HasPreferred(call.input) && Settled(call.pc)
              && call.pc.outcome
                 == Acquired(Session(call.input.preferredSessionId.value, call.input.repositoryDir), false)
  {}

  // Answers come only to whoever ran on an unbound conversation, and a create follows a dead probe.
  predicate InPlace(input: Input, h: Heard) {
    && (h.probe.Some? ==> h.found == Some(None) && HasPreferred(input))
    && (h.created.Some? ==> h.found == Some(None) && (HasPreferred(input) ==> h.probe == Some(false)))
  }

  lemma StepStaysInPlace(s: State, e: Event, i: nat, h: Heard)
    requires if i < |s.calls| then InStep(s.calls[i], h) && InPlace(s.calls[i].input, h) else h == NOTHING
    ensures i < |Next(s, e).calls| ==> InPlace(Next(s, e).calls[i].input, Hears(s, e, i, h))
  {
    if i < |s.calls| {
      CallsPersist(s, e, i);
      hide Next;
    }
  }

  lemma {:induction false} AnsweredInPlace(events: seq<Event>, i: nat)
    ensures i < |Run(events).calls| ==> InPlace(Run(events).calls[i].input, HeardBy(events, i))
  {
    if events != [] {
      var n := |events| - 1;
      AnsweredInPlace(events[..n], i);
      CallersGetWhatTheyHear(events[..n], i);
      StepStaysInPlace(Run(events[..n]), events[n], i, HeardBy(events[..n], i));
      hide InStep, Next, Hears, InPlace;
    }
  }

  // ----- the binding -----

  // What a step binds the conversation to, if it does.
  function Binds(s: State, e: Event, c: string): Option<Session> {
    if !Enabled(s, e) then None
    else match e
      case SetBinding(d, session) => if d == c then Some(session) else None
      case Verified(i, true) =>
        var input := s.calls[i].input;
        if input.conversationId == c then Some(Session(input.preferredSessionId.value, input.repositoryDir)) else None
      case Created(i, sessionId) =>
        var input := s.calls[i].input;
        if input.conversationId == c then Some(Session(sessionId, input.repositoryDir)) else None
      case _ => None
  }

  ghost function LastBound(events: seq<Event>, c: string): Option<Session> {
    if events == [] then None
    else
      var n := |events| - 1;
      if Binds(Run(events[..n]), events[n], c).Some? then Binds(Run(events[..n]), events[n], c)
      else LastBound(events[..n], c)
  }

  // A conversation is bound to what was set, adopted or created for it last.
  lemma {:induction false} BoundToTheLast(events: seq<Event>, c: string)
    ensures BindingOf(Run(events), c) == LastBound(events, c)
  {
    if events != [] {
      var n := |events| - 1;
      BoundToTheLast(events[..n], c);
      StepBinds(Run(events[..n]), events[n], c);
      hide Next, Binds;
    }
  }

  lemma StepBinds(s: State, e: Event, c: string)
    ensures BindingOf(Next(s, e), c) == if Binds(s, e, c).Some? then Binds(s, e, c) else BindingOf(s, c)
  {
    hide FirstStretch;
  }

  // ----- createSession calls -----

  predicate Makes(call: Call, c: string) { call.input.conversationId == c && AtCreate(call.pc) }

  function Makers(calls: seq<Call>, c: string): nat {
    if calls == [] then 0
    else Makers(calls[..|calls| - 1], c) + (if Makes(calls[|calls| - 1], c) then 1 else 0)
  }

  lemma {:induction false} MakersUpdated(calls: seq<Call>, i: nat, call: Call, c: string)
    requires i < |calls|
    ensures Makers(calls[i := call], c) + (if Makes(calls[i], c) then 1 else 0)
            == Makers(calls, c) + (if Makes(call, c) then 1 else 0)
  {
    var n := |calls| - 1;
    if i < n {
      MakersUpdated(calls[..n], i, call, c);
      assert calls[i := call][..n] == calls[..n][i := call];
    } else {
      assert calls[i := call][..n] == calls[..n];
    }
  }

  // A step moves the maker it counts into place.
  lemma StepMakes(s: State, e: Event, c: string)
    requires Count(s.created, c) == Makers(s.calls, c)
    ensures Count(Next(s, e).created, c) == Makers(Next(s, e).calls, c)
  {
    var r := Next(s, e);
    if e.Begin? {
      assert r.calls[..|s.calls|] == s.calls;
      BeginCounts(s, e, c);
    } else if Enabled(s, e) && Moved(e) >= 0 {
      var i: nat := Moved(e);
      MakersUpdated(s.calls, i, r.calls[i], c);
      MoveCounts(s, e, c);
    }
    hide Count;
  }

  lemma OneCreateMore(created: seq<string>, d: string, c: string)
    ensures Count(created + [d], c) == Count(created, c) + (if d == c then 1 else 0)
  {
    assert (created + [d])[..|created|] == created;
  }

  lemma BeginCounts(s: State, e: Event, c: string)
    requires e.Begin?
    ensures var r := Next(s, e);
            && |r.calls| == |s.calls| + 1
            && Count(r.created, c) == Count(s.created, c) + (if Makes(r.calls[|s.calls|], c) then 1 else 0)
  {
    OneCreateMore(s.created, e.input.conversationId, c);
    hide Count;
  }

  lemma MoveCounts(s: State, e: Event, c: string)
    requires Enabled(s, e) && Moved(e) >= 0
    ensures var i, r := Moved(e), Next(s, e);
            && i < |s.calls| && r.calls == s.calls[i := r.calls[i]]
            && Count(r.created, c) + (if Makes(s.calls[i], c) then 1 else 0)
               == Count(s.created, c) + (if Makes(r.calls[i], c) then 1 else 0)
  {
    OneCreateMore(s.created, s.calls[Moved(e)].input.conversationId, c);
    hide Count;
    match e
    case Wake(i) => ResumeCounts(s, s, i, FirstStretch(s.bindings, s.calls[i].input), c); hide FirstStretch, Makes;
    case Verified(i, alive) =>
      var stretch := ProbedStretch(s.bindings, s.calls[i].input, alive);
      ResumeCounts(s, s.(bindings := stretch.bindings), i, stretch.pause, c);
      hide ProbedStretch, Makes;
    case _ =>
  }

  // A stretch that did not come from createSession ends there or has made nothing.
  lemma ResumeCounts(s: State, t: State, i: nat, pause: Pause, c: string)
    requires i < |s.calls| && t.calls == s.calls && t.created == s.created && !AtCreate(s.calls[i].pc)
    requires pause.Finished? ==>
               pause.outcome.RepositoryMismatch? || (pause.outcome.Acquired? && !pause.outcome.created)
    ensures var r := Resume(t, i, pause);
            && r.calls == s.calls[i := r.calls[i]]
            && r.created == s.created + (if Makes(r.calls[i], s.calls[i].input.conversationId)
                                         then [s.calls[i].input.conversationId] else [])
            && (Makes(r.calls[i], c) <==> Makes(r.calls[i], s.calls[i].input.conversationId)
                                          && s.calls[i].input.conversationId == c)
            && !Makes(s.calls[i], c)
  {}

  // There are as many createSession calls for a conversation as callers that reached one.
  lemma {:induction false} CreatesAreTheMakers(events: seq<Event>, c: string)
    ensures Count(Run(events).created, c) == Makers(Run(events).calls, c)
  {
    if events != [] {
      CreatesAreTheMakers(events[..|events| - 1], c);
      hide Next;
      StepMakes(Run(events[..|events| - 1]), events[|events| - 1], c);
    }
  }

  // It happens: a caller whose preferred session is alive gets it, and no session is created.
  lemma {:induction false} PreferredSessionIsAdopted(input: Input, preferred: string)
    requires input.preferredSessionId == Some(preferred) && preferred != ""
    ensures var s := Run([Begin(input), Verified(0, true)]);
            var adopted := Session(preferred, input.repositoryDir);
            && s.calls == [Call(input, true, Returning(Acquired(adopted, false)))]
            && s.bindings == map[input.conversationId := adopted] && s.created == []
  {
    RunExtends([], Begin(input));
    RunExtends([Begin(input)], Verified(0, true));
    assert Run([]) == START;
    hide Run;
    assert [] + [Begin(input)] == [Begin(input)];
    assert [Begin(input)] + [Verified(0, true)] == [Begin(input), Verified(0, true)];
    assert Run([Begin(input)]).calls == [Call(input, true, Probing)];
  }
}
