// The assistant interaction broker (assistant-interaction-broker.ts): waits for a user's decision,
// resolved by a decision, a cancellation or a timer, with a bounded audit trail.

module InteractionBroker {
  import opened Options
  import opened Sequences

  const MAX_AUDIT_ENTRIES := 200

  datatype WaitKind = Permission | Question
  datatype AuditEvent = Requested | Decided | Expired | Cancelled | AutoAllow | AutoDeny
  datatype AuditEntry = AuditEntry(kind: WaitKind, conversationId: string, requestId: string, event: AuditEvent)

  // `wait` names the promise handed out; it also names the timer armed for it.
  datatype Pending = Pending(kind: WaitKind, wait: nat)
  datatype Timer = Timer(kind: WaitKind, conversationId: string, requestId: string)
  // A promise resolved: with the user's decision, or with nothing.
  datatype Settlement = Settlement(wait: nat, decision: Option<string>)

  function Key(conversationId: string, requestId: string): string {
    conversationId + ":" + requestId
  }

  // `log` is the audit trail as if nothing were ever dropped.
  datatype Broker = Broker(pending: map<string, Pending>, audit: seq<AuditEntry>, timers: map<nat, Timer>,
                           nextWait: nat, settled: seq<Settlement>, log: seq<AuditEntry>)

  ghost const NEW := Broker(map[], [], map[], 0, [], [])

  datatype Step =
    | Await(kind: WaitKind, conversationId: string, requestId: string)
    | Decide(kind: WaitKind, conversationId: string, requestId: string, decision: string)
    | CancelQuestion(conversationId: string, requestId: string)
    | TimerFires(wait: nat)
    | RecordPolicy(kind: WaitKind, conversationId: string, requestId: string, allow: bool)

  ghost function Audited(b: Broker, e: AuditEntry): Broker {
    b.(audit := LastOf(b.audit + [e], MAX_AUDIT_ENTRIES), log := b.log + [e])
  }

  // Take the pending entry out, drop its timer and resolve its promise.
  ghost function Settle(b: Broker, key: string, decision: Option<string>, e: AuditEntry): Broker
    requires key in b.pending
  {
    var wait := b.pending[key].wait;
    Audited(b.(pending := b.pending - {key}, timers := b.timers - {wait},
               settled := b.settled + [Settlement(wait, decision)]), e)
  }

  // Whether a decision or cancellation for this key and kind is accepted.
  predicate Accepts(pending: map<string, Pending>, kind: WaitKind, conversationId: string, requestId: string) {
    Key(conversationId, requestId) in pending && pending[Key(conversationId, requestId)].kind == kind
  }

  ghost function Next(b: Broker, step: Step): Broker {
    match step
    case Await(kind, c, r) =>
      if Key(c, r) in b.pending then b
      else
        Audited(b.(pending := b.pending[Key(c, r) := Pending(kind, b.nextWait)],
                   timers := b.timers[b.nextWait := Timer(kind, c, r)], nextWait := b.nextWait + 1),
                AuditEntry(kind, c, r, Requested))
    case Decide(kind, c, r, decision) =>
      if !Accepts(b.pending, kind, c, r) then b
      else Settle(b, Key(c, r), Some(decision), AuditEntry(kind, c, r, Decided))
    case CancelQuestion(c, r) =>
      if !Accepts(b.pending, Question, c, r) then b
      else Settle(b, Key(c, r), None, AuditEntry(Question, c, r, Cancelled))
    case TimerFires(wait) =>
      if wait !in b.timers then b
      else
        var t := b.timers[wait];
        var fired := b.(timers := b.timers - {wait});
        var key := Key(t.conversationId, t.requestId);
        if key !in b.pending then fired
        else Audited(fired.(pending := b.pending - {key}, settled := b.settled + [Settlement(wait, None)]),
                     AuditEntry(t.kind, t.conversationId, t.requestId, Expired))
    case RecordPolicy(kind, c, r, allow) => Audited(b, AuditEntry(kind, c, r, if allow then AutoAllow else AutoDeny))
  }

  class AssistantInteractionBroker {
    var pending: map<string, Pending>
    var audit: seq<AuditEntry>
    var timers: map<nat, Timer>
    var nextWait: nat
    var settled: seq<Settlement>
    ghost var log: seq<AuditEntry>

    ghost function View(): Broker
      reads this
    {
      Broker(pending, audit, timers, nextWait, settled, log)
    }

    constructor ()
      ensures View() == NEW
    {
      pending, audit, timers, nextWait, settled, log := map[], [], map[], 0, [], [];
    }

    method PushAudit(e: AuditEntry)
      modifies this`audit, this`log
      ensures audit == LastOf(old(audit) + [e], MAX_AUDIT_ENTRIES) && log == old(log) + [e]
    {
      audit := audit + [e];
      log := log + [e];
      ghost var pushed := audit;
      while |audit| > MAX_AUDIT_ENTRIES
        invariant log == old(log) + [e]
        invariant |audit| >= MAX_AUDIT_ENTRIES || audit == pushed
        invariant |audit| <= |pushed| && audit == pushed[|pushed| - |audit|..]
      {
        audit := audit[1..];
      }
    }

    // Nothing is returned when a decision for this key is already being awaited.
    method AwaitDecision(kind: WaitKind, conversationId: string, requestId: string) returns (wait: Option<nat>)
      modifies this
      ensures View() == Next(old(View()), Await(kind, conversationId, requestId))
      ensures wait == if Key(conversationId, requestId) in old(pending) then None else Some(old(nextWait))
    {
      var key := Key(conversationId, requestId);
      if key in pending { return None; }
      wait := Some(nextWait);
      pending := pending[key := Pending(kind, nextWait)];
      PushAudit(AuditEntry(kind, conversationId, requestId, Requested));
      timers := timers[nextWait := Timer(kind, conversationId, requestId)];
      nextWait := nextWait + 1;
    }

    method DecideWait(kind: WaitKind, conversationId: string, requestId: string, decision: string)
      returns (accepted: bool)
      modifies this
      ensures View() == Next(old(View()), Decide(kind, conversationId, requestId, decision))
      ensures accepted == Accepts(old(pending), kind, conversationId, requestId)
    {
      var key := Key(conversationId, requestId);
      if key !in pending || pending[key].kind != kind { return false; }
      var wait := pending[key].wait;
      pending := pending - {key};
      timers := timers - {wait};
      PushAudit(AuditEntry(kind, conversationId, requestId, Decided));
      settled := settled + [Settlement(wait, Some(decision))];
      accepted := true;
    }

    method Cancel(conversationId: string, requestId: string) returns (accepted: bool)
      modifies this
      ensures View() == Next(old(View()), CancelQuestion(conversationId, requestId))
      ensures accepted == Accepts(old(pending), Question, conversationId, requestId)
    {
      var key := Key(conversationId, requestId);
      if key !in pending || pending[key].kind != Question { return false; }
      var wait := pending[key].wait;
      pending := pending - {key};
      timers := timers - {wait};
      PushAudit(AuditEntry(Question, conversationId, requestId, Cancelled));
      settled := settled + [Settlement(wait, None)];
      accepted := true;
    }

    // The callback of a timer that is still armed.
    method OnTimeout(wait: nat)
      requires wait in timers
      modifies this
      ensures View() == Next(old(View()), TimerFires(wait))
    {
      var t := timers[wait];
      timers := timers - {wait};
      var key := Key(t.conversationId, t.requestId);
      if key in pending {
        pending := pending - {key};
        PushAudit(AuditEntry(t.kind, t.conversationId, t.requestId, Expired));
        settled := settled + [Settlement(wait, None)];
      }
    }

    method RecordPolicyDecision(kind: WaitKind, conversationId: string, requestId: string, allow: bool)
      modifies this
      ensures View() == Next(old(View()), RecordPolicy(kind, conversationId, requestId, allow))
    {
      PushAudit(AuditEntry(kind, conversationId, requestId, if allow then AutoAllow else AutoDeny));
    }
  }
}

// What holds over every run of the broker, whatever the interleaving.
module BrokerRuns {
  import opened Options
  import opened Sequences
  import opened JoinedTexts
  import opened InteractionBroker

  ghost function Run(steps: seq<Step>): Broker {
    if steps == [] then NEW else Next(Run(steps[..|steps| - 1]), steps[|steps| - 1])
  }

  // How often a promise was resolved.
  ghost function Times(settled: seq<Settlement>, wait: nat): nat {
    if settled == [] then 0
    else Times(settled[..|settled| - 1], wait) + if settled[|settled| - 1].wait == wait then 1 else 0
  }

  lemma TimesAppend(settled: seq<Settlement>, s: Settlement, wait: nat)
    ensures Times(settled + [s], wait) == Times(settled, wait) + if s.wait == wait then 1 else 0
  {
    assert (settled + [s])[..|settled|] == settled;
  }

  // Live timers and pending entries correspond one to one.
  ghost predicate TimersMatchPending(b: Broker) {
    && (forall k :: k in b.pending ==>
          b.pending[k].wait in b.timers
          && Key(b.timers[b.pending[k].wait].conversationId, b.timers[b.pending[k].wait].requestId) == k)
    && (forall w :: w in b.timers ==>
          var k := Key(b.timers[w].conversationId, b.timers[w].requestId);
          k in b.pending && b.pending[k].wait == w && b.pending[k].kind == b.timers[w].kind)
  }

  // Every promise handed out is resolved once, except those still pending, which are not resolved.
  ghost predicate SettledOnce(b: Broker) {
    && (forall w :: w in b.timers ==> w < b.nextWait)
    && (forall w: nat :: Times(b.settled, w) == if w < b.nextWait && w !in b.timers then 1 else 0)
  }

  predicate IsClosing(e: AuditEvent) { e == Decided || e == Expired || e == Cancelled }

  predicate Concerns(e: AuditEntry, key: string) {
    Key(e.conversationId, e.requestId) == key && (e.event == Requested || IsClosing(e.event))
  }

  // The kind of the request that is open for a key at the end of a log.
  ghost function OpenRequest(log: seq<AuditEntry>, key: string): Option<WaitKind> {
    if log == [] then None
    else
      var e := log[|log| - 1];
      if !Concerns(e, key) then OpenRequest(log[..|log| - 1], key)
      else if e.event == Requested then Some(e.kind) else None
  }

  // A request is logged only when none is open for its key; a decision, expiry or cancellation only
  // when one of its kind is.
  ghost predicate Alternates(log: seq<AuditEntry>, key: string) {
    log == [] ||
    var n := |log| - 1;
    && Alternates(log[..n], key)
    && (Concerns(log[n], key) ==>
          OpenRequest(log[..n], key) == if log[n].event == Requested then None else Some(log[n].kind))
  }

  ghost predicate LogMatchesPending(b: Broker) {
    forall key ::
      Alternates(b.log, key)
      && OpenRequest(b.log, key) == if key in b.pending then Some(b.pending[key].kind) else None
  }

  ghost predicate Inv(b: Broker) {
    && TimersMatchPending(b) && SettledOnce(b) && LogMatchesPending(b)
    && b.audit == LastOf(b.log, MAX_AUDIT_ENTRIES)
  }

  lemma AuditKept(audit: seq<AuditEntry>, log: seq<AuditEntry>, e: AuditEntry)
    requires audit == LastOf(log, MAX_AUDIT_ENTRIES)
    ensures LastOf(audit + [e], MAX_AUDIT_ENTRIES) == LastOf(log + [e], MAX_AUDIT_ENTRIES)
  {}

  // One more log entry, read for one key.
  lemma LogStep(log: seq<AuditEntry>, e: AuditEntry, key: string)
    requires Alternates(log, key)
    requires Concerns(e, key) ==> OpenRequest(log, key) == if e.event == Requested then None else Some(e.kind)
    ensures Alternates(log + [e], key)
    ensures OpenRequest(log + [e], key)
            == if !Concerns(e, key) then OpenRequest(log, key) else if e.event == Requested then Some(e.kind) else None
  {
    assert (log + [e])[..|log|] == log;
  }

  lemma LogStepAll(b: Broker, after: Broker, e: AuditEntry)
    requires LogMatchesPending(b) && after.log == b.log + [e]
    requires var k := Key(e.conversationId, e.requestId);
             && (forall key :: key != k || e.event == AutoAllow || e.event == AutoDeny ==>
                   ((key in after.pending <==> key in b.pending)
                    && (key in b.pending ==> after.pending[key] == b.pending[key])))
             && (e.event == Requested ==> k !in b.pending && k in after.pending && after.pending[k].kind == e.kind)
             && (IsClosing(e.event) ==> k in b.pending && b.pending[k].kind == e.kind && k !in after.pending)
    ensures LogMatchesPending(after)
  {
    forall key
      ensures Alternates(after.log, key)
      ensures OpenRequest(after.log, key) == if key in after.pending then Some(after.pending[key].kind) else None
    {
      LogStep(b.log, e, key);
    }
  }

  lemma StepKeepsTimers(b: Broker, step: Step)
    requires TimersMatchPending(b) && SettledOnce(b)
    ensures TimersMatchPending(Next(b, step))
  {}

  lemma StepSettlesOnce(b: Broker, step: Step)
    requires TimersMatchPending(b) && SettledOnce(b)
    ensures SettledOnce(Next(b, step))
  {
    var after := Next(b, step);
    if after.settled != b.settled {
      var s := after.settled[|after.settled| - 1];
      assert after.settled == b.settled + [s];
      forall w: nat ensures Times(after.settled, w) == if w < after.nextWait && w !in after.timers then 1 else 0 {
        TimesAppend(b.settled, s, w);
      }
    }
  }

  lemma StepKeepsLog(b: Broker, step: Step)
    requires TimersMatchPending(b) && LogMatchesPending(b) && b.audit == LastOf(b.log, MAX_AUDIT_ENTRIES)
    ensures LogMatchesPending(Next(b, step)) && Next(b, step).audit == LastOf(Next(b, step).log, MAX_AUDIT_ENTRIES)
  {
    hide LogMatchesPending;
    var after := Next(b, step);
    if after.log != b.log {
      var e := after.log[|after.log| - 1];
      assert after.log == b.log + [e];
      AuditKept(b.audit, b.log, e);
      LogStepAll(b, after, e);
    } else {
      assert after == b;
    }
  }

  lemma StepKeepsInv(b: Broker, step: Step)
    requires Inv(b)
    ensures Inv(Next(b, step))
  {
    StepKeepsTimers(b, step);
    StepSettlesOnce(b, step);
    StepKeepsLog(b, step);
  }

  lemma {:induction false} EveryRunKeepsInv(steps: seq<Step>)
    ensures Inv(Run(steps))
  {
    if steps != [] {
      EveryRunKeepsInv(steps[..|steps| - 1]);
      StepKeepsInv(Run(steps[..|steps| - 1]), steps[|steps| - 1]);
    }
  }

  // In every run: each wait is resolved at most once, and exactly once unless it is still pending.
  lemma {:induction false} EveryWaitResolvedExactlyOnce(steps: seq<Step>, wait: nat)
    ensures var b := Run(steps);
            Times(b.settled, wait) ==
              if wait < b.nextWait && !(exists k :: k in b.pending && b.pending[k].wait == wait) then 1 else 0
  {
    EveryRunKeepsInv(steps);
  }

  // Entry j closes the request logged at i: the first entry about its key after i.
  ghost predicate ClosedAt(log: seq<AuditEntry>, key: string, i: int, j: int) {
    && 0 <= i < j < |log| && Concerns(log[j], key) && IsClosing(log[j].event) && log[j].kind == log[i].kind
    && forall m :: i < m < j ==> !Concerns(log[m], key)
  }

  ghost predicate LastAbout(log: seq<AuditEntry>, key: string, i: int) {
    0 <= i < |log| && forall m :: i < m < |log| ==> !Concerns(log[m], key)
  }

  lemma {:induction false} RequestClosedOrOpen(log: seq<AuditEntry>, key: string, i: int)
    requires Alternates(log, key) && 0 <= i < |log| && Concerns(log[i], key) && log[i].event == Requested
    ensures (exists j :: ClosedAt(log, key, i, j))
            || (LastAbout(log, key, i) && OpenRequest(log, key) == Some(log[i].kind))
  {
    var n := |log| - 1;
    if i < n {
      RequestClosedOrOpen(log[..n], key, i);
      if j :| ClosedAt(log[..n], key, i, j) {
        assert ClosedAt(log, key, i, j);
      } else if Concerns(log[n], key) {
        assert ClosedAt(log, key, i, n);
      }
    }
  }

  // In every run each 'requested' entry is followed, as the next entry about its key, by exactly one
  // decided, expired or cancelled entry of its kind -- or is the last one and its wait is pending.
  lemma {:induction false} EveryRequestClosedOnce(steps: seq<Step>, i: int)
    requires 0 <= i < |Run(steps).log| && Run(steps).log[i].event == Requested
    ensures var b, key := Run(steps), Key(Run(steps).log[i].conversationId, Run(steps).log[i].requestId);
            (exists j :: ClosedAt(b.log, key, i, j)) <==> !(LastAbout(b.log, key, i) && key in b.pending)
    ensures var b, key := Run(steps), Key(Run(steps).log[i].conversationId, Run(steps).log[i].requestId);
            forall j, l :: ClosedAt(b.log, key, i, j) && ClosedAt(b.log, key, i, l) ==> j == l
  {
    EveryRunKeepsInv(steps);
    var b := Run(steps);
    var key := Key(b.log[i].conversationId, b.log[i].requestId);
    RequestClosedOrOpen(b.log, key, i);
    hide Alternates, OpenRequest;
  }

  // The stored trail is the last 200 entries of the full log.
  lemma {:induction false} AuditIsTheEndOfTheLog(steps: seq<Step>)
    ensures var audit, log := Run(steps).audit, Run(steps).log;
            |audit| == (if |log| > 200 then 200 else |log|) && audit == log[|log| - |audit|..]
  {
    EveryRunKeepsInv(steps);
  }

  // ----- which conversations can share a key -----

  // Checkable before any call: one conversation id is the other followed by a colon and more.
  predicate Collide(c: string, d: string) { c + ":" <= d || d + ":" <= c }

  // Two different conversations share some key exactly when they collide; within one conversation
  // different requests never share one.
  lemma {:induction false} KeysCollideExactly(c: string, d: string)
    ensures c != d ==> ((exists r, q :: Key(c, r) == Key(d, q)) <==> Collide(c, d))
    ensures c == d ==> forall r, q :: Key(c, r) == Key(d, q) <==> r == q
  {
    forall r, q ensures Key(c, r) == Joined(c, ':', r) && Key(d, q) == Joined(d, ':', q) {}
    if c != d {
      FirstTextsCollideExactly(c, d, ':');
      if r, q :| Joined(c, ':', r) == Joined(d, ':', q) { assert Key(c, r) == Key(d, q); }
      if r, q :| Key(c, r) == Key(d, q) { assert Joined(c, ':', r) == Joined(d, ':', q); }
    } else {
      forall r, q ensures Key(c, r) == Key(d, q) <==> r == q { SameKeyExactly(c, r, d, q, ':'); }
    }
  }

  // A conversation with a colon in its id can collide with one without.
  lemma {:induction false} KeysCollide()
    ensures exists r, q :: Key("a:b", r) == Key("a", q)
    ensures Key("a:b", "c") == Key("a", "b:c")
  {
    KeysCollideExactly("a:b", "a");
    assert "a" + ":" == "a:b"[..2];
  }

  lemma {:induction false} KeysDifferWithoutColon(c: string, r: string, d: string, q: string)
    requires ':' !in c && ':' !in d && Key(c, r) == Key(d, q)
    ensures c == d && r == q
  {
    KeysCollideExactly(c, d);
    CollidingIdHasColon(c, d);
  }

  lemma CollidingIdHasColon(c: string, d: string)
    ensures Collide(c, d) ==> ':' in c || ':' in d
  {
    if c + ":" <= d { assert d[|c|] == ':'; }
    if d + ":" <= c { assert c[|d|] == ':'; }
  }

  // ----- whose entry closes a request -----

  // Some run closes a request of conversation c by an entry about conversation d.
  ghost predicate CrossClosed(steps: seq<Step>, i: int, j: int, c: string, d: string) {
    var log := Run(steps).log;
    && 0 <= i < |log| && log[i].event == Requested && log[i].conversationId == c
    && ClosedAt(log, Key(c, log[i].requestId), i, j) && log[j].conversationId == d
  }

  // A request is closed by an entry about that very request, unless its conversation collides with
  // the entry's.
  lemma {:induction false} ClosedByItsOwn(steps: seq<Step>, i: int, j: int)
    requires 0 <= i < |Run(steps).log| && Run(steps).log[i].event == Requested
    requires ClosedAt(Run(steps).log, Key(Run(steps).log[i].conversationId, Run(steps).log[i].requestId), i, j)
    ensures var own, other := Run(steps).log[i], Run(steps).log[j];
            (other.conversationId == own.conversationId && other.requestId == own.requestId)
            || (other.conversationId != own.conversationId && Collide(own.conversationId, other.conversationId))
  {
    var own, other := Run(steps).log[i], Run(steps).log[j];
    hide Run;
    assert Key(own.conversationId, own.requestId) == Key(other.conversationId, other.requestId);
    KeysCollideExactly(own.conversationId, other.conversationId);
  }

  lemma DecisionCloses(c: string, r: string, d: string, q: string)
    requires Key(c, r) == Key(d, q)
    ensures CrossClosed([Await(Question, c, r), Decide(Question, d, q, "")], 0, 1, c, d)
  {
    var steps := [Await(Question, c, r), Decide(Question, d, q, "")];
    assert steps[..1] == [Await(Question, c, r)] && steps[..1][..0] == [];
    assert Run(steps[..1]) == Next(NEW, steps[0]);
    assert Run(steps) == Next(Run(steps[..1]), steps[1]);
    assert Run(steps).log == [AuditEntry(Question, c, r, Requested), AuditEntry(Question, d, q, Decided)];
  }

  // Another conversation's entry can close a request in some run exactly when the two collide.
  lemma {:induction false} RequestsAreIsolatedExactly(c: string, d: string)
    requires c != d
    ensures (exists steps, i, j :: CrossClosed(steps, i, j, c, d)) <==> Collide(c, d)
  {
    if steps, i, j :| CrossClosed(steps, i, j, c, d) { ClosedByItsOwn(steps, i, j); }
    if Collide(c, d) {
      KeysCollideExactly(c, d);
      var r, q :| Key(c, r) == Key(d, q);
      DecisionCloses(c, r, d, q);
    }
  }
}
