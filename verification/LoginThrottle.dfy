// The sliding-window login throttle (login-throttle.ts): timestamps are filtered and pruned
// lazily, yet every decision is the one the full history of accepted attempts would give.

module LoginThrottle {
  import opened Options
  import opened OrderedMaps

  const MAX_KEYS := 1024

  datatype ThrottleOptions = ThrottleOptions(maxAttempts: int, windowMs: int)

  // `NotANumber` is what the arithmetic yields when there is no oldest attempt to wait for.
  datatype Verdict = Proceed | Wait(seconds: int) | NotANumber

  // A setting that did not parse, or is not positive, falls back to its default.
  function Positive(parsed: Option<int>, default: int): int {
    if parsed.Some? && parsed.value > 0 then parsed.value else default
  }

  function DefaultOptions(maxAttempts: Option<int>, windowMs: Option<int>): ThrottleOptions {
    ThrottleOptions(Positive(maxAttempts, 10), Positive(windowMs, 60000))
  }

  // Direct loopback callers are exempt; a forwarded claim never changes the key.
  function ThrottleKey(remoteAddress: Option<string>, hasForwardedClaim: bool): Option<string> {
    var remote := remoteAddress.GetOr("unknown");
    if !hasForwardedClaim && remote in {"127.0.0.1", "::1", "::ffff:127.0.0.1"} then None else Some(remote)
  }

  type Attempts = OrderedMap<string, seq<int>>

  // The timestamps later than the cutoff.
  function Recent(times: seq<int>, cutoff: int): seq<int> {
    if times == [] then []
    else
      var at := times[|times| - 1];
      Recent(times[..|times| - 1], cutoff) + if at > cutoff then [at] else []
  }

  predicate NoneAfter(times: seq<int>, t: int) {
    forall i :: 0 <= i < |times| ==> times[i] <= t
  }

  function CeilSeconds(ms: int): int { -((-ms) / 1000) }

  function WaitFor(recent: seq<int>, options: ThrottleOptions, now: int): Verdict {
    if recent == [] then NotANumber
    else
      var seconds := CeilSeconds(recent[0] + options.windowMs - now);
      Wait(if seconds < 1 then 1 else seconds)
  }

  function Prune(attempts: Attempts, keys: seq<string>, cutoff: int): Attempts
    decreases |keys|
  {
    if keys == [] then attempts
    else
      var k := keys[0];
      var kept := if k in attempts.vals && NoneAfter(attempts.vals[k], cutoff) then Remove(attempts, k) else attempts;
      if |kept.keys| <= MAX_KEYS then kept else Prune(kept, keys[1..], cutoff)
  }

  function Take(attempts: Attempts, options: ThrottleOptions, key: Option<string>, now: int): (Attempts, Verdict) {
    if key == None then (attempts, Proceed)
    else
      var cutoff := now - options.windowMs;
      var recent := Recent(Lookup(attempts, key.value).GetOr([]), cutoff);
      if |recent| >= options.maxAttempts then (Put(attempts, key.value, recent), WaitFor(recent, options, now))
      else
        var grown := Put(attempts, key.value, recent + [now]);
        (if |grown.keys| > MAX_KEYS then Prune(grown, grown.keys, cutoff) else grown, Proceed)
  }

  class Throttle {
    var attempts: Attempts
    const options: ThrottleOptions

    constructor (options: ThrottleOptions)
      ensures this.options == options && attempts == Empty()
    {
      this.options := options;
      attempts := Empty();
    }

    // The options as configured, with no overrides.
    constructor Configured(maxAttempts: Option<int>, windowMs: Option<int>)
      ensures options == DefaultOptions(maxAttempts, windowMs) && attempts == Empty()
    {
      options := DefaultOptions(maxAttempts, windowMs);
      attempts := Empty();
    }

    // One request: an exempt caller proceeds and leaves no trace; any other is counted under its socket
    // address, whatever it claims to forward.
    method TakeFrom(remoteAddress: Option<string>, hasForwardedClaim: bool, now: int) returns (verdict: Verdict)
      modifies this
      ensures (attempts, verdict) == Take(old(attempts), options, ThrottleKey(remoteAddress, hasForwardedClaim), now)
      ensures hasForwardedClaim ==>
                (attempts, verdict) == Take(old(attempts), options, Some(remoteAddress.GetOr("unknown")), now)
    {
      hide Take;
      verdict := TakeAttempt(ThrottleKey(remoteAddress, hasForwardedClaim), now);
    }

    method TakeAttempt(key: Option<string>, now: int) returns (verdict: Verdict)
      modifies this
      ensures (attempts, verdict) == Take(old(attempts), options, key, now)
    {
      hide Recent, Prune, Consistent;
      if key == None { return Proceed; }
      var cutoff := now - options.windowMs;
      var recent := FilterRecent(Lookup(attempts, key.value).GetOr([]), cutoff);
      if |recent| >= options.maxAttempts {
        attempts := Put(attempts, key.value, recent);
        return WaitFor(recent, options, now);
      }
      attempts := Put(attempts, key.value, recent + [now]);
      if |attempts.keys| > MAX_KEYS { attempts := PruneStale(attempts, cutoff); }
      verdict := Proceed;
    }

    static method PruneStale(attempts: Attempts, cutoff: int) returns (kept: Attempts)
      ensures kept == Prune(attempts, attempts.keys, cutoff)
    {
      kept := attempts;
      var keys := attempts.keys;
      for i := 0 to |keys|
        invariant Prune(attempts, keys, cutoff) == Prune(kept, keys[i..], cutoff)
      {
        assert keys[i..][1..] == keys[i + 1..];
        if keys[i] in kept.vals && NoneAfter(kept.vals[keys[i]], cutoff) { kept := Remove(kept, keys[i]); }
        if |kept.keys| <= MAX_KEYS { break; }
      }
    }

    static method FilterRecent(times: seq<int>, cutoff: int) returns (recent: seq<int>)
      ensures recent == Recent(times, cutoff)
    {
      recent := [];
      for i := 0 to |times|
        invariant recent == Recent(times[..i], cutoff)
      {
        assert times[..i + 1][..i] == times[..i];
        if times[i] > cutoff { recent := recent + [times[i]]; }
      }
      assert times[..|times|] == times;
    }
  }

  // ----- whom the throttle counts -----

  predicate Loopback(remoteAddress: Option<string>) {
    || remoteAddress == Some("127.0.0.1") || remoteAddress == Some("::1")
    || remoteAddress == Some("::ffff:127.0.0.1")
  }

  // Whatever the allowance, a caller goes through without a trace at any time exactly when it comes
  // straight from this machine; any other is counted under its address, a missing one as unknown.
  lemma {:induction false} ExemptExactly(options: ThrottleOptions, remoteAddress: Option<string>, claim: bool)
    ensures (forall attempts, now ::
               Take(attempts, options, ThrottleKey(remoteAddress, claim), now) == (attempts, Proceed))
            <==> Loopback(remoteAddress) && !claim
    ensures !(Loopback(remoteAddress) && !claim) ==>
              ThrottleKey(remoteAddress, claim)
              == Some(match remoteAddress case Some(address) => address case None => "unknown")
  {
    hide Prune, Consistent;
    var key := ThrottleKey(remoteAddress, claim);
    if key.Some? {
      var none: Attempts := Empty();
      assert Take(none, options, key, 0) != (none, Proceed) by { FirstAttemptLeavesATrace(options, key.value); }
    }
  }

  lemma FirstAttemptLeavesATrace(options: ThrottleOptions, key: string)
    ensures var none: Attempts := Empty(); Take(none, options, Some(key), 0) != (none, Proceed)
  {
    var none: Attempts := Empty();
    assert Put(none, key, [0]).keys == [key];
    assert Recent([], 0 - options.windowMs) + [0] == [0];
  }

  // Some attempt is later than the cutoff.
  ghost predicate Lives(attempts: Attempts, k: string, cutoff: int) {
    k in attempts.vals && exists i :: 0 <= i < |attempts.vals[k]| && attempts.vals[k][i] > cutoff
  }

  lemma {:induction false} PruneDropsOnlyTheDead(attempts: Attempts, keys: seq<string>, cutoff: int, k: string)
    ensures Lives(attempts, k, cutoff) ==> Lookup(Prune(attempts, keys, cutoff), k) == Lookup(attempts, k)
    ensures k in Prune(attempts, keys, cutoff).vals ==> Lookup(Prune(attempts, keys, cutoff), k) == Lookup(attempts, k)
    ensures |Prune(attempts, keys, cutoff).keys| > 1024 && k in keys && k in Prune(attempts, keys, cutoff).vals ==>
              Lives(attempts, k, cutoff)
    decreases |keys|
  {
    if keys != [] {
      var first := keys[0];
      var kept := if first in attempts.vals && NoneAfter(attempts.vals[first], cutoff)
                  then Remove(attempts, first) else attempts;
      if |kept.keys| > 1024 { PruneDropsOnlyTheDead(kept, keys[1..], cutoff, k); }
      hide Consistent;
      assert keys == [first] + keys[1..];
    }
  }

  // An attempt files the caller's own times, and may prune afterwards.
  lemma TakeInTwo(attempts: Attempts, options: ThrottleOptions, key: string, now: int)
    returns (filed: Attempts, pruned: bool)
    ensures var (after, verdict) := Take(attempts, options, Some(key), now);
            && after == (if pruned then Prune(filed, filed.keys, now - options.windowMs) else filed)
            && (!pruned && verdict == Proceed ==> |after.keys| <= 1024)
    ensures pruned ==> |filed.keys| > 1024
    ensures |filed.keys| <= |attempts.keys| + 1
    ensures forall k :: k != key ==> Lookup(filed, k) == Lookup(attempts, k)
  {
    hide Recent, Prune, Consistent;
    var recent := Recent(Lookup(attempts, key).GetOr([]), now - options.windowMs);
    if |recent| >= options.maxAttempts {
      filed, pruned := Put(attempts, key, recent), false;
    } else {
      filed := Put(attempts, key, recent + [now]);
      pruned := |filed.keys| > 1024;
    }
  }

  // An attempt makes the throttle forget another caller only past 1024 callers, and only one all of
  // whose attempts are out of the window; when one that proceeds leaves more than 1024, each has an
  // attempt within it.
  lemma {:induction false} ForgetsOnlyTheDead(attempts: Attempts, options: ThrottleOptions, key: string, now: int,
                                              k: string)
    requires k != key
    ensures var (after, verdict) := Take(attempts, options, Some(key), now);
            var cutoff := now - options.windowMs;
            && (k in attempts.vals && k !in after.vals ==> |attempts.keys| >= 1024 && !Lives(attempts, k, cutoff))
            && (k in after.vals ==> Lookup(after, k) == Lookup(attempts, k))
            && (verdict == Proceed && |after.keys| > 1024 && k in after.vals ==> Lives(attempts, k, cutoff))
  {
    hide Consistent, Take, Prune, Recent;
    var filed, pruned := TakeInTwo(attempts, options, key, now);
    PruneDropsOnlyTheDead(filed, filed.keys, now - options.windowMs, k);
    SameLife(attempts, filed, k, now - options.windowMs);
    KeyIsListed(filed, k);
    hide Take, Prune, Lives, Consistent, Recent, WaitFor;
    var after := Take(attempts, options, Some(key), now).0;
    if k in after.vals { assert Lookup(after, k) == Lookup(filed, k); }
  }

  lemma KeyIsListed(attempts: Attempts, k: string)
    ensures k in attempts.keys <==> k in attempts.vals
  {}

  lemma SameLife(attempts: Attempts, filed: Attempts, k: string, cutoff: int)
    requires Lookup(filed, k) == Lookup(attempts, k)
    ensures Lives(filed, k, cutoff) <==> Lives(attempts, k, cutoff)
  {}

  // A positive whole setting counts as it is, any other as its default: ten attempts a minute.
  lemma {:induction false} SettingsCountWhenPositive(maxAttempts: Option<int>, windowMs: Option<int>)
    ensures forall n :: maxAttempts == Some(n) && n > 0 ==> DefaultOptions(maxAttempts, windowMs).maxAttempts == n
    ensures forall n :: windowMs == Some(n) && n > 0 ==> DefaultOptions(maxAttempts, windowMs).windowMs == n
    ensures (forall n :: maxAttempts == Some(n) ==> n <= 0) ==> DefaultOptions(maxAttempts, windowMs).maxAttempts == 10
    ensures (forall n :: windowMs == Some(n) ==> n <= 0) ==> DefaultOptions(maxAttempts, windowMs).windowMs == 60000
  {}

  // ----- the specification: nothing is ever forgotten -----

  datatype Request = Request(key: Option<string>, now: int)
  datatype Accepted = Accepted(key: string, at: int)

  function TimesOf(history: seq<Accepted>, key: string): seq<int> {
    if history == [] then []
    else
      var last := history[|history| - 1];
      TimesOf(history[..|history| - 1], key) + if last.key == key then [last.at] else []
  }

  function Decide(history: seq<Accepted>, options: ThrottleOptions, r: Request): Verdict {
    if r.key == None then Proceed
    else
      var recent := Recent(TimesOf(history, r.key.value), r.now - options.windowMs);
      if |recent| >= options.maxAttempts then WaitFor(recent, options, r.now) else Proceed
  }

  // What the throttle holds, and what it has accepted, after a run of requests.
  ghost function Stored(options: ThrottleOptions, run: seq<Request>): Attempts {
    if run == [] then Empty()
    else Take(Stored(options, run[..|run| - 1]), options, run[|run| - 1].key, run[|run| - 1].now).0
  }

  ghost function History(options: ThrottleOptions, run: seq<Request>): seq<Accepted> {
    if run == [] then [] else Remember(History(options, run[..|run| - 1]), options, run[|run| - 1])
  }

  ghost function VerdictAt(options: ThrottleOptions, run: seq<Request>, i: nat): Verdict
    requires i < |run|
  {
    Take(Stored(options, run[..i]), options, run[i].key, run[i].now).1
  }

  ghost predicate TimeFlowsForward(run: seq<Request>) {
    forall i, j :: 0 <= i < j < |run| ==> run[i].now <= run[j].now
  }

  // ----- filtering facts -----

  lemma {:induction false} RecentOfRecent(times: seq<int>, early: int, late: int)
    requires early <= late
    ensures Recent(Recent(times, early), late) == Recent(times, late)
  {
    if times != [] {
      var front, at := times[..|times| - 1], times[|times| - 1];
      RecentOfRecent(front, early, late);
      if at > early {
        var r := Recent(times, early);
        assert r[..|r| - 1] == Recent(front, early);
      } else {
        assert Recent(times, early) == Recent(front, early);
      }
    }
  }

  lemma RecentAppend(times: seq<int>, at: int, cutoff: int)
    ensures Recent(times + [at], cutoff) == Recent(times, cutoff) + if at > cutoff then [at] else []
  {
    assert (times + [at])[..|times|] == times;
  }

  lemma {:induction false} NothingRecent(times: seq<int>, early: int, late: int)
    requires NoneAfter(times, early) && early <= late
    ensures Recent(times, late) == []
  {
    if times != [] {
      NothingRecent(times[..|times| - 1], early, late);
    }
  }

  lemma {:induction false} RecentShrinks(times: seq<int>, early: int, late: int)
    requires early <= late
    ensures |Recent(times, late)| <= |Recent(times, early)|
    ensures Recent(times, early) != [] && Recent(times, early)[0] <= late ==>
              |Recent(times, late)| < |Recent(times, early)|
  {
    if times != [] { RecentShrinks(times[..|times| - 1], early, late); }
  }

  // ----- the lazily pruned map answers like the full history -----

  // Seen through any cutoff from `since` on, the stored timestamps are the accepted ones.
  ghost predicate Agrees(attempts: Attempts, history: seq<Accepted>, since: int) {
    forall key, cutoff :: since <= cutoff ==> SameView(attempts, history, key, cutoff)
  }

  ghost predicate SameView(attempts: Attempts, history: seq<Accepted>, key: string, cutoff: int) {
    Recent(Lookup(attempts, key).GetOr([]), cutoff) == Recent(TimesOf(history, key), cutoff)
  }

  lemma {:induction false} PruneKeepsView(attempts: Attempts, keys: seq<string>, cutoff: int, key: string, later: int)
    decreases |keys|
    requires cutoff <= later
    ensures Recent(Lookup(Prune(attempts, keys, cutoff), key).GetOr([]), later)
            == Recent(Lookup(attempts, key).GetOr([]), later)
  {
    if keys != [] {
      var k := keys[0];
      var gone := k in attempts.vals && NoneAfter(attempts.vals[k], cutoff);
      var kept := if gone then Remove(attempts, k) else attempts;
      if gone && k == key { NothingRecent(attempts.vals[k], cutoff, later); }
      if |kept.keys| > MAX_KEYS { PruneKeepsView(kept, keys[1..], cutoff, key, later); }
    }
  }

  lemma TimesOfAppend(history: seq<Accepted>, a: Accepted, key: string)
    ensures TimesOf(history + [a], key) == TimesOf(history, key) + if a.key == key then [a.at] else []
  {
    assert (history + [a])[..|history|] == history;
  }

  ghost function Remember(history: seq<Accepted>, options: ThrottleOptions, r: Request): seq<Accepted> {
    if r.key.Some? && Decide(history, options, r) == Proceed then history + [Accepted(r.key.value, r.now)] else history
  }

  // What a request adds to one key's timestamps, seen through a later cutoff.
  ghost function Added(proceeds: bool, r: Request, key: string, later: int): seq<int> {
    if proceeds && r.key == Some(key) && r.now > later then [r.now] else []
  }

  lemma TakeView(attempts: Attempts, options: ThrottleOptions, r: Request, key: string, later: int)
    requires r.key.Some? && r.now - options.windowMs <= later
    ensures var (after, verdict) := Take(attempts, options, r.key, r.now);
            Recent(Lookup(after, key).GetOr([]), later)
            == Recent(Lookup(attempts, key).GetOr([]), later) + Added(verdict == Proceed, r, key, later)
  {
    hide Recent, Prune, Consistent;
    var cutoff := r.now - options.windowMs;
    var stored := Lookup(attempts, r.key.value).GetOr([]);
    var recent := Recent(stored, cutoff);
    RecentOfRecent(stored, cutoff, later);
    RecentAppend(recent, r.now, later);
    var grown := Put(attempts, r.key.value, recent + [r.now]);
    PruneKeepsView(grown, grown.keys, cutoff, key, later);
  }

  lemma RememberView(history: seq<Accepted>, options: ThrottleOptions, r: Request, key: string, later: int)
    requires r.key.Some?
    ensures Recent(TimesOf(Remember(history, options, r), key), later)
            == Recent(TimesOf(history, key), later) + Added(Decide(history, options, r) == Proceed, r, key, later)
  {
    hide TimesOf, Recent, Decide;
    TimesOfAppend(history, Accepted(r.key.value, r.now), key);
    RecentAppend(TimesOf(history, key), r.now, later);
    assert TimesOf(history, key) + [] == TimesOf(history, key);
    assert Recent(TimesOf(history, key), later) + [] == Recent(TimesOf(history, key), later);
  }

  // One key's view after a request, when the request's own key was already seen rightly.
  lemma StepView(attempts: Attempts, history: seq<Accepted>, options: ThrottleOptions, r: Request,
                 key: string, later: int)
    requires r.key.Some? && r.now - options.windowMs <= later
    requires SameView(attempts, history, r.key.value, r.now - options.windowMs)
    requires SameView(attempts, history, key, later)
    ensures Take(attempts, options, r.key, r.now).1 == Decide(history, options, r)
    ensures SameView(Take(attempts, options, r.key, r.now).0, Remember(history, options, r), key, later)
  {
    hide Take, Remember, Decide, Recent, TimesOf;
    SameVerdict(attempts, history, options, r);
    TakeView(attempts, options, r, key, later);
    RememberView(history, options, r, key, later);
  }

  lemma SameVerdict(attempts: Attempts, history: seq<Accepted>, options: ThrottleOptions, r: Request)
    requires r.key.Some? && SameView(attempts, history, r.key.value, r.now - options.windowMs)
    ensures Take(attempts, options, r.key, r.now).1 == Decide(history, options, r)
  {
    hide Recent, TimesOf, Prune, Consistent;
  }

  lemma StepAgrees(attempts: Attempts, history: seq<Accepted>, options: ThrottleOptions, r: Request, since: int)
    requires Agrees(attempts, history, since) && since <= r.now - options.windowMs
    ensures Take(attempts, options, r.key, r.now).1 == Decide(history, options, r)
    ensures Agrees(Take(attempts, options, r.key, r.now).0, Remember(history, options, r), r.now - options.windowMs)
  {
    var cutoff := r.now - options.windowMs;
    if r.key.Some? {
      assert SameView(attempts, history, r.key.value, cutoff);
      StepView(attempts, history, options, r, r.key.value, cutoff);
      hide Take, Remember, Decide, SameView;
      forall k, later | cutoff <= later
        ensures SameView(Take(attempts, options, r.key, r.now).0, Remember(history, options, r), k, later)
      {
        assert SameView(attempts, history, k, later);
        StepView(attempts, history, options, r, k, later);
      }
    }
  }

  lemma {:induction false} RunAgrees(options: ThrottleOptions, run: seq<Request>, since: int)
    requires TimeFlowsForward(run) && (run != [] ==> run[|run| - 1].now - options.windowMs <= since)
    ensures Agrees(Stored(options, run), History(options, run), since)
  {
    if run != [] {
      var front, r := run[..|run| - 1], run[|run| - 1];
      RunAgrees(options, front, r.now - options.windowMs);
      StepAgrees(Stored(options, front), History(options, front), options, r, r.now - options.windowMs);
    }
  }

  // Whatever was filtered away or pruned, each decision is the full history's decision.
  lemma {:induction false} DecisionsMatchFullHistory(options: ThrottleOptions, run: seq<Request>, i: nat)
    requires TimeFlowsForward(run) && i < |run|
    ensures VerdictAt(options, run, i) == Decide(History(options, run[..i]), options, run[i])
  {
    var since := run[i].now - options.windowMs;
    RunAgrees(options, run[..i], since);
    StepAgrees(Stored(options, run[..i]), History(options, run[..i]), options, run[i], since);
  }

  // ----- when there is no number to wait for -----

  lemma {:induction false} NothingStoredWithoutAllowance(options: ThrottleOptions, run: seq<Request>)
    requires options.maxAttempts <= 0
    ensures forall k :: k in Stored(options, run).vals ==> Stored(options, run).vals[k] == []
  {
    hide Consistent, Prune;
    if run != [] { NothingStoredWithoutAllowance(options, run[..|run| - 1]); }
  }

  // A caller is told no number of seconds exactly when it is counted and nothing is ever allowed.
  lemma {:induction false} NoNumberExactly(options: ThrottleOptions, run: seq<Request>, i: nat)
    requires i < |run|
    ensures VerdictAt(options, run, i) == NotANumber <==> run[i].key.Some? && options.maxAttempts <= 0
  {
    if options.maxAttempts <= 0 { NothingStoredWithoutAllowance(options, run[..i]); }
    hide Stored, Consistent, Prune;
  }

  // With the configured options that never happens.
  lemma {:induction false} ConfiguredThrottleTellsANumber(maxAttempts: Option<int>, windowMs: Option<int>,
                                                          run: seq<Request>, i: nat)
    requires i < |run|
    ensures VerdictAt(DefaultOptions(maxAttempts, windowMs), run, i) != NotANumber
  {
    NoNumberExactly(DefaultOptions(maxAttempts, windowMs), run, i);
    hide VerdictAt;
  }

  // ----- no window ever holds more than the allowed number of accepted attempts -----

  // The accepted timestamps in (t - windowMs, t].
  ghost function Window(times: seq<int>, t: int, windowMs: int): seq<int> {
    if times == [] then []
    else
      var at := times[|times| - 1];
      Window(times[..|times| - 1], t, windowMs) + if t - windowMs < at <= t then [at] else []
  }

  ghost predicate InTimeOrder(times: seq<int>) {
    forall i, j :: 0 <= i < j < |times| ==> times[i] <= times[j]
  }

  // How full attempt i found its own window, itself included.
  ghost function Load(times: seq<int>, options: ThrottleOptions, i: int): int
    requires 0 <= i < |times|
  {
    |Recent(times[..i + 1], times[i] - options.windowMs)|
  }

  ghost predicate WithinLimits(times: seq<int>, options: ThrottleOptions) {
    InTimeOrder(times) && forall i :: 0 <= i < |times| ==> Load(times, options, i) <= options.maxAttempts
  }

  lemma FrontWithinLimits(times: seq<int>, options: ThrottleOptions)
    requires times != [] && WithinLimits(times, options)
    ensures WithinLimits(times[..|times| - 1], options)
  {
    var front := times[..|times| - 1];
    forall i | 0 <= i < |front| ensures Load(front, options, i) == Load(times, options, i) {
      assert front[..i + 1] == times[..i + 1];
    }
  }

  lemma GrowWithinLimits(times: seq<int>, options: ThrottleOptions, at: int)
    requires WithinLimits(times, options) && NoneAfter(times, at)
    requires |Recent(times + [at], at - options.windowMs)| <= options.maxAttempts
    ensures WithinLimits(times + [at], options)
  {
    hide Recent;
    var grown := times + [at];
    forall i | 0 <= i < |times| ensures Load(grown, options, i) == Load(times, options, i) && times[i] <= at {
      assert grown[..i + 1] == times[..i + 1];
    }
    assert grown[..|times| + 1] == grown;
    assert Load(grown, options, |times|) <= options.maxAttempts;
  }

  lemma {:induction false} WindowIsRecent(times: seq<int>, t: int, windowMs: int)
    requires NoneAfter(times, t)
    ensures Window(times, t, windowMs) == Recent(times, t - windowMs)
  {
    if times != [] { WindowIsRecent(times[..|times| - 1], t, windowMs); }
  }

  lemma {:induction false} WindowBounded(times: seq<int>, options: ThrottleOptions, t: int)
    requires WithinLimits(times, options)
    ensures |Window(times, t, options.windowMs)| <= options.maxAttempts || Window(times, t, options.windowMs) == []
  {
    if times != [] {
      var n := |times| - 1;
      if times[n] > t {
        FrontWithinLimits(times, options);
        WindowBounded(times[..n], options, t);
      } else {
        NewestWindow(times, options, t);
      }
    }
  }

  lemma NewestWindow(times: seq<int>, options: ThrottleOptions, t: int)
    requires WithinLimits(times, options) && times != [] && times[|times| - 1] <= t
    ensures |Window(times, t, options.windowMs)| <= options.maxAttempts
  {
    hide Recent, Window;
    var n := |times| - 1;
    WindowIsRecent(times, t, options.windowMs);
    RecentShrinks(times, times[n] - options.windowMs, t - options.windowMs);
    assert times[..n + 1] == times;
    assert Load(times, options, n) <= options.maxAttempts;
  }

  lemma {:induction false} HistoryWithinLimits(options: ThrottleOptions, run: seq<Request>, key: string)
    requires TimeFlowsForward(run)
    ensures WithinLimits(TimesOf(History(options, run), key), options)
    ensures run == [] ==> TimesOf(History(options, run), key) == []
    ensures run != [] ==> NoneAfter(TimesOf(History(options, run), key), run[|run| - 1].now)
  {
    if run != [] {
      var front, r := run[..|run| - 1], run[|run| - 1];
      HistoryWithinLimits(options, front, key);
      if front != [] { assert front[|front| - 1].now <= r.now; }
      RememberWithinLimits(History(options, front), options, r, key,
                           if front == [] then r.now else front[|front| - 1].now);
    }
  }

  lemma RememberWithinLimits(before: seq<Accepted>, options: ThrottleOptions, r: Request, key: string, last: int)
    requires WithinLimits(TimesOf(before, key), options) && NoneAfter(TimesOf(before, key), last) && last <= r.now
    ensures WithinLimits(TimesOf(Remember(before, options, r), key), options)
    ensures NoneAfter(TimesOf(Remember(before, options, r), key), r.now)
  {
    hide Recent, TimesOf, WithinLimits;
    var times := TimesOf(before, key);
    if r.key.Some? && Decide(before, options, r) == Proceed {
      TimesOfAppend(before, Accepted(r.key.value, r.now), key);
      if r.key == Some(key) {
        RecentAppend(times, r.now, r.now - options.windowMs);
        GrowWithinLimits(times, options, r.now);
      } else {
        assert TimesOf(Remember(before, options, r), key) == times;
      }
    }
  }

  // In any run with time flowing forward, no interval (t - windowMs, t] holds more than
  // maxAttempts accepted attempts of one key.
  lemma {:induction false} NoWindowOverflows(options: ThrottleOptions, run: seq<Request>, key: string, t: int)
    requires TimeFlowsForward(run)
    ensures var accepted := Window(TimesOf(History(options, run), key), t, options.windowMs);
            |accepted| <= options.maxAttempts || accepted == []
  {
    HistoryWithinLimits(options, run, key);
    WindowBounded(TimesOf(History(options, run), key), options, t);
  }

  // ----- the wait handed back is exact -----

  lemma {:induction false} HistoryUnchangedWhileThrottled(options: ThrottleOptions, run: seq<Request>,
                                                          i: nat, j: nat, key: string)
    requires TimeFlowsForward(run) && i <= j <= |run|
    requires forall n :: i <= n < j && run[n].key == Some(key) ==> VerdictAt(options, run, n) != Proceed
    ensures TimesOf(History(options, run[..j]), key) == TimesOf(History(options, run[..i]), key)
    decreases j - i
  {
    if i < j {
      HistoryUnchangedWhileThrottled(options, run, i, j - 1, key);
      DecisionsMatchFullHistory(options, run, j - 1);
      assert run[..j][..j - 1] == run[..j - 1];
      var before := History(options, run[..j - 1]);
      hide VerdictAt;
      if run[j - 1].key.Some? { TimesOfAppend(before, Accepted(run[j - 1].key.value, run[j - 1].now), key); }
    }
  }

  // Request i on a key was told to wait s seconds and nothing on the key was accepted since. A later
  // request on it proceeds once s full seconds have passed, and none proceeds within s - 1 seconds.
  lemma {:induction false} ReturnedWaitIsExact(options: ThrottleOptions, run: seq<Request>, i: nat, j: nat)
    requires TimeFlowsForward(run) && i < j < |run|
    requires run[i].key.Some? && run[j].key == run[i].key && VerdictAt(options, run, i).Wait?
    requires forall n :: i < n < j && run[n].key == run[i].key ==> VerdictAt(options, run, n) != Proceed
    ensures VerdictAt(options, run, i).seconds >= 1
    ensures run[j].now - run[i].now >= 1000 * VerdictAt(options, run, i).seconds ==>
              VerdictAt(options, run, j) == Proceed
    ensures run[j].now - run[i].now <= 1000 * (VerdictAt(options, run, i).seconds - 1) ==>
              VerdictAt(options, run, j) != Proceed
    ensures var oldest := Recent(TimesOf(History(options, run[..i]), run[i].key.value), run[i].now - options.windowMs);
            oldest != [] && (VerdictAt(options, run, j) == Proceed <==> run[j].now >= oldest[0] + options.windowMs)
  {
    hide VerdictAt, TimeFlowsForward, History, TimesOf, Recent, WithinLimits, NoneAfter;
    var key := run[i].key.value;
    DecisionsMatchFullHistory(options, run, i);
    DecisionsMatchFullHistory(options, run, j);
    HistoryUnchangedWhileThrottled(options, run, i, j, key);
    TimesBefore(options, run, i, j, key);
    WaitArithmetic(TimesOf(History(options, run[..i]), key), options, run[i].now, run[j].now);
  }

  lemma TimesBefore(options: ThrottleOptions, run: seq<Request>, i: nat, j: nat, key: string)
    requires TimeFlowsForward(run) && i < j < |run|
    ensures WithinLimits(TimesOf(History(options, run[..i]), key), options)
    ensures NoneAfter(TimesOf(History(options, run[..i]), key), run[i].now)
    ensures run[i].now <= run[j].now
  {
    hide History, TimesOf, WithinLimits;
    HistoryWithinLimits(options, run[..i], key);
    if i > 0 { assert run[..i][i - 1].now <= run[i].now; }
  }

  // The decision at `later` on a key whose accepted attempts are still `times`, throttled at `now`.
  lemma WaitArithmetic(times: seq<int>, options: ThrottleOptions, now: int, later: int)
    requires WithinLimits(times, options) && NoneAfter(times, now) && now <= later
    requires |Recent(times, now - options.windowMs)| >= options.maxAttempts
    requires Recent(times, now - options.windowMs) != []
    ensures var oldest, wait := Recent(times, now - options.windowMs)[0],
                                WaitFor(Recent(times, now - options.windowMs), options, now);
            && (|Recent(times, later - options.windowMs)| < options.maxAttempts <==> later >= oldest + options.windowMs)
            && wait.Wait? && wait.seconds >= 1
            && 1000 * (wait.seconds - 1) < oldest + options.windowMs - now <= 1000 * wait.seconds
  {
    var start, end := now - options.windowMs, later - options.windowMs;
    RecentShrinks(times, start, end);
    AtMostTheLimit(times, options, now);
    RecentFromTimes(times, start);
    if Recent(times, start)[0] > end { StillRecent(times, start, end); }
  }

  lemma AtMostTheLimit(times: seq<int>, options: ThrottleOptions, now: int)
    requires WithinLimits(times, options) && NoneAfter(times, now)
    ensures times != [] ==> |Recent(times, now - options.windowMs)| <= options.maxAttempts
  {
    WindowBounded(times, options, now);
    if times != [] { assert Load(times, options, 0) >= 0; }
    WindowIsRecent(times, now, options.windowMs);
  }

  lemma {:induction false} StillRecent(times: seq<int>, early: int, late: int)
    requires InTimeOrder(times)
    requires early <= late && Recent(times, early) != [] && Recent(times, early)[0] > late
    ensures Recent(times, late) == Recent(times, early)
  {
    var front := times[..|times| - 1];
    if Recent(front, early) != [] {
      StillRecent(front, early, late);
      RecentFromTimes(front, early);
      var i :| 0 <= i < |front| && front[i] == Recent(front, early)[0] > early;
      assert times[i] <= times[|times| - 1];
    } else {
      RecentShrinks(front, early, late);
    }
  }

  lemma {:induction false} RecentFromTimes(times: seq<int>, cutoff: int)
    requires Recent(times, cutoff) != []
    ensures exists i :: 0 <= i < |times| && times[i] == Recent(times, cutoff)[0] > cutoff
  {
    var front := times[..|times| - 1];
    if Recent(front, cutoff) != [] {
      RecentFromTimes(front, cutoff);
      var i :| 0 <= i < |front| && front[i] == Recent(front, cutoff)[0] > cutoff;
      assert times[i] == Recent(times, cutoff)[0];
    } else {
      assert times[|times| - 1] == Recent(times, cutoff)[0];
    }
  }
}
