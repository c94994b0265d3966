// The compressed asset cache of the workspace UI (server.ts): keyed by path and encoding, filled by
// the callbacks of reads and compressions, trusted only while the file's modification time matches.

module UiAssetCache {
  import opened Options
  import opened OrderedMaps

  const MAX_ENTRIES := 64

  datatype Encoding = Brotli | Gzip

  function EncodingText(e: Encoding): string {
    match e
    case Brotli => "br"
    case Gzip => "gzip"
  }

  function Key(path: string, e: Encoding): string { path + ":" + EncodingText(e) }

  // Different assets never share a key, whatever characters a path contains.
  lemma {:induction false} KeysDiffer(p: string, e: Encoding, p': string, e': Encoding)
    ensures Key(p, e) == Key(p', e') <==> p == p' && e == e'
  {
    var k, k' := Key(p, e), Key(p', e');
    if k == k' {
      assert k[|k| - 1] == EncodingText(e)[|EncodingText(e)| - 1];
      assert k'[|k'| - 1] == EncodingText(e')[|EncodingText(e')| - 1];
      assert e == e';
      assert p == k[..|p|] && p' == k'[..|p'|];
    }
  }

  // A compressed body, by what it is the compression of.
  datatype Body = Compressed(content: string, encoding: Encoding)
  datatype Asset = Asset(mtime: int, body: Body)

  function Store(cache: OrderedMap<string, Asset>, key: string, asset: Asset): OrderedMap<string, Asset> {
    Put(if |cache.keys| >= MAX_ENTRIES then Remove(cache, cache.keys[0]) else cache, key, asset)
  }

  function Hit(cache: OrderedMap<string, Asset>, key: string, mtime: int): Option<Body> {
    if key in cache.vals && cache.vals[key].mtime == mtime then Some(cache.vals[key].body) else None
  }

  class AssetCache {
    var entries: OrderedMap<string, Asset>

    constructor ()
      ensures entries == Empty()
    {
      entries := Empty();
    }

    method Find(path: string, encoding: Encoding, mtime: int) returns (body: Option<Body>)
      ensures body == Hit(entries, Key(path, encoding), mtime)
    {
      var cached := Lookup(entries, Key(path, encoding));
      body := if cached.Some? && cached.value.mtime == mtime then Some(cached.value.body) else None;
    }

    // The compression callback: the oldest entry goes when the cache is full, even to replace a key.
    method Keep(path: string, encoding: Encoding, mtime: int, body: Body)
      modifies this
      ensures entries == Store(old(entries), Key(path, encoding), Asset(mtime, body))
    {
      if |entries.keys| >= MAX_ENTRIES { entries := Remove(entries, entries.keys[0]); }
      entries := Put(entries, Key(path, encoding), Asset(mtime, body));
    }
  }
}

module AssetCacheRuns {
  import opened Options
  import opened OrderedMaps
  import opened UiAssetCache

  datatype File = File(mtime: int, content: string)
  datatype Phase = Reading | Compressing(content: string) | Over
  // One request past the cache; `mtime` is what it saw when it arrived.
  datatype Job = Job(path: string, encoding: Encoding, mtime: int, phase: Phase)
  // What a hit served, and the file's content at that moment.
  datatype Served = Served(encoding: Encoding, current: string, body: Body)

  datatype State = State(files: map<string, File>, cache: OrderedMap<string, Asset>, jobs: seq<Job>, hits: seq<Served>)

  datatype Step =
    | Change(path: string, file: File)
    | Request(path: string, encoding: Encoding)
    | ReadDone(job: nat, content: string)
    | CompressDone(job: nat)
    | Fails(job: nat)

  predicate Enabled(s: State, step: Step) {
    match step
    case Change(_, _) => true
    case Request(path, _) => path in s.files
    // What is read is the file's content, unless the file has changed since the request.
    case ReadDone(j, content) =>
      && j < |s.jobs| && s.jobs[j].phase.Reading?
      && (s.jobs[j].path in s.files && s.files[s.jobs[j].path].mtime == s.jobs[j].mtime ==>
            content == s.files[s.jobs[j].path].content)
    case CompressDone(j) => j < |s.jobs| && s.jobs[j].phase.Compressing?
    case Fails(j) => j < |s.jobs|
  }

  function Arrive(s: State, path: string, encoding: Encoding): State
    requires path in s.files
  {
    var file := s.files[path];
    var hit := Hit(s.cache, Key(path, encoding), file.mtime);
    if hit.Some? then s.(hits := s.hits + [Served(encoding, file.content, hit.value)])
    else s.(jobs := s.jobs + [Job(path, encoding, file.mtime, Reading)])
  }

  function Next(s: State, step: Step): State {
    if !Enabled(s, step) then s else
    match step
    case Change(path, file) => s.(files := s.files[path := file])
    case Request(path, encoding) => Arrive(s, path, encoding)
    case ReadDone(j, content) => s.(jobs := s.jobs[j := s.jobs[j].(phase := Compressing(content))])
    case CompressDone(j) =>
      var job := s.jobs[j];
      s.(cache := Store(s.cache, Key(job.path, job.encoding),
                        Asset(job.mtime, Compressed(job.phase.content, job.encoding))),
         jobs := s.jobs[j := job.(phase := Over)])
    case Fails(j) => s.(jobs := s.jobs[j := s.jobs[j].(phase := Over)])
  }

  ghost function Run(steps: seq<Step>): State {
    if steps == [] then State(map[], Empty(), [], []) else Next(Run(steps[..|steps| - 1]), steps[|steps| - 1])
  }

  // Each change of a file moves its modification time forward.
  predicate MovesForward(s: State, step: Step) {
    step.Change? && step.path in s.files ==> s.files[step.path].mtime < step.file.mtime
  }

  ghost predicate TimesIncrease(steps: seq<Step>) {
    steps == []
    || (TimesIncrease(steps[..|steps| - 1]) && MovesForward(Run(steps[..|steps| - 1]), steps[|steps| - 1]))
  }

  // Whatever carries a file's present modification time was made from its present content, and
  // nothing carries a later one.
  predicate Tracks(s: State, path: string, mtime: int, content: Option<string>) {
    path in s.files && mtime <= s.files[path].mtime
    && (mtime == s.files[path].mtime && content.Some? ==> content.value == s.files[path].content)
  }

  ghost predicate JobsTrack(s: State) {
    forall j :: 0 <= j < |s.jobs| ==>
      Tracks(s, s.jobs[j].path, s.jobs[j].mtime,
             if s.jobs[j].phase.Compressing? then Some(s.jobs[j].phase.content) else None)
  }

  ghost predicate CacheTracks(s: State) {
    forall path, e :: Key(path, e) in s.cache.vals ==>
      var asset := s.cache.vals[Key(path, e)];
      asset.body.encoding == e && Tracks(s, path, asset.mtime, Some(asset.body.content))
  }

  ghost predicate HitsAreCurrent(s: State) {
    forall h :: 0 <= h < |s.hits| ==> s.hits[h].body == Compressed(s.hits[h].current, s.hits[h].encoding)
  }

  lemma StepKeepsJobs(s: State, step: Step)
    requires JobsTrack(s) && MovesForward(s, step)
    ensures JobsTrack(Next(s, step))
  {
    hide Consistent, Store, Hit;
  }

  lemma StoreKeepsCache(s: State, path: string, e: Encoding, mtime: int, content: string)
    requires CacheTracks(s) && Tracks(s, path, mtime, Some(content))
    ensures CacheTracks(s.(cache := Store(s.cache, Key(path, e), Asset(mtime, Compressed(content, e)))))
  {
    var after := Store(s.cache, Key(path, e), Asset(mtime, Compressed(content, e)));
    hide Consistent, Key;
    forall p, e' | Key(p, e') in after.vals
      ensures var asset := after.vals[Key(p, e')];
              asset.body.encoding == e' && Tracks(s, p, asset.mtime, Some(asset.body.content))
    {
      KeysDiffer(p, e', path, e);
    }
  }

  lemma StepKeepsCache(s: State, step: Step)
    requires JobsTrack(s) && CacheTracks(s) && MovesForward(s, step)
    ensures CacheTracks(Next(s, step))
  {
    if Enabled(s, step) && step.CompressDone? {
      var job := s.jobs[step.job];
      StoreKeepsCache(s, job.path, job.encoding, job.mtime, job.phase.content);
    }
    hide Consistent, Store, Key, Hit;
  }

  lemma StepKeepsHits(s: State, step: Step)
    requires CacheTracks(s) && HitsAreCurrent(s)
    ensures HitsAreCurrent(Next(s, step))
  {
    hide Consistent, Store, Key;
  }

  lemma {:induction false} RunKeepsTracking(steps: seq<Step>)
    requires TimesIncrease(steps)
    ensures JobsTrack(Run(steps)) && CacheTracks(Run(steps)) && HitsAreCurrent(Run(steps))
  {
    if steps != [] {
      var s, step := Run(steps[..|steps| - 1]), steps[|steps| - 1];
      RunKeepsTracking(steps[..|steps| - 1]);
      hide Next, JobsTrack, CacheTracks, HitsAreCurrent;
      StepKeepsJobs(s, step);
      StepKeepsCache(s, step);
      StepKeepsHits(s, step);
    }
  }

  // With modification times that increase, every hit serves the compression of the file's content
  // at that moment, in the encoding asked for, whatever the order of the callbacks.
  lemma {:induction false} EveryHitIsCurrent(steps: seq<Step>, h: nat)
    requires TimesIncrease(steps) && h < |Run(steps).hits|
    ensures Run(steps).hits[h].body == Compressed(Run(steps).hits[h].current, Run(steps).hits[h].encoding)
  {
    RunKeepsTracking(steps);
  }

  // Whatever the modification times do, an entry holds the encoding its key names.
  ghost predicate EncodingsMatch(s: State) {
    forall path, e :: Key(path, e) in s.cache.vals ==> s.cache.vals[Key(path, e)].body.encoding == e
  }

  lemma StoreKeepsEncodings(s: State, path: string, e: Encoding, mtime: int, content: string)
    requires EncodingsMatch(s)
    ensures EncodingsMatch(s.(cache := Store(s.cache, Key(path, e), Asset(mtime, Compressed(content, e)))))
  {
    hide Consistent, Key;
    var after := Store(s.cache, Key(path, e), Asset(mtime, Compressed(content, e)));
    forall p, e' | Key(p, e') in after.vals ensures after.vals[Key(p, e')].body.encoding == e' {
      KeysDiffer(p, e', path, e);
    }
  }

  lemma {:induction false} RunKeepsEncodings(steps: seq<Step>)
    ensures EncodingsMatch(Run(steps))
  {
    if steps != [] {
      var s, step := Run(steps[..|steps| - 1]), steps[|steps| - 1];
      RunKeepsEncodings(steps[..|steps| - 1]);
      if Enabled(s, step) && step.CompressDone? {
        var job := s.jobs[step.job];
        StoreKeepsEncodings(s, job.path, job.encoding, job.mtime, job.phase.content);
      }
      hide Consistent, Store, Key, Hit;
    }
  }

  // The hit a request would be served is stale.
  predicate ServesStale(s: State, path: string, e: Encoding)
    requires path in s.files
  {
    var after := Next(s, Request(path, e));
    |after.hits| > |s.hits|
    && after.hits[|s.hits|].body != Compressed(s.files[path].content, e)
  }

  // In every run, whatever the modification times do, a request is served a stale hit exactly when
  // its entry was stored under the file's present time and from other content.
  lemma {:induction false} StaleHitExactly(steps: seq<Step>, path: string, e: Encoding)
    requires path in Run(steps).files
    ensures var s := Run(steps);
            ServesStale(s, path, e)
            <==> Key(path, e) in s.cache.vals && s.cache.vals[Key(path, e)].mtime == s.files[path].mtime
                 && s.cache.vals[Key(path, e)].body.content != s.files[path].content
  {
    RunKeepsEncodings(steps);
    hide Run, Key, Consistent;
  }

  // Storing an asset drops the entry stored first, when there are 64, and keeps every other.
  lemma {:induction false} StoreDropsOnlyTheOldest(cache: OrderedMap<string, Asset>, key: string, asset: Asset,
                                                   k: string)
    ensures Lookup(Store(cache, key, asset), k)
            == if k == key then Some(asset)
               else if |cache.keys| >= 64 && k == cache.keys[0] then None
               else Lookup(cache, k)
  {
    hide Consistent;
  }

  lemma StoreIsBounded(cache: OrderedMap<string, Asset>, key: string, asset: Asset)
    requires |cache.keys| <= 64
    ensures |Store(cache, key, asset).keys| <= 64
  {
    if |cache.keys| >= MAX_ENTRIES { assert cache.keys[0] in cache.keys; }
  }

  // In every run the cache holds at most 64 entries.
  lemma {:induction false} CacheIsBounded(steps: seq<Step>)
    ensures |Run(steps).cache.keys| <= 64
  {
    if steps != [] {
      var s, step := Run(steps[..|steps| - 1]), steps[|steps| - 1];
      CacheIsBounded(steps[..|steps| - 1]);
      if Enabled(s, step) && step.CompressDone? {
        var job := s.jobs[step.job];
        StoreIsBounded(s.cache, Key(job.path, job.encoding),
                       Asset(job.mtime, Compressed(job.phase.content, job.encoding)));
      }
      hide Consistent, Store, Key, Hit;
    }
  }

  // A change that keeps the modification time leaves a stale hit behind.
  lemma {:induction false} SameTimeServesStale(path: string, mtime: int, before: string, after: string)
    requires before != after
    ensures var fill := [Change(path, File(mtime, before)), Request(path, Gzip), ReadDone(0, before), CompressDone(0)];
            var s := Run(fill + [Change(path, File(mtime, after)), Request(path, Gzip)]);
            s.hits == [Served(Gzip, after, Compressed(before, Gzip))]
  {
    var fill := [Change(path, File(mtime, before)), Request(path, Gzip), ReadDone(0, before), CompressDone(0)];
    FilledCache(path, mtime, before);
    RunExtends(fill, Change(path, File(mtime, after)));
    RunExtends(fill + [Change(path, File(mtime, after))], Request(path, Gzip));
    assert fill + [Change(path, File(mtime, after))] + [Request(path, Gzip)]
        == fill + [Change(path, File(mtime, after)), Request(path, Gzip)];
    hide Run, Consistent, Key;
  }

  lemma FilledCache(path: string, mtime: int, content: string)
    ensures var s := Run([Change(path, File(mtime, content)), Request(path, Gzip), ReadDone(0, content),
                          CompressDone(0)]);
            && Hit(s.cache, Key(path, Gzip), mtime) == Some(Compressed(content, Gzip))
            && s.files == map[path := File(mtime, content)] && s.hits == []
  {
    var asked := [Change(path, File(mtime, content)), Request(path, Gzip)];
    FirstRequestMisses(path, mtime, content);
    RunExtends(asked, ReadDone(0, content));
    RunExtends(asked + [ReadDone(0, content)], CompressDone(0));
    hide Run, Consistent, Key;
    assert asked + [ReadDone(0, content)] + [CompressDone(0)]
        == [Change(path, File(mtime, content)), Request(path, Gzip), ReadDone(0, content), CompressDone(0)];
  }

  lemma FirstRequestMisses(path: string, mtime: int, content: string)
    ensures Run([Change(path, File(mtime, content)), Request(path, Gzip)])
         == State(map[path := File(mtime, content)], Empty(), [Job(path, Gzip, mtime, Reading)], [])
  {
    RunExtends([], Change(path, File(mtime, content)));
    RunExtends([Change(path, File(mtime, content))], Request(path, Gzip));
    assert Run([]) == State(map[], Empty(), [], []);
    hide Run, Consistent, Key;
    assert [] + [Change(path, File(mtime, content))] == [Change(path, File(mtime, content))];
    assert [Change(path, File(mtime, content))] + [Request(path, Gzip)]
        == [Change(path, File(mtime, content)), Request(path, Gzip)];
  }

  lemma RunExtends(steps: seq<Step>, step: Step)
    ensures Run(steps + [step]) == Next(Run(steps), step)
  {
    assert (steps + [step])[..|steps|] == steps;
  }
}
