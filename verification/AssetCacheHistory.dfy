// Which histories of a file let the asset cache of the workspace UI (server.ts) serve a stale hit.

module AssetCacheHistory {
  import opened Options
  import opened OrderedMaps
  import opened UiAssetCache
  import opened AssetCacheRuns

  datatype Edit = Edit(path: string, file: File)

  function ApplyEdits(files: map<string, File>, edits: seq<Edit>): map<string, File> {
    if edits == [] then files
    else ApplyEdits(files, edits[..|edits| - 1])[edits[|edits| - 1].path := edits[|edits| - 1].file]
  }

  // The files after a history of edits.
  function FilesAfter(edits: seq<Edit>): map<string, File> { ApplyEdits(map[], edits) }

  // The edits among the steps of a run.
  function EditsOf(steps: seq<Step>): seq<Edit> {
    if steps == [] then []
    else
      var last := steps[|steps| - 1];
      EditsOf(steps[..|steps| - 1]) + (if last.Change? then [Edit(last.path, last.file)] else [])
  }

  // After the first k edits the path has this modification time.
  ghost predicate HadTime(edits: seq<Edit>, path: string, k: int, mtime: int) {
    0 <= k <= |edits| && path in FilesAfter(edits[..k]) && FilesAfter(edits[..k])[path].mtime == mtime
  }

  // After the first k edits the path was another file than it is now.
  ghost predicate WasOther(edits: seq<Edit>, path: string, k: int)
    requires path in FilesAfter(edits)
  {
    0 <= k <= |edits| && path in FilesAfter(edits[..k]) && FilesAfter(edits[..k])[path] != FilesAfter(edits)[path]
  }

  // The path once had its present modification time, and was another file then or since.
  ghost predicate CameBack(edits: seq<Edit>, path: string)
    requires path in FilesAfter(edits)
  {
    exists a, b :: a <= b && HadTime(edits, path, a, FilesAfter(edits)[path].mtime) && WasOther(edits, path, b)
  }

  // ----- where entries come from -----

  // Content read after the first k edits for a request that saw this modification time: the file's
  // own, unless it had changed by then.
  ghost predicate ReadableAt(edits: seq<Edit>, path: string, k: int, mtime: int, content: string) {
    && 0 <= k <= |edits| && path in FilesAfter(edits[..k])
    && (FilesAfter(edits[..k])[path].mtime == mtime ==> FilesAfter(edits[..k])[path].content == content)
  }

  ghost predicate SeenTime(edits: seq<Edit>, path: string, mtime: int) {
    exists a :: HadTime(edits, path, a, mtime)
  }

  ghost predicate Originates(edits: seq<Edit>, path: string, mtime: int, content: string) {
    exists a, b :: a <= b && HadTime(edits, path, a, mtime) && ReadableAt(edits, path, b, mtime, content)
  }

  ghost predicate JobsOriginate(s: State, edits: seq<Edit>) {
    forall j :: 0 <= j < |s.jobs| ==>
      && SeenTime(edits, s.jobs[j].path, s.jobs[j].mtime)
      && s.jobs[j].path in s.files
      && (s.jobs[j].phase.Compressing? ==>
            Originates(edits, s.jobs[j].path, s.jobs[j].mtime, s.jobs[j].phase.content))
  }

  ghost predicate CacheOriginates(s: State, edits: seq<Edit>) {
    forall path, e :: Key(path, e) in s.cache.vals ==>
      Originates(edits, path, s.cache.vals[Key(path, e)].mtime, s.cache.vals[Key(path, e)].body.content)
  }

  lemma OneMoreEdit(edits: seq<Edit>, x: Edit, path: string, mtime: int, content: string)
    ensures SeenTime(edits, path, mtime) ==> SeenTime(edits + [x], path, mtime)
    ensures Originates(edits, path, mtime, content) ==> Originates(edits + [x], path, mtime, content)
  {
    var more := edits + [x];
    assert forall k :: 0 <= k <= |edits| ==> more[..k] == edits[..k];
    hide FilesAfter;
    if a :| HadTime(edits, path, a, mtime) { assert HadTime(more, path, a, mtime); }
    if a, b :| a <= b && HadTime(edits, path, a, mtime) && ReadableAt(edits, path, b, mtime, content) {
      assert HadTime(more, path, a, mtime) && ReadableAt(more, path, b, mtime, content);
    }
  }

  lemma NowSeen(edits: seq<Edit>, path: string)
    ensures path in FilesAfter(edits) ==> SeenTime(edits, path, FilesAfter(edits)[path].mtime)
  {
    assert edits[..|edits|] == edits;
    if path in FilesAfter(edits) { assert HadTime(edits, path, |edits|, FilesAfter(edits)[path].mtime); }
  }

  lemma NowRead(edits: seq<Edit>, path: string, mtime: int, content: string)
    requires path in FilesAfter(edits) && SeenTime(edits, path, mtime)
    requires FilesAfter(edits)[path].mtime == mtime ==> FilesAfter(edits)[path].content == content
    ensures Originates(edits, path, mtime, content)
  {
    assert edits[..|edits|] == edits;
    var a :| HadTime(edits, path, a, mtime);
    assert ReadableAt(edits, path, |edits|, mtime, content);
  }

  lemma EditKeepsOrigins(s: State, edits: seq<Edit>, path: string, file: File)
    requires JobsOriginate(s, edits) && CacheOriginates(s, edits)
    ensures var after := Next(s, Change(path, file));
            JobsOriginate(after, edits + [Edit(path, file)]) && CacheOriginates(after, edits + [Edit(path, file)])
  {
    var after, x := Next(s, Change(path, file)), Edit(path, file);
    assert after == s.(files := s.files[path := file]) by { hide Store, Hit, Consistent; }
    hide SeenTime, Originates, Consistent, Key, Next;
    forall j | 0 <= j < |s.jobs|
      ensures SeenTime(edits + [x], s.jobs[j].path, s.jobs[j].mtime) && s.jobs[j].path in after.files
      ensures s.jobs[j].phase.Compressing? ==>
                Originates(edits + [x], s.jobs[j].path, s.jobs[j].mtime, s.jobs[j].phase.content)
    {
      OneMoreEdit(edits, x, s.jobs[j].path, s.jobs[j].mtime,
                  if s.jobs[j].phase.Compressing? then s.jobs[j].phase.content else "");
    }
    forall p, e | Key(p, e) in s.cache.vals
      ensures Originates(edits + [x], p, s.cache.vals[Key(p, e)].mtime, s.cache.vals[Key(p, e)].body.content)
    {
      OneMoreEdit(edits, x, p, s.cache.vals[Key(p, e)].mtime, s.cache.vals[Key(p, e)].body.content);
    }
  }

  lemma StepKeepsJobOrigins(s: State, edits: seq<Edit>, step: Step)
    requires s.files == FilesAfter(edits) && JobsOriginate(s, edits) && !step.Change?
    ensures JobsOriginate(Next(s, step), edits)
  {
    if step.Request? { NowSeen(edits, step.path); }
    if step.ReadDone? && Enabled(s, step) {
      NowRead(edits, s.jobs[step.job].path, s.jobs[step.job].mtime, step.content);
    }
    hide FilesAfter, SeenTime, Originates, Consistent, Store, Hit;
  }

  lemma StoreKeepsOrigins(s: State, edits: seq<Edit>, path: string, e: Encoding, mtime: int, content: string)
    requires CacheOriginates(s, edits) && Originates(edits, path, mtime, content)
    ensures CacheOriginates(s.(cache := Store(s.cache, Key(path, e), Asset(mtime, Compressed(content, e)))), edits)
  {
    hide Consistent, Key, Originates;
    var after := Store(s.cache, Key(path, e), Asset(mtime, Compressed(content, e)));
    forall p, e' | Key(p, e') in after.vals
      ensures Originates(edits, p, after.vals[Key(p, e')].mtime, after.vals[Key(p, e')].body.content)
    {
      KeysDiffer(p, e', path, e);
    }
  }

  lemma StepKeepsCacheOrigins(s: State, edits: seq<Edit>, step: Step)
    requires JobsOriginate(s, edits) && CacheOriginates(s, edits) && !step.Change?
    ensures CacheOriginates(Next(s, step), edits)
  {
    if step.CompressDone? && Enabled(s, step) {
      var job := s.jobs[step.job];
      StoreKeepsOrigins(s, edits, job.path, job.encoding, job.mtime, job.phase.content);
    }
    hide SeenTime, Originates, Consistent, Store, Key, Hit;
  }

  lemma {:induction false} RunOriginates(steps: seq<Step>)
    ensures Run(steps).files == FilesAfter(EditsOf(steps))
    ensures JobsOriginate(Run(steps), EditsOf(steps)) && CacheOriginates(Run(steps), EditsOf(steps))
  {
    if steps == [] {
      assert Run(steps) == State(map[], Empty(), [], []);
    } else {
      var front, step := steps[..|steps| - 1], steps[|steps| - 1];
      RunOriginates(front);
      assert steps == front + [step];
      if step.Change? {
        EditKeepsOrigins(Run(front), EditsOf(front), step.path, step.file);
        ChangeExtends(front, step.path, step.file);
      } else {
        StepKeepsJobOrigins(Run(front), EditsOf(front), step);
        StepKeepsCacheOrigins(Run(front), EditsOf(front), step);
        OtherStepExtends(front, step);
      }
      hide Run, EditsOf, Next, JobsOriginate, CacheOriginates, FilesAfter;
    }
  }

  lemma ChangeExtends(steps: seq<Step>, path: string, file: File)
    ensures Run(steps + [Change(path, file)]) == Next(Run(steps), Change(path, file))
         == Run(steps).(files := Run(steps).files[path := file])
    ensures EditsOf(steps + [Change(path, file)]) == EditsOf(steps) + [Edit(path, file)]
    ensures FilesAfter(EditsOf(steps) + [Edit(path, file)]) == FilesAfter(EditsOf(steps))[path := file]
  {
    assert (steps + [Change(path, file)])[..|steps|] == steps;
    assert (EditsOf(steps) + [Edit(path, file)])[..|EditsOf(steps)|] == EditsOf(steps);
    hide Store, Hit, Consistent;
  }

  lemma OtherStepExtends(steps: seq<Step>, step: Step)
    requires !step.Change?
    ensures Run(steps + [step]) == Next(Run(steps), step) && Run(steps + [step]).files == Run(steps).files
    ensures EditsOf(steps + [step]) == EditsOf(steps)
  {
    assert (steps + [step])[..|steps|] == steps;
    hide Store, Hit, Consistent;
  }

  // ----- a schedule that serves a stale hit -----

  function ChangesOf(edits: seq<Edit>): seq<Step> {
    seq(|edits|, i requires 0 <= i < |edits| => Change(edits[i].path, edits[i].file))
  }

  lemma OneMoreApplied(files: map<string, File>, edits: seq<Edit>)
    requires edits != []
    ensures var n := |edits| - 1;
            ApplyEdits(files, edits) == ApplyEdits(files, edits[..n])[edits[n].path := edits[n].file]
  {}

  lemma OneMoreChange(steps: seq<Step>, edits: seq<Edit>)
    requires edits != []
    ensures var n := |edits| - 1;
            steps + ChangesOf(edits) == (steps + ChangesOf(edits[..n])) + [Change(edits[n].path, edits[n].file)]
  {}

  lemma {:induction false} RunOfChanges(steps: seq<Step>, edits: seq<Edit>)
    ensures Run(steps + ChangesOf(edits)) == Run(steps).(files := ApplyEdits(Run(steps).files, edits))
    ensures EditsOf(steps + ChangesOf(edits)) == EditsOf(steps) + edits
  {
    if edits == [] {
      assert steps + ChangesOf(edits) == steps;
    } else {
      var n := |edits| - 1;
      RunOfChanges(steps, edits[..n]);
      OneMoreChange(steps, edits);
      OneMoreApplied(Run(steps).files, edits);
      ChangeExtends(steps + ChangesOf(edits[..n]), edits[n].path, edits[n].file);
      hide *;
      assert edits == edits[..n] + [edits[n]];
    }
  }

  lemma {:induction false} EditsInTurn(files: map<string, File>, first: seq<Edit>, second: seq<Edit>)
    ensures ApplyEdits(files, first + second) == ApplyEdits(ApplyEdits(files, first), second)
  {
    if second == [] {
      assert first + second == first;
    } else {
      var n := |second| - 1;
      EditsInTurn(files, first, second[..n]);
      OneMoreApplied(files, first + second);
      OneMoreApplied(ApplyEdits(files, first), second);
      hide *;
      assert (first + second)[..|first| + n] == first + second[..n];
    }
  }

  lemma FirstRequestAsks(s: State, path: string, e: Encoding)
    requires s.cache == Empty() && path in s.files
    ensures Next(s, Request(path, e)) == s.(jobs := s.jobs + [Job(path, e, s.files[path].mtime, Reading)])
  {
    hide Key;
  }

  lemma OnlyJobFills(s: State, path: string, e: Encoding, mtime: int, content: string)
    requires s.cache == Empty() && s.jobs == [Job(path, e, mtime, Reading)]
    requires path in s.files && (s.files[path].mtime == mtime ==> s.files[path].content == content)
    ensures Next(Next(s, ReadDone(0, content)), CompressDone(0)).cache
         == Put(Empty(), Key(path, e), Asset(mtime, Compressed(content, e)))
  {
    hide Key, Hit;
    assert Next(s, ReadDone(0, content)) == s.(jobs := [Job(path, e, mtime, Compressing(content))]);
  }

  // The request, made after a edits and read and compressed after b.
  lemma FillInBetween(edits: seq<Edit>, path: string, e: Encoding, a: int, b: int, content: string)
    returns (steps: seq<Step>)
    requires 0 <= a <= b <= |edits| && path in FilesAfter(edits[..a])
    requires ReadableAt(edits, path, b, FilesAfter(edits[..a])[path].mtime, content)
    ensures EditsOf(steps) == edits[..b] && Run(steps).files == FilesAfter(edits[..b])
    ensures Run(steps).cache
            == Put(Empty(), Key(path, e), Asset(FilesAfter(edits[..a])[path].mtime, Compressed(content, e)))
  {
    var mtime := FilesAfter(edits[..a])[path].mtime;
    var asked := AskAfter(edits[..a], path, e);
    var waited := asked + ChangesOf(edits[a..b]);
    RunOfChanges(asked, edits[a..b]);
    EditsInTurn(map[], edits[..a], edits[a..b]);
    assert edits[..a] + edits[a..b] == edits[..b];
    hide Run, Next, EditsOf, ApplyEdits, ChangesOf, Consistent, Key;
    steps := FillAfter(waited, path, e, mtime, content);
  }

  lemma FillAfter(waited: seq<Step>, path: string, e: Encoding, mtime: int, content: string) returns (steps: seq<Step>)
    requires var s := Run(waited);
             && s.cache == Empty() && s.jobs == [Job(path, e, mtime, Reading)]
             && path in s.files && (s.files[path].mtime == mtime ==> s.files[path].content == content)
    ensures EditsOf(steps) == EditsOf(waited) && Run(steps).files == Run(waited).files
    ensures Run(steps).cache == Put(Empty(), Key(path, e), Asset(mtime, Compressed(content, e)))
  {
    steps := waited + [ReadDone(0, content)] + [CompressDone(0)];
    OtherStepExtends(waited, ReadDone(0, content));
    OtherStepExtends(waited + [ReadDone(0, content)], CompressDone(0));
    OnlyJobFills(Run(waited), path, e, mtime, content);
    hide *;
  }

  lemma AskAfter(edits: seq<Edit>, path: string, e: Encoding) returns (asked: seq<Step>)
    requires path in FilesAfter(edits)
    ensures EditsOf(asked) == edits
    ensures Run(asked) == State(FilesAfter(edits), Empty(), [Job(path, e, FilesAfter(edits)[path].mtime, Reading)], [])
  {
    var changes := [] + ChangesOf(edits);
    asked := changes + [Request(path, e)];
    assert Run([]) == State(map[], Empty(), [], []) && EditsOf([]) == [];
    RunOfChanges([], edits);
    OtherStepExtends(changes, Request(path, e));
    hide Run, EditsOf, ApplyEdits, ChangesOf, Consistent;
    assert [] + edits == edits;
    FirstRequestAsks(Run(changes), path, e);
    hide Next;
  }

  // Some order of requests and callbacks, with exactly these edits, leaves a request for the path to be
  // served a stale hit.
  ghost predicate CanServeStale(edits: seq<Edit>, path: string, e: Encoding) {
    exists steps :: EditsOf(steps) == edits && path in Run(steps).files && ServesStale(Run(steps), path, e)
  }

  lemma StaleHitNeedsAReturn(steps: seq<Step>, path: string, e: Encoding)
    requires path in Run(steps).files && ServesStale(Run(steps), path, e)
    ensures path in FilesAfter(EditsOf(steps)) && CameBack(EditsOf(steps), path)
  {
    RunOriginates(steps);
    StaleHitExactly(steps, path, e);
    var edits := EditsOf(steps);
    var asset := Run(steps).cache.vals[Key(path, e)];
    hide Run, EditsOf, FilesAfter, ServesStale, Consistent, Key;
    var a, b :| a <= b && HadTime(edits, path, a, asset.mtime)
        && ReadableAt(edits, path, b, asset.mtime, asset.body.content);
    assert WasOther(edits, path, b);
  }

  lemma ReturnServesStale(edits: seq<Edit>, path: string, e: Encoding)
    requires path in FilesAfter(edits) && CameBack(edits, path)
    ensures CanServeStale(edits, path, e)
  {
    var now := FilesAfter(edits)[path];
    var a, b :| a <= b && HadTime(edits, path, a, now.mtime) && WasOther(edits, path, b);
    var between := FilesAfter(edits[..b])[path];
    var content := if between.mtime == now.mtime then between.content else now.content + "x";
    assert |now.content + "x"| != |now.content|;
    hide ApplyEdits, FilesAfter, CanServeStale, Consistent, Key;
    var filled := FillInBetween(edits, path, e, a, b, content);
    ServeAfter(edits, path, e, b, filled, content);
  }

  // The rest of the edits, and then the request that is served the entry.
  lemma ServeAfter(edits: seq<Edit>, path: string, e: Encoding, b: int, filled: seq<Step>, content: string)
    requires 0 <= b <= |edits| && EditsOf(filled) == edits[..b] && Run(filled).files == FilesAfter(edits[..b])
    requires path in FilesAfter(edits) && content != FilesAfter(edits)[path].content
    requires Run(filled).cache
             == Put(Empty(), Key(path, e), Asset(FilesAfter(edits)[path].mtime, Compressed(content, e)))
    ensures CanServeStale(edits, path, e)
  {
    var steps := filled + ChangesOf(edits[b..]);
    RunOfChanges(filled, edits[b..]);
    EditsInTurn(map[], edits[..b], edits[b..]);
    hide Run, EditsOf, ApplyEdits, ChangesOf, Consistent, Key, ServesStale;
    assert edits[..b] + edits[b..] == edits;
    EntryServesStale(Run(steps), path, e, content);
  }

  lemma EntryServesStale(s: State, path: string, e: Encoding, content: string)
    requires path in s.files && content != s.files[path].content
    requires s.cache == Put(Empty(), Key(path, e), Asset(s.files[path].mtime, Compressed(content, e)))
    ensures ServesStale(s, path, e)
  {
    hide Key, Consistent;
  }

  // A path can be served a stale hit, by some order of requests and callbacks, exactly when it once had
  // its present modification time, and was another file then or since.
  lemma {:induction false} StaleHitPossibleExactly(edits: seq<Edit>, path: string, e: Encoding)
    requires path in FilesAfter(edits)
    ensures CanServeStale(edits, path, e) <==> CameBack(edits, path)
  {
    hide FilesAfter, CameBack, ServesStale, EditsOf, Run;
    if CanServeStale(edits, path, e) {
      var steps :| EditsOf(steps) == edits && path in Run(steps).files && ServesStale(Run(steps), path, e);
      StaleHitNeedsAReturn(steps, path, e);
    }
    if CameBack(edits, path) { ReturnServesStale(edits, path, e); }
  }
}
