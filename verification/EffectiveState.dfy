// The recomputed "effective state" (effective-state.ts): corrections, open items, units.

module EffectiveState {
  import opened Options
  import opened OrderedMaps
  import opened Sorting
  import opened ActivityRecords

  datatype Correction = Correction(originalId: string, latestCorrectionId: string)
  datatype OpenItem = OpenItem(id: string, effect: Effect, workflowId: Option<string>, sessionId: Option<string>)
  datatype Unit = Unit(workflowId: Option<string>, sessionId: Option<string>, latestEffect: Option<Effect>,
                       lastActivity: string, recordCount: nat)
  datatype State = State(corrections: seq<Correction>, open: seq<OpenItem>, units: seq<Unit>, needsAttention: nat)

  // Whether `r` resolves the earlier open item `item`.
  predicate Resolves(r: ActivityRecord, item: ActivityRecord) {
    if r.sequence <= item.sequence then false
    else if r.correctionOf == Some(item.id) then true
    else if item.id in r.relatesTo then true
    else if |r.relatesTo| > 0 then false
    else Disposes(r.effect) &&
         ((r.workflowId.Some? && r.workflowId == item.workflowId)
          || (r.sessionId.Some? && r.sessionId == item.sessionId))
  }

  ghost predicate StaysOpen(records: seq<ActivityRecord>, item: ActivityRecord) {
    OpensItem(item.effect) && forall r :: r in records ==> !Resolves(r, item)
  }

  function ItemOf(r: ActivityRecord): OpenItem
    requires r.effect.Some?
  {
    OpenItem(r.id, r.effect.value, r.workflowId, r.sessionId)
  }

  // The open items of the first n records, judged against the whole history.
  ghost function OpenItems(history: seq<ActivityRecord>, n: nat): seq<OpenItem>
    requires n <= |history|
  {
    if n == 0 then []
    else OpenItems(history, n - 1) +
         if StaysOpen(history, history[n - 1]) then [ItemOf(history[n - 1])] else []
  }

  // The ids of the records that correct each target, in order.
  function CorrectionGroups(ordered: seq<ActivityRecord>): OrderedMap<string, seq<string>> {
    if ordered == [] then Empty()
    else
      var front, r := CorrectionGroups(ordered[..|ordered| - 1]), ordered[|ordered| - 1];
      if r.correctionOf.Some? then
        Put(front, r.correctionOf.value, Lookup(front, r.correctionOf.value).GetOr([]) + [r.id])
      else front
  }

  function CompareCorrections(a: Correction, b: Correction): int { CompareText(a.originalId, b.originalId) }

  // Only the last of each group is reported; a group is never empty.
  function LatestOf(target: string, group: seq<string>): Correction {
    Correction(target, if group == [] then "" else group[|group| - 1])
  }

  function CorrectionList(m: OrderedMap<string, seq<string>>): seq<Correction> {
    seq(|m.keys|, i requires 0 <= i < |m.keys| => LatestOf(m.keys[i], m.vals[m.keys[i]]))
  }

  predicate InUnit(r: ActivityRecord) { r.workflowId.Some? || r.sessionId.Some? }

  function UnitKey(r: ActivityRecord): string { r.workflowId.GetOr("") + "|" + r.sessionId.GetOr("") }

  function Extend(existing: Option<Unit>, r: ActivityRecord): Unit {
    match existing
    case None => Unit(r.workflowId, r.sessionId, r.effect, r.timestamp, 1)
    case Some(u) =>
      Unit(r.workflowId, r.sessionId, if r.effect.Some? then r.effect else u.latestEffect,
           if CompareText(r.timestamp, u.lastActivity) > 0 then r.timestamp else u.lastActivity, u.recordCount + 1)
  }

  function Units(ordered: seq<ActivityRecord>): OrderedMap<string, Unit> {
    if ordered == [] then Empty()
    else
      var front, r := Units(ordered[..|ordered| - 1]), ordered[|ordered| - 1];
      if !InUnit(r) then front else Put(front, UnitKey(r), Extend(Lookup(front, UnitKey(r)), r))
  }

  // Most recently active first.
  function CompareUnits(a: Unit, b: Unit): int { CompareText(b.lastActivity, a.lastActivity) }

  ghost function Effective(records: seq<ActivityRecord>): State {
    var ordered := InOrder(records);
    var open := OpenItems(ordered, |ordered|);
    State(Sort(CompareCorrections, CorrectionList(CorrectionGroups(ordered))), open,
          Sort(CompareUnits, ValuesOf(Units(ordered))), |open|)
  }

  method CorrectionLoop(sorted: seq<ActivityRecord>) returns (corrections: seq<Correction>)
    ensures corrections == CorrectionList(CorrectionGroups(sorted))
  {
    hide Consistent;
    var groups: OrderedMap<string, seq<string>> := Empty();
    for i := 0 to |sorted|
      invariant groups == CorrectionGroups(sorted[..i])
    {
      assert sorted[..i + 1][..i] == sorted[..i];
      if sorted[i].correctionOf.Some? {
        var target := sorted[i].correctionOf.value;
        groups := Put(groups, target, Lookup(groups, target).GetOr([]) + [sorted[i].id]);
      }
    }
    assert sorted[..|sorted|] == sorted;
    corrections := ListCorrections(groups);
  }

  method ListCorrections(groups: OrderedMap<string, seq<string>>) returns (corrections: seq<Correction>)
    ensures corrections == CorrectionList(groups)
  {
    corrections := [];
    for i := 0 to |groups.keys|
      invariant corrections == CorrectionList(groups)[..i]
    {
      corrections := corrections + [LatestOf(groups.keys[i], groups.vals[groups.keys[i]])];
    }
  }

  method SomeResolves(sorted: seq<ActivityRecord>, item: ActivityRecord) returns (resolved: bool)
    ensures resolved <==> exists r :: r in sorted && Resolves(r, item)
  {
    resolved := false;
    for i := 0 to |sorted|
      invariant !resolved
      invariant forall j :: 0 <= j < i ==> !Resolves(sorted[j], item)
    {
      if Resolves(sorted[i], item) { return true; }
    }
  }

  method ProjectEffectiveState(records: seq<ActivityRecord>) returns (state: State)
    ensures state == Effective(records)
  {
    var sorted := InOrder(records);
    var corrections := CorrectionLoop(sorted);
    var open: seq<OpenItem> := [];
    for i := 0 to |sorted|
      invariant open == OpenItems(sorted, i)
    {
      if OpensItem(sorted[i].effect) {
        var resolved := SomeResolves(sorted, sorted[i]);
        if !resolved { open := open + [ItemOf(sorted[i])]; }
      }
    }
    var unitsByKey: OrderedMap<string, Unit> := Empty();
    for i := 0 to |sorted|
      invariant unitsByKey == Units(sorted[..i])
    {
      assert sorted[..i + 1][..i] == sorted[..i];
      if InUnit(sorted[i]) {
        var key := UnitKey(sorted[i]);
        unitsByKey := Put(unitsByKey, key, Extend(Lookup(unitsByKey, key), sorted[i]));
      }
    }
    assert sorted[..|sorted|] == sorted;
    state := State(Sort(CompareCorrections, corrections), open, Sort(CompareUnits, ValuesOf(unitsByKey)), |open|);
  }
}
