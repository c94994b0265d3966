// What the effective state shows, in terms of the records alone.

module EffectiveShown {
  import opened Options
  import opened OrderedMaps
  import opened Sorting
  import opened ActivityRecords
  import opened AttentionShown
  import opened EffectiveState
  import OpenAgreement

  // ----- open items -----

  // r opens an item, and no record of a larger sequence number closes it.
  ghost predicate Unresolved(records: seq<ActivityRecord>, r: ActivityRecord) {
    && r in records
    && (r.effect == Some(Hold) || r.effect == Some(Finding) || r.effect == Some(Recommendation))
    && forall q :: q in records && q.sequence > r.sequence ==> !ClosesItem(q, r)
  }

  // The open items are those of the unresolved records, and there are as many as need attention.
  lemma {:induction false} OpenExactly(records: seq<ActivityRecord>, item: OpenItem)
    ensures item in Effective(records).open
            <==> exists r :: Unresolved(records, r)
                   && item == OpenItem(r.id, r.effect.value, r.workflowId, r.sessionId)
    ensures Effective(records).needsAttention == |Effective(records).open|
  {
    var ordered := InOrder(records);
    OpenIsOfSome(ordered, item);
    EffectiveOpen(records);
    hide Effective, InOrder, OpenItems, ClosesItem, Resolves;
    if item in OpenItems(ordered, |ordered|) {
      var r :| r in ordered && StaysOpen(ordered, r) && ItemOf(r) == item;
      StaysOpenIsUnresolved(records, r);
    }
    if r :| Unresolved(records, r) && item == OpenItem(r.id, r.effect.value, r.workflowId, r.sessionId) {
      UnresolvedIsThere(records, r);
      StaysOpenIsUnresolved(records, r);
      assert r in ordered && StaysOpen(ordered, r) && ItemOf(r) == item;
    }
  }

  lemma EffectiveOpen(records: seq<ActivityRecord>)
    ensures Effective(records).open == OpenItems(InOrder(records), |InOrder(records)|)
    ensures Effective(records).needsAttention == |Effective(records).open|
  {
    hide InOrder, CorrectionGroups, CorrectionList, Units, OpenItems;
  }

  lemma OpenIsOfSome(ordered: seq<ActivityRecord>, item: OpenItem)
    ensures item in OpenItems(ordered, |ordered|)
            <==> exists r :: r in ordered && StaysOpen(ordered, r) && ItemOf(r) == item
  {
    OpenAgreement.OpenItemsMeaning(ordered, |ordered|);
    hide OpenItems, StaysOpen;
    if r :| r in ordered && StaysOpen(ordered, r) && ItemOf(r) == item {
      var i :| 0 <= i < |ordered| && ordered[i] == r;
      assert StaysOpen(ordered, ordered[i]) && ItemOf(ordered[i]) == item;
    }
  }

  lemma UnresolvedIsThere(records: seq<ActivityRecord>, r: ActivityRecord)
    requires Unresolved(records, r)
    ensures r in InOrder(records) && r in records && r.effect.Some?
    ensures ItemOf(r) == OpenItem(r.id, r.effect.value, r.workflowId, r.sessionId)
  {
    InOrderIsSorted(records);
  }

  lemma StaysOpenIsUnresolved(records: seq<ActivityRecord>, r: ActivityRecord)
    requires r in InOrder(records)
    ensures StaysOpen(InOrder(records), r) <==> Unresolved(records, r)
    ensures StaysOpen(InOrder(records), r) ==>
              r.effect.Some? && ItemOf(r) == OpenItem(r.id, r.effect.value, r.workflowId, r.sessionId)
  {
    InOrderIsSorted(records);
    hide InOrder;
    forall q ensures Resolves(q, r) <==> q.sequence > r.sequence && ClosesItem(q, r) {}
  }

  // The open items come in the order of their records.
  lemma {:induction false} OpenInRecordOrder(history: seq<ActivityRecord>, n: nat, x: int, y: int)
    requires n <= |history| && 0 <= x < y < |OpenItems(history, n)|
    ensures exists i, j :: 0 <= i < j < n
              && ItemOfAt(history, i, OpenItems(history, n)[x]) && ItemOfAt(history, j, OpenItems(history, n)[y])
  {
    var open := OpenItems(history, n);
    var before := OpenItems(history, n - 1);
    if y < |before| {
      OpenInRecordOrder(history, n - 1, x, y);
      var i, j :| 0 <= i < j < n - 1 && ItemOfAt(history, i, before[x]) && ItemOfAt(history, j, before[y]);
      assert ItemOfAt(history, i, open[x]) && ItemOfAt(history, j, open[y]);
    } else {
      OpenAgreement.OpenItemsMeaning(history, n - 1);
      assert before[x] in before;
      var i :| 0 <= i < n - 1 && StaysOpen(history, history[i]) && ItemOf(history[i]) == before[x];
      assert ItemOfAt(history, i, open[x]) && ItemOfAt(history, n - 1, open[y]);
    }
  }

  ghost predicate ItemOfAt(history: seq<ActivityRecord>, i: int, item: OpenItem) {
    && 0 <= i < |history| && history[i].id == item.id && history[i].effect == Some(item.effect)
    && history[i].workflowId == item.workflowId && history[i].sessionId == item.sessionId
  }

  // ----- corrections -----

  // r corrects the target, and no later record does.
  ghost predicate CorrectsLast(records: seq<ActivityRecord>, r: ActivityRecord, target: string) {
    && r in records && r.correctionOf == Some(target)
    && forall q :: q in records && Later(q, r) ==> q.correctionOf != Some(target)
  }

  lemma ListedCorrection(ordered: seq<ActivityRecord>, c: Correction)
    ensures c in CorrectionList(CorrectionGroups(ordered))
            <==> exists i :: OpenAgreement.CorrectsLastAt(ordered, c.originalId, i)
                   && ordered[i].id == c.latestCorrectionId
  {
    var m := CorrectionGroups(ordered);
    OpenAgreement.CorrectionIsTheLast(ordered, c.originalId);
    hide CorrectionGroups;
    if c in CorrectionList(m) {
      var n :| 0 <= n < |m.keys| && LatestOf(m.keys[n], m.vals[m.keys[n]]) == c;
      assert m.keys[n] in m.keys && m.keys[n] == c.originalId;
      var i :| OpenAgreement.CorrectsLastAt(ordered, c.originalId, i);
      assert ordered[i].id == c.latestCorrectionId;
    }
    if i :| OpenAgreement.CorrectsLastAt(ordered, c.originalId, i) && ordered[i].id == c.latestCorrectionId {
      var n :| 0 <= n < |m.keys| && m.keys[n] == c.originalId;
      assert CorrectionList(m)[n] == c;
    }
  }

  lemma CorrectionsOf(records: seq<ActivityRecord>)
    ensures forall c :: c in Effective(records).corrections
                        <==> c in CorrectionList(CorrectionGroups(InOrder(records)))
    ensures Sorted(CompareCorrections, Effective(records).corrections)
  {
    var list := CorrectionList(CorrectionGroups(InOrder(records)));
    hide InOrder, CorrectionGroups, CorrectionList, Units, OpenItems;
    CorrectionOrderIsTotal();
    SortSorts(CompareCorrections, list);
    SortMembers(CompareCorrections, list);
  }

  lemma CorrectionOrderIsTotal()
    ensures TotalPreorder(CompareCorrections)
  {
    forall a: Correction, b: Correction ensures CompareCorrections(a, b) < 0 <==> CompareCorrections(b, a) > 0 {
      CompareTextAntisymmetric(a.originalId, b.originalId);
    }
    forall a: Correction, b: Correction, c: Correction
      | CompareCorrections(a, b) <= 0 && CompareCorrections(b, c) <= 0
      ensures CompareCorrections(a, c) <= 0
    {
      CompareTextTransitive(a.originalId, b.originalId, c.originalId);
    }
  }

  lemma LastPlaceCorrects(records: seq<ActivityRecord>, target: string, i: int)
    requires Identified(records) && LastPlace(InOrder(records), i)
    ensures OpenAgreement.CorrectsLastAt(InOrder(records), target, i)
            <==> CorrectsLast(records, InOrder(records)[i], target)
  {
    var s, r := InOrder(records), InOrder(records)[i];
    forall q ensures (exists j :: i < j < |s| && s[j] == q) <==> q in records && Later(q, r) {
      AfterIsLater(records, i, q);
    }
    AfterIsLater(records, i, r);
    hide InOrder, Later;
  }

  // A correction is reported exactly when a record makes it and no later one corrects the same target.
  lemma {:induction false} CorrectionsExactly(records: seq<ActivityRecord>, c: Correction)
    requires Identified(records)
    ensures c in Effective(records).corrections
            <==> exists r :: CorrectsLast(records, r, c.originalId) && r.id == c.latestCorrectionId
  {
    var s := InOrder(records);
    CorrectionsOf(records);
    ListedCorrection(s, c);
    InOrderIsSorted(records);
    hide Effective, InOrder, CorrectsLast, Identified;
    if i :| OpenAgreement.CorrectsLastAt(s, c.originalId, i) && s[i].id == c.latestCorrectionId {
      LastPlaceCorrects(records, c.originalId, i);
      assert CorrectsLast(records, s[i], c.originalId);
    }
    if r :| CorrectsLast(records, r, c.originalId) && r.id == c.latestCorrectionId {
      assert r in s by { CorrectorIsThere(records, r, c.originalId); }
      HasLastPlace(s, r);
      var i :| LastPlace(s, i) && s[i] == r;
      LastPlaceCorrects(records, c.originalId, i);
    }
  }

  lemma CorrectorIsThere(records: seq<ActivityRecord>, r: ActivityRecord, target: string)
    requires CorrectsLast(records, r, target)
    ensures r in InOrder(records)
  {
    InOrderIsSorted(records);
  }

  // ----- the order of the lists -----

  // Corrections go by the text of what they correct, units from the most to the least recently active.
  lemma {:induction false} ListsAreInOrder(records: seq<ActivityRecord>)
    ensures var c := Effective(records).corrections;
            forall i, j :: 0 <= i < j < |c| ==> CompareText(c[i].originalId, c[j].originalId) <= 0
    ensures var u := Effective(records).units;
            forall i, j :: 0 <= i < j < |u| ==> CompareText(u[i].lastActivity, u[j].lastActivity) >= 0
  {
    CorrectionsOf(records);
    UnitsSorted(records);
    hide Effective;
    var u := Effective(records).units;
    forall i, j | 0 <= i < j < |u| ensures CompareText(u[i].lastActivity, u[j].lastActivity) >= 0 {
      assert CompareUnits(u[i], u[j]) <= 0;
      CompareTextAntisymmetric(u[i].lastActivity, u[j].lastActivity);
    }
  }

  lemma UnitsSorted(records: seq<ActivityRecord>)
    ensures Sorted(CompareUnits, Effective(records).units)
  {
    hide InOrder, CorrectionGroups, CorrectionList, Units, OpenItems;
    OpenAgreement.UnitOrderIsTotal();
    SortSorts(CompareUnits, ValuesOf(Units(InOrder(records))));
  }
}
