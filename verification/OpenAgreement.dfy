// The two read models agree on what is open, neither depends on arrival order, and the effective
// state accounts for every record.

module OpenAgreement {
  import opened Options
  import opened JoinedTexts
  import opened OrderedMaps
  import opened Sequences
  import opened Sorting
  import opened ActivityRecords
  import opened Attention
  import opened AttentionMeaning
  import Eff = EffectiveState

  // In a history without repeated sequence numbers or ids, sorting puts them in strict order.
  lemma OrderedStrictly(records: seq<ActivityRecord>)
    requires DistinctHistory(records)
    ensures DistinctHistory(InOrder(records))
    ensures forall i, j :: 0 <= i < j < |InOrder(records)| ==>
              InOrder(records)[i].sequence < InOrder(records)[j].sequence
    ensures forall r :: r in InOrder(records) <==> r in records
  {
    var s := InOrder(records);
    RecordOrderIsTotal();
    SortSorts(CompareRecords, records);
    SortMembers(CompareRecords, records);
    DistinctIgnoresOrder(records, s);
    forall i, j | 0 <= i < j < |s| ensures s[i].sequence < s[j].sequence && s[i].id != s[j].id {
      assert CompareRecords(s[i], s[j]) <= 0;
      assert s[i] in records && s[j] in records;
      var a :| 0 <= a < |records| && records[a] == s[i];
      var b :| 0 <= b < |records| && records[b] == s[j];
      assert a != b;
    }
  }

  // ----- what the projections show -----

  lemma ProjectShowsActive(records: seq<ActivityRecord>)
    ensures forall e :: e in Project(records) <==>
              exists k :: k in Active(InOrder(records)).vals && Active(InOrder(records)).vals[k] == e
  {
    var m := Active(InOrder(records));
    AttentionOrderIsTotal();
    SortMembers(CompareAttention, ValuesOf(m));
    hide Active, InOrder, Consistent, ValuesOf;
    forall e ensures e in Project(records) <==> exists k :: k in m.vals && m.vals[k] == e {
      InValuesOf(m, e);
    }
  }

  // Every active entry is the one its source record wrote, under the key that record wrote.
  lemma ActiveEntryHasSource(ordered: seq<ActivityRecord>, k: string, e: Entry)
    requires k in Active(ordered).vals && Active(ordered).vals[k] == e
    ensures exists i :: 0 <= i < |ordered| && Write(ordered[i]) == Some((k, e))
  {
    ActiveIsLastWriter(ordered, k, e);
    hide Active;
    var i :| LastWriter.LiveAt(ordered, i, Kills, Write, k, e);
    assert Write(ordered[i]) == Some((k, e));
  }

  // An effect entry in the active map sits under its source record's own key.
  lemma EffectEntryKey(ordered: seq<ActivityRecord>, k: string, e: Entry)
    requires k in Active(ordered).vals && Active(ordered).vals[k] == e && e.effect.Some?
    ensures k == "effect:" + e.sourceRecordId
  {
    ActiveEntryHasSource(ordered, k, e);
    hide Active;
    var i :| 0 <= i < |ordered| && Write(ordered[i]) == Some((k, e));
    EffectEntriesUseEffectKeys(ordered[i]);
  }

  lemma EffectEntriesUseEffectKeys(r: ActivityRecord)
    ensures Write(r).Some? && Write(r).value.1.effect.Some? ==>
              Write(r).value.0 == "effect:" + r.id && Write(r).value.1.sourceRecordId == r.id
  {}

  lemma {:induction false} OpenItemsMeaning(history: seq<ActivityRecord>, n: nat)
    requires n <= |history|
    ensures forall item :: item in Eff.OpenItems(history, n) <==>
              exists i :: 0 <= i < n && Eff.StaysOpen(history, history[i]) && Eff.ItemOf(history[i]) == item
  {
    if n > 0 {
      OpenItemsMeaning(history, n - 1);
      var before, all := Eff.OpenItems(history, n - 1), Eff.OpenItems(history, n);
      forall item ensures item in all <==>
        exists i :: 0 <= i < n && Eff.StaysOpen(history, history[i]) && Eff.ItemOf(history[i]) == item
      {
        if i :| 0 <= i < n && Eff.StaysOpen(history, history[i]) && Eff.ItemOf(history[i]) == item {
          assert i < n - 1 || i == n - 1;
        }
      }
    }
  }

  // One pass over the history and the quadratic search agree record by record.
  lemma {:induction false} UnresolvedIsOpen(ordered: seq<ActivityRecord>, i: int)
    requires 0 <= i < |ordered|
    requires forall a, b :: 0 <= a < b < |ordered| ==> ordered[a].sequence < ordered[b].sequence
    ensures OpensItem(ordered[i].effect) && UnresolvedAfter(ordered, i) <==> Eff.StaysOpen(ordered, ordered[i])
  {
    if UnresolvedAfter(ordered, i) {
      forall r | r in ordered ensures !Eff.Resolves(r, ordered[i]) {
        var j :| 0 <= j < |ordered| && ordered[j] == r;
        assert j <= i ==> r.sequence <= ordered[i].sequence;
      }
    }
    if Eff.StaysOpen(ordered, ordered[i]) {
      forall j | i < j < |ordered|
        ensures !ResolvesEffect(ordered[j], ordered[i].id, ordered[i].workflowId, ordered[i].sessionId)
      {
        assert ordered[j] in ordered;
      }
    }
  }

  lemma ShownEffectEntry(records: seq<ActivityRecord>, id: string)
    ensures (exists e :: e in Project(records) && e.effect.Some? && e.sourceRecordId == id)
            <==> ("effect:" + id) in Active(InOrder(records)).vals
                 && Active(InOrder(records)).vals["effect:" + id].effect.Some?
                 && Active(InOrder(records)).vals["effect:" + id].sourceRecordId == id
    ensures forall e :: e in Project(records) && e.effect.Some? && e.sourceRecordId == id ==>
              ("effect:" + id) in Active(InOrder(records)).vals && Active(InOrder(records)).vals["effect:" + id] == e
  {
    var active := Active(InOrder(records)).vals;
    ProjectShowsActive(records);
    hide Active, Project;
    forall e | e in Project(records) && e.effect.Some? && e.sourceRecordId == id
      ensures ("effect:" + id) in active && active["effect:" + id] == e
    {
      var k :| k in active && active[k] == e;
      EffectEntryKey(InOrder(records), k, e);
    }
  }

  lemma OpenItemOf(ordered: seq<ActivityRecord>, i: int)
    requires 0 <= i < |ordered| && forall j :: 0 <= j < |ordered| && j != i ==> ordered[j].id != ordered[i].id
    ensures (exists o :: o in Eff.OpenItems(ordered, |ordered|) && o.id == ordered[i].id)
            <==> Eff.StaysOpen(ordered, ordered[i])
  {
    OpenItemsMeaning(ordered, |ordered|);
    hide Eff.OpenItems;
    if Eff.StaysOpen(ordered, ordered[i]) {
      assert Eff.ItemOf(ordered[i]) in Eff.OpenItems(ordered, |ordered|);
    }
  }

  // ----- when the two views agree -----

  ghost predicate DistinctIds(records: seq<ActivityRecord>) {
    forall i, j :: 0 <= i < j < |records| ==> records[i].id != records[j].id
  }

  ghost predicate ShownFor(records: seq<ActivityRecord>, id: string) {
    exists e :: e in Project(records) && e.effect.Some? && e.sourceRecordId == id
  }

  ghost predicate OpenFor(records: seq<ActivityRecord>, id: string) {
    exists o :: o in Eff.Effective(records).open && o.id == id
  }

  predicate Closes(q: ActivityRecord, r: ActivityRecord) { ResolvesEffect(q, r.id, r.workflowId, r.sessionId) }

  // A record of the same sequence number and a greater id closes the item of r.
  ghost predicate ClosedAlongside(records: seq<ActivityRecord>, r: ActivityRecord) {
    exists q :: q in records && q.sequence == r.sequence && CompareText(q.id, r.id) > 0 && Closes(q, r)
  }

  // A record of a larger sequence number closes it.
  ghost predicate ClosedLater(records: seq<ActivityRecord>, r: ActivityRecord) {
    exists q :: q in records && q.sequence > r.sequence && Closes(q, r)
  }

  // With distinct ids, the records after r in sorted order are those of a larger sequence number,
  // and those of its own with a greater id.
  lemma OrderedById(records: seq<ActivityRecord>)
    requires DistinctIds(records)
    ensures DistinctIds(InOrder(records)) && forall r :: r in InOrder(records) <==> r in records
    ensures forall i, j :: 0 <= i < j < |InOrder(records)| ==>
              CompareRecords(InOrder(records)[i], InOrder(records)[j]) < 0
  {
    var s := InOrder(records);
    RecordOrderIsTotal();
    SortSorts(CompareRecords, records);
    SortMembers(CompareRecords, records);
    assert Distinct(records);
    DistinctIgnoresOrder(records, s);
    forall i, j | 0 <= i < j < |s| ensures CompareRecords(s[i], s[j]) < 0 && s[i].id != s[j].id {
      assert CompareRecords(s[i], s[j]) <= 0;
      assert s[i] in records && s[j] in records;
      var a :| 0 <= a < |records| && records[a] == s[i];
      var b :| 0 <= b < |records| && records[b] == s[j];
      assert a != b;
    }
  }

  lemma UnresolvedMeansNeitherCloses(records: seq<ActivityRecord>, i: int)
    requires DistinctIds(records) && 0 <= i < |InOrder(records)|
    ensures UnresolvedAfter(InOrder(records), i)
            <==> !ClosedAlongside(records, InOrder(records)[i]) && !ClosedLater(records, InOrder(records)[i])
  {
    var s, r := InOrder(records), InOrder(records)[i];
    OrderedById(records);
    RecordOrderIsTotal();
    hide InOrder, DistinctIds, ResolvesEffect;
    forall q | q in records ensures CompareRecords(r, q) < 0 && UnresolvedAfter(s, i) ==> !Closes(q, r) {
      var j :| 0 <= j < |s| && s[j] == q;
      if j < i { assert CompareRecords(s[j], s[i]) < 0; }
    }
    forall q | q in records ensures q.sequence == r.sequence && CompareText(q.id, r.id) > 0 ==>
        CompareRecords(r, q) < 0 {
      CompareTextAntisymmetric(r.id, q.id);
    }
    if !ClosedAlongside(records, r) && !ClosedLater(records, r) {
      forall j | i < j < |s| ensures !ResolvesEffect(s[j], r.id, r.workflowId, r.sessionId) {
        assert s[j] in records && CompareRecords(s[i], s[j]) < 0;
        CompareTextAntisymmetric(r.id, s[j].id);
        assert !Closes(s[j], r);
      }
    }
  }

  lemma StaysOpenMeansNotClosedLater(records: seq<ActivityRecord>, r: ActivityRecord)
    ensures Eff.StaysOpen(records, r) <==> OpensItem(r.effect) && !ClosedLater(records, r)
  {
    forall q ensures Eff.Resolves(q, r) <==> q.sequence > r.sequence && Closes(q, r) {}
    hide Eff.Resolves, ResolvesEffect;
  }

  // Each view by itself, in terms of the records that close the item.
  lemma WhatEachViewShows(records: seq<ActivityRecord>, r: ActivityRecord)
    requires DistinctIds(records) && r in records
    ensures ShownFor(records, r.id)
            <==> KindAttention(r) == None && OpensItem(r.effect)
                 && !ClosedAlongside(records, r) && !ClosedLater(records, r)
    ensures OpenFor(records, r.id) <==> OpensItem(r.effect) && !ClosedLater(records, r)
    ensures forall e :: e in Project(records) && e.effect.Some? && e.sourceRecordId == r.id ==>
              Some(e) == EffectAttention(r)
  {
    var ordered := InOrder(records);
    OrderedById(records);
    var i :| 0 <= i < |ordered| && ordered[i] == r;
    EffectEntryExactlyWhenUnresolved(ordered, i);
    UnresolvedMeansNeitherCloses(records, i);
    OpenItemOf(ordered, i);
    StaysOpenMeansNotClosedLater(records, r);
    assert Eff.StaysOpen(ordered, r) <==> Eff.StaysOpen(records, r);
    ShownEffectEntry(records, r.id);
    assert Eff.Effective(records).open == Eff.OpenItems(ordered, |ordered|);
  }

  // With distinct ids, the two views agree on r exactly unless r opens an item and nothing of its own
  // kind, a record of r's own sequence number with a greater id closes that item, and no record of a
  // larger sequence number does.
  lemma {:induction false} ViewsAgreeExactly(records: seq<ActivityRecord>, r: ActivityRecord)
    requires DistinctIds(records) && r in records
    ensures (ShownFor(records, r.id) <==> KindAttention(r) == None && OpenFor(records, r.id))
            <==> !(KindAttention(r) == None && OpensItem(r.effect)
                   && ClosedAlongside(records, r) && !ClosedLater(records, r))
  {
    WhatEachViewShows(records, r);
    hide *;
  }

  // The effect entries shown under "needs attention" are exactly the open items of the effective
  // state whose record opened no entry of its own kind.
  lemma {:induction false} EffectEntriesAreOpenItems(records: seq<ActivityRecord>, r: ActivityRecord)
    requires DistinctHistory(records) && r in records
    ensures (exists e :: e in Project(records) && e.effect.Some? && e.sourceRecordId == r.id)
            <==> KindAttention(r) == None && exists o :: o in Eff.Effective(records).open && o.id == r.id
    ensures forall e :: e in Project(records) && e.effect.Some? && e.sourceRecordId == r.id ==>
              Some(e) == EffectAttention(r)
  {
    ViewsAgreeExactly(records, r);
    WhatEachViewShows(records, r);
    hide Project, Eff.Effective, ResolvesEffect;
    if ClosedAlongside(records, r) {
      var q :| q in records && q.sequence == r.sequence && CompareText(q.id, r.id) > 0 && Closes(q, r);
      var a :| 0 <= a < |records| && records[a] == r;
      var b :| 0 <= b < |records| && records[b] == q;
      CompareTextAntisymmetric(q.id, r.id);
    }
  }

  const HOLD: ActivityRecord := Record("a", 1, "t", None, None, None, None, Some(Hold), [], None, ToolCall)
  const CLOSE: ActivityRecord := Record("b", 1, "t", None, None, None, None, None, ["a"], None, ToolCall)

  // It happens: two records with the same sequence number, the second of which closes the first. The
  // fold sees the item closed, the effective state does not.
  lemma {:induction false} SharedSequenceNumberSplitsTheViews()
    ensures Identified([HOLD, CLOSE]) && KindAttention(HOLD) == None
    ensures exists o :: o in Eff.Effective([HOLD, CLOSE]).open && o.id == HOLD.id
    ensures !exists e :: e in Project([HOLD, CLOSE]) && e.effect.Some? && e.sourceRecordId == HOLD.id
  {
    var records := [HOLD, CLOSE];
    WhatEachViewShows(records, HOLD);
    hide Project, Eff.Effective;
    assert records[1] == CLOSE && CompareText("b", "a") > 0 && Closes(CLOSE, HOLD);
    assert ClosedAlongside(records, HOLD);
  }

  // ----- arrival order -----

  lemma {:induction false} ProjectionsIgnoreArrivalOrder(a: seq<ActivityRecord>, b: seq<ActivityRecord>)
    requires Identified(a) && multiset(a) == multiset(b)
    ensures Project(a) == Project(b)
    ensures Eff.Effective(a) == Eff.Effective(b)
  {
    RecordOrderIsTotal();
    IdentifiedSeparates(a);
    SortIgnoresArrivalOrder(CompareRecords, a, b);
  }

  lemma ActiveValuesHaveOwnIds(ordered: seq<ActivityRecord>)
    requires DistinctHistory(ordered)
    ensures var vs := ValuesOf(Active(ordered));
            forall i, j :: 0 <= i < j < |vs| ==> vs[i].attentionId != vs[j].attentionId
  {
    var m := Active(ordered);
    var vs := ValuesOf(m);
    hide Active;
    forall i, j | 0 <= i < j < |vs| ensures vs[i].attentionId != vs[j].attentionId {
      assert m.keys[i] in m.vals && m.keys[j] in m.vals;
      SameIdSameKey(ordered, m.keys[i], m.keys[j]);
    }
  }

  lemma SortedByOwnIds(vs: seq<Entry>)
    requires forall i, j :: 0 <= i < j < |vs| ==> vs[i].attentionId != vs[j].attentionId
    ensures var out := Sort(CompareAttention, vs);
            forall i, j :: 0 <= i < j < |out| ==> CompareAttention(out[i], out[j]) < 0
  {
    var out := Sort(CompareAttention, vs);
    AttentionOrderIsTotal();
    SortSorts(CompareAttention, vs);
    SortMembers(CompareAttention, vs);
    hide TotalPreorder, Sort;
    DistinctIgnoresOrder(vs, out);
    forall i, j | 0 <= i < j < |out| ensures CompareAttention(out[i], out[j]) < 0 {
      assert out[i] in vs && out[j] in vs && out[i] != out[j];
      assert CompareAttention(out[i], out[j]) <= 0;
    }
  }

  // The attention list is in strictly increasing order: no two entries tie.
  lemma {:induction false} AttentionOutputIsStrict(records: seq<ActivityRecord>)
    requires DistinctHistory(records)
    ensures forall i, j :: 0 <= i < j < |Project(records)| ==>
              CompareAttention(Project(records)[i], Project(records)[j]) < 0
  {
    OrderedStrictly(records);
    var vs := ValuesOf(Active(InOrder(records)));
    ActiveValuesHaveOwnIds(InOrder(records));
    assert forall i, j :: 0 <= i < j < |vs| ==> vs[i].attentionId != vs[j].attentionId;
    SortedByOwnIds(vs);
    assert Project(records) == Sort(CompareAttention, vs);
  }

  lemma SameIdSameKey(ordered: seq<ActivityRecord>, k: string, l: string)
    requires DistinctHistory(ordered) && k in Active(ordered).vals && l in Active(ordered).vals
    ensures Active(ordered).vals[k].attentionId == Active(ordered).vals[l].attentionId ==> k == l
  {
    var x, y := Active(ordered).vals[k], Active(ordered).vals[l];
    ActiveEntryHasSource(ordered, k, x);
    ActiveEntryHasSource(ordered, l, y);
    hide Active;
    var i :| 0 <= i < |ordered| && Write(ordered[i]) == Some((k, x));
    var j :| 0 <= j < |ordered| && Write(ordered[j]) == Some((l, y));
    WrittenIdentity(ordered[i]);
    WrittenIdentity(ordered[j]);
    if x.attentionId == y.attentionId { KeyBody("attention:", ordered[i].id, ordered[j].id); }
  }

  lemma WrittenIdentity(r: ActivityRecord)
    ensures Write(r).Some? ==> Write(r).value.1.attentionId == "attention:" + r.id
  {}

  // ----- what a unit and a correction report -----

  function CountOf(u: Eff.Unit): nat { u.recordCount }

  function UnitWeight(r: ActivityRecord): nat { if r.workflowId == None == r.sessionId then 0 else 1 }

  lemma {:induction false} TotalUpdate(s: seq<Eff.Unit>, i: nat, u: Eff.Unit)
    requires i < |s|
    ensures Total(s[i := u], CountOf) + s[i].recordCount == Total(s, CountOf) + u.recordCount
  {
    var n := |s| - 1;
    if i < n {
      TotalUpdate(s[..n], i, u);
      assert s[i := u][..n] == s[..n][i := u];
    } else {
      assert s[i := u][..n] == s[..n];
    }
  }

  lemma PutReplaces(m: OrderedMap<string, Eff.Unit>, k: string, u: Eff.Unit) returns (i: nat)
    requires k in m.vals
    ensures i < |ValuesOf(m)| && ValuesOf(m)[i] == m.vals[k] && ValuesOf(Put(m, k, u)) == ValuesOf(m)[i := u]
  {
    i :| 0 <= i < |m.keys| && m.keys[i] == k;
  }

  lemma PutTotal(m: OrderedMap<string, Eff.Unit>, k: string, u: Eff.Unit)
    ensures Total(ValuesOf(Put(m, k, u)), CountOf)
            == Total(ValuesOf(m), CountOf) + u.recordCount - (if k in m.vals then m.vals[k].recordCount else 0)
  {
    var vs, ws := ValuesOf(m), ValuesOf(Put(m, k, u));
    if k in m.vals {
      var i := PutReplaces(m, k, u);
      TotalUpdate(vs, i, u);
    } else {
      assert ws[..|vs|] == vs;
    }
  }

  lemma {:induction false} UnitsTotal(ordered: seq<ActivityRecord>)
    ensures Total(ValuesOf(Eff.Units(ordered)), CountOf) == Total(ordered, UnitWeight)
  {
    if ordered != [] {
      var front, r := ordered[..|ordered| - 1], ordered[|ordered| - 1];
      UnitsTotal(front);
      if Eff.InUnit(r) {
        var m := Eff.Units(front);
        PutTotal(m, Eff.UnitKey(r), Eff.Extend(Lookup(m, Eff.UnitKey(r)), r));
      }
    }
  }

  // Every record that carries a workflow or session id is counted in exactly one unit.
  lemma {:induction false} UnitCountsAddUp(records: seq<ActivityRecord>)
    ensures Total(Eff.Effective(records).units, CountOf) == Total(records, UnitWeight)
  {
    var ordered := InOrder(records);
    var units := ValuesOf(Eff.Units(ordered));
    RecordOrderIsTotal();
    SortSorts(CompareRecords, records);
    TotalIgnoresOrder(ordered, records, UnitWeight);
    UnitsTotal(ordered);
    UnitOrderIsTotal();
    SortSorts(Eff.CompareUnits, units);
    TotalIgnoresOrder(Eff.Effective(records).units, units, CountOf);
  }

  lemma UnitOrderIsTotal()
    ensures TotalPreorder(Eff.CompareUnits)
  {
    forall x: Eff.Unit, y: Eff.Unit ensures Eff.CompareUnits(x, y) < 0 <==> Eff.CompareUnits(y, x) > 0 {
      CompareTextAntisymmetric(y.lastActivity, x.lastActivity);
    }
    forall x: Eff.Unit, y: Eff.Unit, z: Eff.Unit | Eff.CompareUnits(x, y) <= 0 && Eff.CompareUnits(y, z) <= 0
      ensures Eff.CompareUnits(x, z) <= 0
    {
      CompareTextTransitive(z.lastActivity, y.lastActivity, x.lastActivity);
    }
  }

  ghost predicate OfUnit(r: ActivityRecord, key: string) { Eff.InUnit(r) && Eff.UnitKey(r) == key }

  // Record i has an effect and no later record of the unit has one.
  ghost predicate LastEffectAt(ordered: seq<ActivityRecord>, key: string, i: int) {
    && 0 <= i < |ordered| && OfUnit(ordered[i], key) && ordered[i].effect.Some?
    && forall j :: i < j < |ordered| && OfUnit(ordered[j], key) ==> ordered[j].effect == None
  }

  // A unit exists exactly when some record belongs to it; its last activity is the latest
  // timestamp of any of its records.
  lemma {:induction false} UnitMeaning(ordered: seq<ActivityRecord>, key: string)
    ensures key in Eff.Units(ordered).vals <==> exists r :: r in ordered && OfUnit(r, key)
    ensures key in Eff.Units(ordered).vals ==>
              var u := Eff.Units(ordered).vals[key];
              && (forall r :: r in ordered && OfUnit(r, key) ==> CompareText(r.timestamp, u.lastActivity) <= 0)
              && (exists r :: r in ordered && OfUnit(r, key) && r.timestamp == u.lastActivity)
  {
    hide Consistent, CompareText;
    if ordered != [] {
      var front, r := ordered[..|ordered| - 1], ordered[|ordered| - 1];
      UnitMeaning(front, key);
      assert ordered == front + [r];
      if OfUnit(r, key) {
        CompareTextAntisymmetric(r.timestamp, r.timestamp);
        if key in Eff.Units(front).vals { LatestTime(front, key, r.timestamp,
            Eff.Units(front).vals[key].lastActivity); }
      }
    }
  }

  // A unit's disposition is the effect of its last record that has one.
  lemma {:induction false} UnitDisposition(ordered: seq<ActivityRecord>, key: string, i: int)
    requires LastEffectAt(ordered, key, i)
    ensures key in Eff.Units(ordered).vals && Eff.Units(ordered).vals[key].latestEffect == ordered[i].effect
  {
    hide Consistent, CompareText;
    var n := |ordered| - 1;
    if i < n {
      assert forall j :: i < j < n ==> ordered[..n][j] == ordered[j];
      UnitDisposition(ordered[..n], key, i);
    }
  }

  lemma LatestTime(front: seq<ActivityRecord>, key: string, t: string, last: string)
    requires forall q :: q in front && OfUnit(q, key) ==> CompareText(q.timestamp, last) <= 0
    ensures var latest := if CompareText(t, last) > 0 then t else last;
            CompareText(t, latest) <= 0 && CompareText(last, latest) <= 0
            && forall q :: q in front && OfUnit(q, key) ==> CompareText(q.timestamp, latest) <= 0
  {
    CompareTextAntisymmetric(t, last);
    CompareTextAntisymmetric(last, t);
    CompareTextAntisymmetric(t, t);
    CompareTextAntisymmetric(last, last);
    forall q | q in front && OfUnit(q, key) && CompareText(t, last) > 0 ensures CompareText(q.timestamp, t) <= 0 {
      CompareTextTransitive(q.timestamp, last, t);
    }
  }

  // ----- the projected units -----

  // How many records belong to a unit.
  ghost function SizeOf(ordered: seq<ActivityRecord>, key: string): nat {
    if ordered == [] then 0
    else SizeOf(ordered[..|ordered| - 1], key) + (if OfUnit(ordered[|ordered| - 1], key) then 1 else 0)
  }

  // Record i is the last one of the unit.
  ghost predicate LastOfUnitAt(ordered: seq<ActivityRecord>, key: string, i: int) {
    0 <= i < |ordered| && OfUnit(ordered[i], key) && forall j :: i < j < |ordered| ==> !OfUnit(ordered[j], key)
  }

  predicate SameIds(u: Eff.Unit, r: ActivityRecord) { u.workflowId == r.workflowId && u.sessionId == r.sessionId }

  // What a unit says, read off the records that belong to it.
  ghost predicate Describes(ordered: seq<ActivityRecord>, key: string, u: Eff.Unit) {
    && u.recordCount == SizeOf(ordered, key) > 0
    && (exists i :: LastOfUnitAt(ordered, key, i) && SameIds(u, ordered[i]))
    && (if u.latestEffect.Some? then exists i :: LastEffectAt(ordered, key, i) && ordered[i].effect == u.latestEffect
        else forall r :: r in ordered && OfUnit(r, key) ==> r.effect == None)
    && (forall r :: r in ordered && OfUnit(r, key) ==> CompareText(r.timestamp, u.lastActivity) <= 0)
    && (exists r :: r in ordered && OfUnit(r, key) && r.timestamp == u.lastActivity)
  }

  lemma {:induction false} UnitSize(ordered: seq<ActivityRecord>, key: string)
    ensures SizeOf(ordered, key)
            == if key in Eff.Units(ordered).vals then Eff.Units(ordered).vals[key].recordCount else 0
    ensures key in Eff.Units(ordered).vals ==> Eff.Units(ordered).vals[key].recordCount > 0
  {
    hide Consistent, CompareText;
    if ordered != [] { UnitSize(ordered[..|ordered| - 1], key); }
  }

  lemma {:induction false} UnitIsItsLastRecords(ordered: seq<ActivityRecord>, key: string) returns (i: int)
    requires key in Eff.Units(ordered).vals
    ensures LastOfUnitAt(ordered, key, i)
    ensures SameIds(Eff.Units(ordered).vals[key], ordered[i])
  {
    hide Consistent, CompareText;
    i := |ordered| - 1;
    if !OfUnit(ordered[i], key) {
      var front := ordered[..|ordered| - 1];
      i := UnitIsItsLastRecords(front, key);
      assert forall j :: 0 <= j < |front| ==> front[j] == ordered[j];
    }
  }

  lemma {:induction false} UnitEffect(ordered: seq<ActivityRecord>, key: string)
    requires key in Eff.Units(ordered).vals
    ensures var effect := Eff.Units(ordered).vals[key].latestEffect;
            if effect.Some? then exists i :: LastEffectAt(ordered, key, i) && ordered[i].effect == effect
            else forall r :: r in ordered && OfUnit(r, key) ==> r.effect == None
  {
    hide Consistent, CompareText;
    var n := |ordered| - 1;
    var front := ordered[..n];
    assert ordered == front + [ordered[n]];
    if OfUnit(ordered[n], key) && ordered[n].effect.Some? {
      assert LastEffectAt(ordered, key, n);
    } else if key in Eff.Units(front).vals {
      UnitEffect(front, key);
      if i :| LastEffectAt(front, key, i) && ordered[i].effect == Eff.Units(front).vals[key].latestEffect {
        assert forall j :: 0 <= j < n ==> front[j] == ordered[j];
        assert LastEffectAt(ordered, key, i);
      }
    } else {
      UnitMeaning(front, key);
    }
  }

  lemma UnitIsDescribed(ordered: seq<ActivityRecord>, key: string)
    requires key in Eff.Units(ordered).vals
    ensures Describes(ordered, key, Eff.Units(ordered).vals[key])
  {
    UnitSize(ordered, key);
    UnitMeaning(ordered, key);
    UnitEffect(ordered, key);
    var i := UnitIsItsLastRecords(ordered, key);
    hide Eff.Units, SizeOf, LastEffectAt, OfUnit, CompareText;
  }

  // The records leave no choice about what their unit says.
  lemma DescriptionIsUnique(ordered: seq<ActivityRecord>, key: string, u: Eff.Unit, v: Eff.Unit)
    requires Describes(ordered, key, u) && Describes(ordered, key, v)
    ensures u == v
  {
    hide SizeOf, CompareText;
    var i :| LastOfUnitAt(ordered, key, i) && SameIds(u, ordered[i]);
    var j :| LastOfUnitAt(ordered, key, j) && SameIds(v, ordered[j]);
    assert i == j;
    CompareTextAntisymmetric(u.lastActivity, v.lastActivity);
    CompareTextAntisymmetric(v.lastActivity, u.lastActivity);
    SameEffect(ordered, key, u, v);
  }

  lemma SameEffect(ordered: seq<ActivityRecord>, key: string, u: Eff.Unit, v: Eff.Unit)
    requires Describes(ordered, key, u) && Describes(ordered, key, v)
    ensures u.latestEffect == v.latestEffect
  {
    hide SizeOf, CompareText;
    if u.latestEffect.Some? {
      var i :| LastEffectAt(ordered, key, i) && ordered[i].effect == u.latestEffect;
      assert ordered[i] in ordered;
      if v.latestEffect.Some? {
        var j :| LastEffectAt(ordered, key, j) && ordered[j].effect == v.latestEffect;
        assert i == j;
      }
    } else if v.latestEffect.Some? {
      var j :| LastEffectAt(ordered, key, j) && ordered[j].effect == v.latestEffect;
      assert ordered[j] in ordered;
    }
  }

  lemma DescribedUnitExists(ordered: seq<ActivityRecord>, key: string, u: Eff.Unit)
    requires Describes(ordered, key, u)
    ensures key in Eff.Units(ordered).vals && Eff.Units(ordered).vals[key] == u
  {
    UnitMeaning(ordered, key);
    hide CompareText, SizeOf;
    assert key in Eff.Units(ordered).vals;
    UnitIsDescribed(ordered, key);
    hide Eff.Units, Describes;
    DescriptionIsUnique(ordered, key, u, Eff.Units(ordered).vals[key]);
  }

  lemma ProjectedUnits(records: seq<ActivityRecord>, u: Eff.Unit)
    ensures u in Eff.Effective(records).units
            <==> exists key :: key in Eff.Units(InOrder(records)).vals && Eff.Units(InOrder(records)).vals[key] == u
  {
    var m := Eff.Units(InOrder(records));
    var units := Eff.Effective(records).units;
    SortedUnits(ValuesOf(m), u);
    InValuesOf(m, u);
    assert units == Sort(Eff.CompareUnits, ValuesOf(m)) by {
      hide Eff.Units, InOrder, Sort, ValuesOf, Consistent, Eff.OpenItems, Eff.CorrectionGroups, Eff.CorrectionList;
    }
    hide Eff.Effective, Eff.Units, InOrder, Sort, ValuesOf, Consistent;
    if u in ValuesOf(m) {
      var key :| key in m.vals && m.vals[key] == u;
      assert key in Eff.Units(InOrder(records)).vals && Eff.Units(InOrder(records)).vals[key] == u;
    }
  }

  lemma SortedUnits(units: seq<Eff.Unit>, u: Eff.Unit)
    ensures u in Sort(Eff.CompareUnits, units) <==> u in units
  {
    UnitOrderIsTotal();
    SortMembers(Eff.CompareUnits, units);
  }

  // The units shown are exactly the units the records describe, each record counted where its ids say.
  lemma {:induction false} UnitsShownAreTheUnitsDescribed(records: seq<ActivityRecord>, u: Eff.Unit)
    ensures u in Eff.Effective(records).units <==> exists key :: Describes(InOrder(records), key, u)
  {
    ProjectedUnits(records, u);
    hide Eff.Effective, InOrder, Eff.Units, Describes;
    if key :| key in Eff.Units(InOrder(records)).vals && Eff.Units(InOrder(records)).vals[key] == u {
      UnitIsDescribed(InOrder(records), key);
    }
    if key :| Describes(InOrder(records), key, u) { DescribedUnitExists(InOrder(records), key, u); }
  }

  // Two records fall into one unit exactly when their ids read the same, a missing id as empty, or
  // the workflow id of one goes on after a bar where the session id of the other takes up.
  lemma {:induction false} UnitsSharedExactly(r: ActivityRecord, q: ActivityRecord)
    ensures var w, s := r.workflowId.GetOr(""), r.sessionId.GetOr("");
            var v, t := q.workflowId.GetOr(""), q.sessionId.GetOr("");
            Eff.UnitKey(r) == Eff.UnitKey(q) <==> ReadAlike(w, s, v, t, '|')
  {
    SameKeyExactly(r.workflowId.GetOr(""), r.sessionId.GetOr(""), q.workflowId.GetOr(""), q.sessionId.GetOr(""), '|');
    assert Eff.UnitKey(r) == Joined(r.workflowId.GetOr(""), '|', r.sessionId.GetOr(""));
    assert Eff.UnitKey(q) == Joined(q.workflowId.GetOr(""), '|', q.sessionId.GetOr(""));
  }

  const BAR_LEFT: ActivityRecord :=
    Record("a", 1, "t", Some("w"), Some("x|s"), None, None, None, [], None, ToolCall)
  const BAR_RIGHT: ActivityRecord :=
    Record("b", 2, "t", Some("w|x"), Some("s"), None, None, None, [], None, ToolCall)

  lemma BarRecordsInOrder()
    ensures InOrder([BAR_LEFT, BAR_RIGHT]) == [BAR_LEFT, BAR_RIGHT]
  {
    assert [BAR_LEFT, BAR_RIGHT][..1] == [BAR_LEFT] && [BAR_LEFT][..0] == [];
    assert Sort(CompareRecords, [BAR_LEFT]) == [BAR_LEFT];
    assert CompareRecords(BAR_LEFT, BAR_RIGHT) <= 0;
  }

  // It happens: two records of different workflows and different sessions are counted in one unit.
  lemma {:induction false} DifferentIdsShareAUnit()
    ensures BAR_LEFT.workflowId != BAR_RIGHT.workflowId && BAR_LEFT.sessionId != BAR_RIGHT.sessionId
    ensures exists u :: u in Eff.Effective([BAR_LEFT, BAR_RIGHT]).units && u.recordCount == 2
  {
    var records, key := [BAR_LEFT, BAR_RIGHT], Eff.UnitKey(BAR_LEFT);
    UnitsSharedExactly(BAR_LEFT, BAR_RIGHT);
    assert BAR_LEFT.workflowId.value + "|" == "w|x"[..2];
    BarRecordsInOrder();
    assert Eff.UnitKey(BAR_RIGHT) == key;
    assert records[..1] == [BAR_LEFT] && records[..1][..0] == [] && SizeOf([], key) == 0;
    assert SizeOf(records[..1], key) == 1;
    assert SizeOf(records, key) == 2;
    UnitSize(records, key);
    hide InOrder, Eff.Units, Eff.Effective, SizeOf;
    ProjectedUnits(records, Eff.Units(records).vals[key]);
  }

  // Record i corrects the target and no later record does.
  ghost predicate CorrectsLastAt(ordered: seq<ActivityRecord>, target: string, i: int) {
    && 0 <= i < |ordered| && ordered[i].correctionOf == Some(target)
    && forall j :: i < j < |ordered| ==> ordered[j].correctionOf != Some(target)
  }

  // The correction reported for a target is the last record that corrects it.
  lemma {:induction false} CorrectionIsTheLast(ordered: seq<ActivityRecord>, target: string)
    ensures target in Eff.CorrectionGroups(ordered).vals <==> exists i :: CorrectsLastAt(ordered, target, i)
    ensures forall i :: CorrectsLastAt(ordered, target, i) ==>
              target in Eff.CorrectionGroups(ordered).vals && Eff.CorrectionGroups(ordered).vals[target] != []
              && Eff.LatestOf(target, Eff.CorrectionGroups(ordered).vals[target]).latestCorrectionId == ordered[i].id
  {
    hide Consistent;
    if ordered != [] {
      var n := |ordered| - 1;
      CorrectionIsTheLast(ordered[..n], target);
      if ordered[n].correctionOf == Some(target) {
        assert CorrectsLastAt(ordered, target, n);
      } else {
        forall i ensures CorrectsLastAt(ordered, target, i) <==> CorrectsLastAt(ordered[..n], target, i) {
          if CorrectsLastAt(ordered[..n], target, i) {
            assert forall j :: i < j < n ==> ordered[j] == ordered[..n][j];
          }
        }
      }
    }
  }
}
