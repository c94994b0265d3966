// Needs-attention entries from repository verification reports: the second last-writer fold of
// attention.ts, over the checks of all reports in creation order.

module RepositoryVerification {
  import opened Options
  import opened OrderedMaps
  import opened Sorting
  import opened LastWriter
  import opened Attention
  import ActivityRecords

  datatype Check = Check(id: string, checkType: Option<string>, status: string, completedAt: Option<string>)
  datatype Report = Report(id: string, changeSetId: string, createdAt: string, completedAt: Option<string>,
                           checks: seq<Check>)
  datatype Observed = Observed(report: Report, check: Check)

  function CheckKey(o: Observed): string { o.report.changeSetId + ":" + o.check.id }

  function CompareReports(left: Report, right: Report): int {
    if CompareText(left.createdAt, right.createdAt) != 0 then CompareText(left.createdAt, right.createdAt)
    else CompareText(left.id, right.id)
  }

  function CheckEntry(o: Observed): Entry {
    var sourceId := "verification:" + CheckKey(o);
    Entry("attention:" + sourceId,
          if o.check.checkType == Some("test") then TestFailedReason else VerificationFailedReason,
          Some(ActivityRecords.High), sourceId, None, None, None, None,
          o.check.completedAt.GetOr(o.report.completedAt.GetOr(o.report.createdAt)))
  }

  function ResolveCheck(active: OrderedMap<string, Entry>, o: Observed): OrderedMap<string, Entry> {
    if o.check.status == "passed" then Remove(active, CheckKey(o)) else active
  }

  function WriteCheck(o: Observed): Option<(string, Entry)> {
    if o.check.status == "failed" then Some((CheckKey(o), CheckEntry(o))) else None
  }

  ghost predicate KillsCheck(o: Observed, k: string, e: Entry) {
    o.check.status == "passed" && k == CheckKey(o)
  }

  ghost function ChecksOf(report: Report, n: nat): seq<Observed>
    requires n <= |report.checks|
  {
    seq(n, i requires 0 <= i < n => Observed(report, report.checks[i]))
  }

  // All checks, report by report.
  ghost function AllChecks(reports: seq<Report>): seq<Observed> {
    if reports == [] then []
    else AllChecks(reports[..|reports| - 1]) + ChecksOf(reports[|reports| - 1], |reports[|reports| - 1].checks|)
  }

  ghost function InCreationOrder(reports: seq<Report>): seq<Observed> {
    AllChecks(Sort(CompareReports, reports))
  }

  ghost function ActiveChecks(checks: seq<Observed>): OrderedMap<string, Entry> {
    Fold(checks, ResolveCheck, WriteCheck)
  }

  ghost function ProjectReports(reports: seq<Report>): seq<Entry> {
    Sort(CompareAttention, ValuesOf(ActiveChecks(InCreationOrder(reports))))
  }

  lemma OneMoreCheck(before: seq<Observed>, report: Report, j: nat)
    requires j < |report.checks|
    ensures var o := Observed(report, report.checks[j]);
            ActiveChecks(before + ChecksOf(report, j + 1))
            == Apply(ActiveChecks(before + ChecksOf(report, j)), o, ResolveCheck, WriteCheck)
  {
    hide Consistent, ResolveCheck, WriteCheck, Apply;
    var next := before + ChecksOf(report, j + 1);
    assert next[..|next| - 1] == before + ChecksOf(report, j);
    assert next[|next| - 1] == Observed(report, report.checks[j]);
  }

  // One report: a passed check deletes its entry, a failed one sets it.
  method ApplyChecks(start: OrderedMap<string, Entry>, report: Report, ghost before: seq<Observed>)
    returns (active: OrderedMap<string, Entry>)
    requires start == ActiveChecks(before)
    ensures active == ActiveChecks(before + ChecksOf(report, |report.checks|))
  {
    hide Consistent, ActiveChecks, CheckEntry, CheckKey;
    active := start;
    assert before + ChecksOf(report, 0) == before;
    for j := 0 to |report.checks|
      invariant active == ActiveChecks(before + ChecksOf(report, j))
    {
      var o := Observed(report, report.checks[j]);
      OneMoreCheck(before, report, j);
      if o.check.status == "passed" {
        active := Remove(active, CheckKey(o));
      } else if o.check.status == "failed" {
        active := Put(active, CheckKey(o), CheckEntry(o));
      }
    }
  }

  method ProjectRepositoryVerificationAttentionEntries(reports: seq<Report>) returns (entries: seq<Entry>)
    ensures entries == ProjectReports(reports)
  {
    hide Consistent;
    var sorted := Sort(CompareReports, reports);
    var active: OrderedMap<string, Entry> := Empty();
    for i := 0 to |sorted|
      invariant active == ActiveChecks(AllChecks(sorted[..i]))
    {
      active := ApplyChecks(active, sorted[i], AllChecks(sorted[..i]));
      assert sorted[..i + 1][..i] == sorted[..i];
    }
    assert sorted[..|sorted|] == sorted;
    entries := Sort(CompareAttention, ValuesOf(active));
  }

  // A check key is open exactly when the last passed or failed check under it failed, and the
  // entry shown reports that check. Any other status says nothing.
  lemma {:induction false} OpenExactlyWhenLastCheckFailed(checks: seq<Observed>, key: string)
    ensures key in ActiveChecks(checks).vals <==> exists i :: FailedLastAt(checks, key, i)
    ensures forall i :: FailedLastAt(checks, key, i) ==>
              key in ActiveChecks(checks).vals && ActiveChecks(checks).vals[key] == CheckEntry(checks[i])
  {
    var active := ActiveChecks(checks).vals;
    assert ResolvesBy(ResolveCheck, KillsCheck);
    if key in active {
      FoldIsLastWriter(checks, ResolveCheck, KillsCheck, WriteCheck, key, active[key]);
      var i :| LiveAt(checks, i, KillsCheck, WriteCheck, key, active[key]);
      forall j | i < j < |checks| ensures !Decides(checks[j], key) {
        assert !Touches(checks[j], KillsCheck, WriteCheck, key, active[key]);
      }
      assert FailedLastAt(checks, key, i);
    }
    forall i | FailedLastAt(checks, key, i)
      ensures key in active && active[key] == CheckEntry(checks[i])
    {
      var e := CheckEntry(checks[i]);
      forall j | i < j < |checks| ensures !Touches(checks[j], KillsCheck, WriteCheck, key, e) {
        assert !Decides(checks[j], key);
      }
      assert LiveAt(checks, i, KillsCheck, WriteCheck, key, e);
      FoldIsLastWriter(checks, ResolveCheck, KillsCheck, WriteCheck, key, e);
    }
  }

  ghost predicate Decides(o: Observed, key: string) {
    CheckKey(o) == key && (o.check.status == "passed" || o.check.status == "failed")
  }

  ghost predicate FailedLastAt(checks: seq<Observed>, key: string, i: int) {
    && 0 <= i < |checks|
    && Decides(checks[i], key) && checks[i].check.status == "failed"
    && forall j :: i < j < |checks| ==> !Decides(checks[j], key)
  }

  lemma ReportOrderIsTotal()
    ensures TotalPreorder(CompareReports)
    ensures forall x, y :: CompareReports(x, y) == 0 <==> x.createdAt == y.createdAt && x.id == y.id
  {
    forall x: Report, y: Report
      ensures CompareReports(x, y) < 0 <==> CompareReports(y, x) > 0
      ensures CompareReports(x, y) == 0 <==> x.createdAt == y.createdAt && x.id == y.id
    {
      CompareTextAntisymmetric(x.createdAt, y.createdAt);
      CompareTextAntisymmetric(y.createdAt, x.createdAt);
      CompareTextAntisymmetric(x.id, y.id);
    }
    forall x: Report, y: Report, z: Report | CompareReports(x, y) <= 0 && CompareReports(y, z) <= 0
      ensures CompareReports(x, z) <= 0
    {
      CompareTextTransitive(x.createdAt, y.createdAt, z.createdAt);
      CompareTextAntisymmetric(x.createdAt, y.createdAt);
      CompareTextAntisymmetric(y.createdAt, z.createdAt);
      if x.createdAt == y.createdAt == z.createdAt { CompareTextTransitive(x.id, y.id, z.id); }
    }
  }

  // When (createdAt, id) identifies a report, the entries do not depend on arrival order.
  lemma {:induction false} ReportsIgnoreArrivalOrder(a: seq<Report>, b: seq<Report>)
    requires forall x, y :: x in a && y in a && x.createdAt == y.createdAt && x.id == y.id ==> x == y
    requires multiset(a) == multiset(b)
    ensures ProjectReports(a) == ProjectReports(b)
  {
    ReportOrderIsTotal();
    assert Separates(CompareReports, a);
    SortIgnoresArrivalOrder(CompareReports, a, b);
  }
}

// The entries in terms of the reports alone.

module RepositoryVerificationShown {
  import opened Options
  import opened JoinedTexts
  import opened OrderedMaps
  import opened Sorting
  import opened Attention
  import opened RepositoryVerification
  import ActivityRecords

  predicate SameCheck(o: Observed, p: Observed) {
    ReadAlike(o.report.changeSetId, o.check.id, p.report.changeSetId, p.check.id, ':')
  }

  predicate Verdicts(o: Observed) { o.check.status == "passed" || o.check.status == "failed" }

  // The entry a failed check is shown as.
  function FailureEntry(o: Observed): Entry {
    var name := "verification:" + Joined(o.report.changeSetId, ':', o.check.id);
    Entry("attention:" + name,
          if o.check.checkType == Some("test") then TestFailedReason else VerificationFailedReason,
          Some(ActivityRecords.High), name, None, None, None, None,
          FirstOf([o.check.completedAt, o.report.completedAt, Some(o.report.createdAt)]))
  }

  function At(r: Report, n: nat): Observed
    requires n < |r.checks|
  {
    Observed(r, r.checks[n])
  }

  lemma EntryIsFailureEntry(o: Observed)
    ensures CheckEntry(o) == FailureEntry(o)
  {
    FirstOfThree(o.check.completedAt, o.report.completedAt, o.report.createdAt);
    FirstOfTwo(o.report.completedAt, o.report.createdAt);
    assert o.report.changeSetId + ":" + o.check.id == Joined(o.report.changeSetId, ':', o.check.id);
  }

  lemma {:induction false} KeysAgreeExactly(o: Observed, p: Observed)
    ensures CheckKey(o) == CheckKey(p) <==> SameCheck(o, p)
  {
    SameKeyExactly(o.report.changeSetId, o.check.id, p.report.changeSetId, p.check.id, ':');
    assert CheckKey(o) == Joined(o.report.changeSetId, ':', o.check.id);
    assert CheckKey(p) == Joined(p.report.changeSetId, ':', p.check.id);
  }

  // ----- by place: check n of report i in the sorted list -----

  // Check n of the last report, or of an earlier one with nothing about its key in the last report.
  ghost predicate FailedLastIn(s: seq<Report>, i: int, n: int) {
    && 0 <= i < |s| && 0 <= n < |s[i].checks| && s[i].checks[n].status == "failed"
    && (forall m :: n < m < |s[i].checks| && SameCheck(At(s[i], n), At(s[i], m)) ==> !Verdicts(At(s[i], m)))
    && forall j :: i < j < |s| ==> NothingAbout(s[j], At(s[i], n))
  }

  ghost predicate NothingAbout(r: Report, o: Observed) {
    forall m :: 0 <= m < |r.checks| && SameCheck(o, At(r, m)) ==> !Verdicts(At(r, m))
  }

  // The check that decides o's key last among `checks` is o itself, failed.
  ghost predicate DecidesLast(checks: seq<Observed>, o: Observed) {
    exists p :: FailedLastAt(checks, CheckKey(o), p) && checks[p] == o
  }

  ghost predicate FailsLastSomewhere(s: seq<Report>, o: Observed) {
    exists i, n :: FailedLastIn(s, i, n) && At(s[i], n) == o
  }

  ghost predicate FailsLastOf(r: Report, o: Observed) {
    exists n :: FailedLastIn([r], 0, n) && At(r, n) == o
  }

  lemma DecidesIsSame(o: Observed, p: Observed)
    ensures Decides(p, CheckKey(o)) <==> SameCheck(o, p) && Verdicts(p)
  {
    KeysAgreeExactly(o, p);
    hide CheckKey, SameCheck;
  }

  lemma QuietReport(r: Report, o: Observed)
    ensures NothingAbout(r, o)
            <==> forall p :: 0 <= p < |r.checks| ==> !Decides(ChecksOf(r, |r.checks|)[p], CheckKey(o))
  {
    forall p | 0 <= p < |r.checks|
      ensures Decides(ChecksOf(r, |r.checks|)[p], CheckKey(o)) <==> SameCheck(o, At(r, p)) && Verdicts(At(r, p))
    {
      DecidesIsSame(o, At(r, p));
    }
    hide Decides, CheckKey, SameCheck, Verdicts;
    if NothingAbout(r, o) {
      forall p | 0 <= p < |r.checks| ensures !Decides(ChecksOf(r, |r.checks|)[p], CheckKey(o)) {
        assert At(r, p) == At(r, p);
      }
    }
  }

  // Adding a report that says nothing about the key changes nothing about it.
  lemma QuietReportKeeps(before: seq<Observed>, r: Report, o: Observed)
    requires NothingAbout(r, o)
    ensures DecidesLast(before + ChecksOf(r, |r.checks|), o) <==> DecidesLast(before, o)
  {
    QuietReport(r, o);
    var all, k := before + ChecksOf(r, |r.checks|), CheckKey(o);
    hide Decides, CheckKey, NothingAbout;
    forall p | |before| <= p < |all| ensures !Decides(all[p], k) {
      assert all[p] == ChecksOf(r, |r.checks|)[p - |before|];
    }
    assert forall p :: 0 <= p < |before| ==> all[p] == before[p];
    if p :| FailedLastAt(all, k, p) && all[p] == o {
      assert FailedLastAt(before, k, p);
    }
    if p :| FailedLastAt(before, k, p) && before[p] == o {
      assert FailedLastAt(all, k, p);
    }
  }

  // When the last report does say something about the key, its last such check decides.
  lemma LoudReportDecides(before: seq<Observed>, r: Report, o: Observed)
    requires !NothingAbout(r, o)
    ensures DecidesLast(before + ChecksOf(r, |r.checks|), o)
            <==> FailsLastOf(r, o)
  {
    var own, k := ChecksOf(r, |r.checks|), CheckKey(o);
    var all := before + own;
    OwnChecks(before, r);
    hide ChecksOf, CheckKey, NothingAbout, Decides;
    if p :| FailedLastAt(all, k, p) && all[p] == o {
      var n := p - |before|;
      assert n >= 0 by {
        QuietReport(r, o);
        var m :| 0 <= m < |r.checks| && Decides(own[m], k);
        assert Decides(all[|before| + m], k);
      }
      forall m | n < m < |r.checks| ensures !Decides(own[m], k) {
        assert !Decides(all[|before| + m], k);
      }
      LastOfItsReport(r, o, n);
    }
    if n :| FailedLastIn([r], 0, n) && At(r, n) == o {
      DecidesItself(o);
      LastOfItsReport(r, o, n);
      forall p | |before| + n < p < |all| ensures !Decides(all[p], k) {
        assert all[p] == own[p - |before|];
      }
      assert FailedLastAt(all, k, |before| + n);
    }
  }

  lemma OwnChecks(before: seq<Observed>, r: Report)
    ensures |ChecksOf(r, |r.checks|)| == |r.checks|
    ensures forall m :: 0 <= m < |r.checks| ==>
              (before + ChecksOf(r, |r.checks|))[|before| + m] == ChecksOf(r, |r.checks|)[m] == At(r, m)
  {}

  // Within one report: check n is the last to decide its key exactly when none after it does.
  lemma LastOfItsReport(r: Report, o: Observed, n: int)
    requires 0 <= n < |r.checks| && At(r, n) == o && r.checks[n].status == "failed"
    ensures FailedLastIn([r], 0, n)
            <==> forall m :: n < m < |r.checks| ==> !Decides(ChecksOf(r, |r.checks|)[m], CheckKey(o))
  {
    forall m | n < m < |r.checks|
      ensures Decides(ChecksOf(r, |r.checks|)[m], CheckKey(o)) <==> SameCheck(o, At(r, m)) && Verdicts(At(r, m))
    {
      DecidesIsSame(o, At(r, m));
    }
    hide Decides, CheckKey, SameCheck, Verdicts, NothingAbout;
  }

  lemma DecidesItself(o: Observed)
    ensures o.check.status == "failed" ==> Decides(o, CheckKey(o))
  {}

  lemma {:induction false} DecidedByPlace(s: seq<Report>, o: Observed)
    ensures DecidesLast(AllChecks(s), o) <==> FailsLastSomewhere(s, o)
  {
    if s != [] {
      var front, r := s[..|s| - 1], s[|s| - 1];
      DecidedByPlace(front, o);
      if NothingAbout(r, o) {
        QuietReportKeeps(AllChecks(front), r, o);
        QuietPlaces(s, o);
      } else {
        LoudReportDecides(AllChecks(front), r, o);
        LoudPlaces(s, o);
      }
    }
  }

  lemma QuietPlaces(s: seq<Report>, o: Observed)
    requires s != [] && NothingAbout(s[|s| - 1], o)
    ensures FailsLastSomewhere(s, o) <==> FailsLastSomewhere(s[..|s| - 1], o)
  {
    var front := s[..|s| - 1];
    if i, n :| FailedLastIn(s, i, n) && At(s[i], n) == o {
      EarlierPlace(s, i, n);
      assert FailedLastIn(front, i, n) && At(front[i], n) == o;
    }
    if i, n :| FailedLastIn(front, i, n) && At(front[i], n) == o {
      hide SameCheck, Verdicts, NothingAbout;
      forall j | i < j < |s| ensures NothingAbout(s[j], At(s[i], n)) {
        if j < |front| { assert front[j] == s[j]; }
      }
      assert FailedLastIn(s, i, n) && At(s[i], n) == o;
    }
  }

  lemma EarlierPlace(s: seq<Report>, i: int, n: int)
    requires FailedLastIn(s, i, n) && NothingAbout(s[|s| - 1], At(s[i], n))
    ensures i < |s| - 1 && FailedLastIn(s[..|s| - 1], i, n)
  {
    LastFailureSpeaks(s[i], n);
    hide SameCheck, Verdicts, NothingAbout;
    assert forall j :: i < j < |s| - 1 ==> s[..|s| - 1][j] == s[j];
  }

  lemma LastFailureSpeaks(r: Report, n: int)
    requires 0 <= n < |r.checks| && r.checks[n].status == "failed"
    ensures !NothingAbout(r, At(r, n))
  {
    assert SameCheck(At(r, n), At(r, n)) && Verdicts(At(r, n));
  }

  lemma LoudPlaces(s: seq<Report>, o: Observed)
    requires s != [] && !NothingAbout(s[|s| - 1], o)
    ensures FailsLastSomewhere(s, o) <==> FailsLastOf(s[|s| - 1], o)
  {
    hide SameCheck, Verdicts, NothingAbout;
    var r := s[|s| - 1];
    if i, n :| FailedLastIn(s, i, n) && At(s[i], n) == o {
      assert i == |s| - 1;
      assert FailedLastIn([r], 0, n);
    }
    if n :| FailedLastIn([r], 0, n) && At(r, n) == o {
      assert FailedLastIn(s, |s| - 1, n) && At(s[|s| - 1], n) == o;
    }
  }

  // ----- what is shown -----

  lemma ShownIsActive(reports: seq<Report>, e: Entry)
    ensures e in ProjectReports(reports)
            <==> exists k :: k in ActiveChecks(InCreationOrder(reports)).vals
                   && ActiveChecks(InCreationOrder(reports)).vals[k] == e
  {
    var m := ActiveChecks(InCreationOrder(reports));
    AttentionOrderIsTotal();
    SortMembers(CompareAttention, ValuesOf(m));
    InValuesOf(m, e);
  }

  lemma ShownIsDecided(reports: seq<Report>, e: Entry)
    ensures e in ProjectReports(reports)
            <==> exists o :: DecidesLast(InCreationOrder(reports), o) && e == CheckEntry(o)
  {
    var checks := InCreationOrder(reports);
    ShownIsActive(reports, e);
    hide ProjectReports, InCreationOrder, ActiveChecks, CheckEntry, CheckKey;
    if k :| k in ActiveChecks(checks).vals && ActiveChecks(checks).vals[k] == e {
      OpenExactlyWhenLastCheckFailed(checks, k);
      var p :| FailedLastAt(checks, k, p);
      assert CheckKey(checks[p]) == k;
      assert DecidesLast(checks, checks[p]);
    }
    if o :| DecidesLast(checks, o) && e == CheckEntry(o) {
      OpenExactlyWhenLastCheckFailed(checks, CheckKey(o));
      assert ActiveChecks(checks).vals[CheckKey(o)] == e;
    }
  }

  // Report q was created after report r; reports of the same time go by id.
  predicate CreatedAfter(q: Report, r: Report) {
    CompareText(q.createdAt, r.createdAt) > 0 || (q.createdAt == r.createdAt && CompareText(q.id, r.id) > 0)
  }

  // (createdAt, id) identifies a report.
  ghost predicate ReportsIdentified(reports: seq<Report>) {
    forall x, y :: x in reports && y in reports && x.createdAt == y.createdAt && x.id == y.id ==> x == y
  }

  // Check n of r failed, and nothing after it, in r or in a report created later, decides the same check.
  ghost predicate FailedLast(reports: seq<Report>, r: Report, n: int) {
    && r in reports && 0 <= n < |r.checks| && r.checks[n].status == "failed"
    && (forall m :: n < m < |r.checks| && SameCheck(At(r, n), At(r, m)) ==> !Verdicts(At(r, m)))
    && forall q :: q in reports && CreatedAfter(q, r) ==> NothingAbout(q, At(r, n))
  }

  lemma CreationOrder(reports: seq<Report>, i: int, q: Report)
    requires ReportsIdentified(reports)
    requires 0 <= i < |Sort(CompareReports, reports)|
    requires forall j :: i < j < |Sort(CompareReports, reports)| ==>
               Sort(CompareReports, reports)[j] != Sort(CompareReports, reports)[i]
    ensures Sort(CompareReports, reports)[i] in reports
    ensures (exists j :: i < j < |Sort(CompareReports, reports)| && Sort(CompareReports, reports)[j] == q)
            <==> q in reports && CreatedAfter(q, Sort(CompareReports, reports)[i])
  {
    var s := Sort(CompareReports, reports);
    SortedReports(reports);
    hide Sort, CompareText;
    var r := s[i];
    assert r in s;
    CompareTextAntisymmetric(q.createdAt, r.createdAt);
    CompareTextAntisymmetric(r.createdAt, q.createdAt);
    CompareTextAntisymmetric(q.id, r.id);
    CompareTextAntisymmetric(r.id, q.id);
    if j :| i < j < |s| && s[j] == q {
      assert CompareReports(r, q) <= 0 && q in s;
    }
    if q in reports && CreatedAfter(q, r) {
      var j :| 0 <= j < |s| && s[j] == q;
      if j < i { assert CompareReports(s[j], s[i]) <= 0; }
    }
  }

  lemma SortedReports(reports: seq<Report>)
    ensures Sorted(CompareReports, Sort(CompareReports, reports))
    ensures forall r :: r in Sort(CompareReports, reports) <==> r in reports
  {
    ReportOrderIsTotal();
    SortSorts(CompareReports, reports);
    SortMembers(CompareReports, reports);
  }

  lemma {:induction false} LastCopy(s: seq<Report>, r: Report) returns (i: int)
    requires r in s
    ensures 0 <= i < |s| && s[i] == r && forall j :: i < j < |s| ==> s[j] != s[i]
  {
    var n := |s| - 1;
    if s[n] == r {
      i := n;
    } else {
      assert s == s[..n] + [s[n]];
      i := LastCopy(s[..n], r);
      assert forall j :: i < j < n ==> s[j] == s[..n][j];
    }
  }

  lemma PlacesAgree(reports: seq<Report>, i: int, n: int)
    requires ReportsIdentified(reports)
    requires 0 <= i < |Sort(CompareReports, reports)|
    requires forall j :: i < j < |Sort(CompareReports, reports)| ==>
               Sort(CompareReports, reports)[j] != Sort(CompareReports, reports)[i]
    ensures FailedLastIn(Sort(CompareReports, reports), i, n)
            <==> FailedLast(reports, Sort(CompareReports, reports)[i], n)
  {
    var s, r := Sort(CompareReports, reports), Sort(CompareReports, reports)[i];
    forall q ensures (exists j :: i < j < |s| && s[j] == q) <==> q in reports && CreatedAfter(q, r) {
      CreationOrder(reports, i, q);
    }
    CreationOrder(reports, i, r);
    hide Sort, CreatedAfter, SameCheck, Verdicts, NothingAbout;
    if FailedLast(reports, r, n) {
      forall j | i < j < |s| ensures NothingAbout(s[j], At(r, n)) {
        assert s[j] in reports && CreatedAfter(s[j], r);
      }
    }
  }

  lemma FailedLastIsLastCopy(s: seq<Report>, i: int, n: int)
    requires FailedLastIn(s, i, n)
    ensures forall j :: i < j < |s| ==> s[j] != s[i]
  {
    LastFailureSpeaks(s[i], n);
    hide NothingAbout;
  }

  // An entry is shown exactly when some check failed, no later verdict is about the same check, of the
  // same report or of one created later, and the entry is that check's.
  lemma {:induction false} ReportsShownExactly(reports: seq<Report>, e: Entry)
    requires ReportsIdentified(reports)
    ensures e in ProjectReports(reports)
            <==> exists r, n :: FailedLast(reports, r, n) && e == FailureEntry(At(r, n))
  {
    var s := Sort(CompareReports, reports);
    ShownIsDecided(reports, e);
    SortedReports(reports);
    assert InCreationOrder(reports) == AllChecks(s);
    hide ProjectReports, InCreationOrder, DecidesLast, CheckEntry, FailureEntry, Sort, FailedLast, ReportsIdentified;
    hide AllChecks;
    if o :| DecidesLast(AllChecks(s), o) && e == CheckEntry(o) {
      DecidedByPlace(s, o);
      EntryIsFailureEntry(o);
      var i, n :| FailedLastIn(s, i, n) && At(s[i], n) == o;
      FailedLastIsLastCopy(s, i, n);
      PlacesAgree(reports, i, n);
      assert FailedLast(reports, s[i], n) && e == FailureEntry(At(s[i], n));
    }
    if r, n :| FailedLast(reports, r, n) && e == FailureEntry(At(r, n)) {
      var i := LastCopyOf(reports, r, n);
      PlacesAgree(reports, i, n);
      assert FailedLastIn(s, i, n) && At(s[i], n) == At(r, n);
      DecidedByPlace(s, At(r, n));
      EntryIsFailureEntry(At(r, n));
    }
  }

  lemma LastCopyOf(reports: seq<Report>, r: Report, n: int) returns (i: int)
    requires FailedLast(reports, r, n)
    ensures 0 <= i < |Sort(CompareReports, reports)| && Sort(CompareReports, reports)[i] == r
    ensures 0 <= n < |r.checks|
    ensures forall j :: i < j < |Sort(CompareReports, reports)| ==>
              Sort(CompareReports, reports)[j] != Sort(CompareReports, reports)[i]
  {
    SortedReports(reports);
    i := LastCopy(Sort(CompareReports, reports), r);
  }
}
