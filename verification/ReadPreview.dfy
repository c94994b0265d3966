// The preview of a file read (assistant-execution-projection.ts): numbered lines are collected,
// and as many whole lines as fit the budget are kept, at least one.

module ReadPreview {
  import opened Options

  const BUDGET := 2000

  // A raw line as the patterns classify it; a number too large to be an integer is missing.
  datatype Line = Total(total: Option<nat>) | Numbered(number: Option<nat>, text: string) | Unmarked

  datatype Entry = Entry(number: nat, text: string)

  datatype Preview =
    | Unknown
    | Parsed(contentPreview: Option<string>, lineCount: nat, offset: Option<nat>, totalLines: Option<nat>,
             contentTruncated: bool)

  function EntriesOf(lines: seq<Line>): seq<Entry> {
    if lines == [] then []
    else
      var last := lines[|lines| - 1];
      EntriesOf(lines[..|lines| - 1])
      + (if last.Numbered? && last.number.Some? then [Entry(last.number.value, last.text)] else [])
  }

  // The last total that is a number wins.
  function TotalOf(lines: seq<Line>): Option<nat> {
    if lines == [] then None
    else
      var last := lines[|lines| - 1];
      if last.Total? && last.total.Some? then last.total else TotalOf(lines[..|lines| - 1])
  }

  // Characters a list of lines takes, each with its newline.
  function Cost(entries: seq<Entry>): nat {
    if entries == [] then 0 else Cost(entries[..|entries| - 1]) + |entries[|entries| - 1].text| + 1
  }

  function Join(entries: seq<Entry>): string
    requires entries != []
  {
    if |entries| == 1 then entries[0].text
    else Join(entries[..|entries| - 1]) + "\n" + entries[|entries| - 1].text
  }

  lemma {:induction false} CostGrows(entries: seq<Entry>, j: nat, k: nat)
    requires j <= k <= |entries|
    ensures Cost(entries[..j]) + (k - j) <= Cost(entries[..k])
  {
    if j < k {
      assert entries[..k][..k - 1] == entries[..k - 1];
      CostGrows(entries, j, k - 1);
    }
  }

  lemma CostOneMore(entries: seq<Entry>, k: nat)
    requires k < |entries|
    ensures Cost(entries[..k + 1]) == Cost(entries[..k]) + |entries[k].text| + 1
  {
    assert entries[..k + 1][..k] == entries[..k];
  }

  // Keeping k lines is allowed when they fit the budget, or are just the first line.
  predicate Allowed(entries: seq<Entry>, k: nat, budget: nat) {
    k <= |entries| && (k <= 1 || Cost(entries[..k]) <= budget)
  }

  // The most lines that may be kept.
  ghost predicate Longest(entries: seq<Entry>, k: nat, budget: nat) {
    Allowed(entries, k, budget) && forall j: nat :: Allowed(entries, j, budget) ==> j <= k
  }

  // Walk the lines once, keeping entries and the last total.
  method CollectLines(lines: seq<Line>) returns (entries: seq<Entry>, totalLines: Option<nat>)
    ensures entries == EntriesOf(lines) && totalLines == TotalOf(lines)
  {
    entries, totalLines := [], None;
    for i := 0 to |lines|
      invariant entries == EntriesOf(lines[..i]) && totalLines == TotalOf(lines[..i])
    {
      assert lines[..i + 1][..i] == lines[..i];
      match lines[i]
      case Total(total) => if total.Some? { totalLines := total; }
      case Numbered(number, text) => if number.Some? { entries := entries + [Entry(number.value, text)]; }
      case Unmarked =>
    }
    assert lines[..|lines|] == lines;
  }

  // The kept lines are the longest allowed prefix, and lines were dropped exactly when it says so.
  method KeepWithinBudget(entries: seq<Entry>, budget: nat) returns (kept: seq<Entry>, sliced: bool)
    ensures |kept| <= |entries| && kept == entries[..|kept|] && Longest(entries, |kept|, budget)
    ensures sliced <==> |kept| < |entries|
  {
    kept, sliced := [], false;
    var used := 0;
    for i := 0 to |entries|
      invariant kept == entries[..i] && used == Cost(kept) && !sliced
      invariant Allowed(entries, i, budget)
    {
      var cost := |entries[i].text| + 1;
      CostOneMore(entries, i);
      if used + cost > budget && |kept| > 0 {
        forall j: nat | Allowed(entries, j, budget) ensures j <= i {
          if j > i { CostGrows(entries, i + 1, j); }
        }
        sliced := true;
        return;
      }
      kept := kept + [entries[i]];
      used := used + cost;
      assert entries[..i + 1] == entries[..i] + [entries[i]];
    }
  }

  method JoinLines(kept: seq<Entry>) returns (text: string)
    requires kept != []
    ensures text == Join(kept)
  {
    text := kept[0].text;
    for i := 1 to |kept|
      invariant text == Join(kept[..i])
    {
      assert kept[..i + 1][..i] == kept[..i];
      text := text + "\n" + kept[i].text;
    }
    assert kept[..|kept|] == kept;
  }

  // `marked` tells whether the output itself says it was truncated.
  method ParseReadOutput(lines: seq<Line>, marked: bool) returns (preview: Preview, ghost k: nat)
    ensures preview.Unknown? <==> EntriesOf(lines) == [] && TotalOf(lines).None?
    ensures preview.Parsed? ==>
              Longest(EntriesOf(lines), k, 2000)
              && preview == Parsed(if k == 0 then None else Some(Join(EntriesOf(lines)[..k])), |EntriesOf(lines)|,
                                   if EntriesOf(lines) == [] then None else Some(EntriesOf(lines)[0].number),
                                   TotalOf(lines), k < |EntriesOf(lines)| || marked)
  {
    var entries, totalLines := CollectLines(lines);
    k := 0;
    if entries == [] && totalLines.None? { return Unknown, k; }
    var kept, sliced := KeepWithinBudget(entries, BUDGET);
    k := |kept|;
    var contentPreview := None;
    if |kept| > 0 {
      var text := JoinLines(kept);
      contentPreview := Some(text);
    }
    preview := Parsed(contentPreview, |entries|, if entries == [] then None else Some(entries[0].number), totalLines,
                      sliced || marked);
  }

  // There is exactly one longest allowed prefix, and it is empty only when there are no lines.
  lemma LongestIsUnique(entries: seq<Entry>, j: nat, k: nat, budget: nat)
    requires Longest(entries, j, budget) && Longest(entries, k, budget)
    ensures j == k && (k == 0 <==> entries == [])
  {
    if entries != [] { assert Allowed(entries, 1, budget); }
  }

  lemma {:induction false} JoinedLength(entries: seq<Entry>)
    requires entries != []
    ensures |Join(entries)| + 1 == Cost(entries)
  {
    if |entries| > 1 {
      JoinedLength(entries[..|entries| - 1]);
    } else {
      assert entries[..0] == [];
    }
  }

  // The preview stays below the budget exactly when the first line does.
  lemma {:induction false} PreviewFitsExactly(entries: seq<Entry>, k: nat, budget: nat)
    requires Longest(entries, k, budget) && k > 0
    ensures |Join(entries[..k])| < budget <==> |entries[0].text| < budget
  {
    LongestIsUnique(entries, k, k, budget);
    JoinedLength(entries[..k]);
    CostGrows(entries, 1, k);
    CostOneMore(entries, 0);
  }
}
