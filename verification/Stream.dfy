// Durable M9 records (m9-types.ts), the stream items projected from them, and the grouping of muted
// items into rows (m10-projection-runtime.ts).

module M9Records {
  import opened Options

  datatype ActorType = HumanActor | AgentActor | SystemActor
  datatype Actor = Actor(actorType: ActorType, id: string)

  datatype RecordType =
    | WorkflowStarted | WorkflowCompleted | WorkflowFailed | WorkflowCancelled
    | TaskRunnable | TaskStarted | TaskCompleted | TaskFailed | TaskCancelled
    | AgentAssigned | AgentStarted | AgentProgress | AgentWaiting | AgentCompleted | AgentFailed | AgentCancelled
    | ToolCalled | ToolSucceeded | ToolFailed
    | HumanMessage | SystemEvent | InteractionPresented | InteractionResponded

  // The payload.data fields the projection reads, each present only when it is a string.
  datatype Data = Data(targetAgentId: Option<string>, interactionId: Option<string>,
                       presentingParticipantId: Option<string>)

  datatype M9Record = M9Record(activityId: string, sequenceNumber: int, recordType: RecordType, timestamp: string,
                               actor: Actor, workflowRunId: Option<string>, taskId: Option<string>,
                               data: Option<Data>)

  // A string the code tests for truth: absent and empty both read as absent.
  function NonEmpty(s: Option<string>): (r: Option<string>) {
    if s == Some("") then None else s
  }

  function InteractionIdOf(r: M9Record): Option<string> {
    if r.data.Some? then r.data.value.interactionId else None
  }
}

module StreamItems {
  import opened Options
  import opened M9Records

  datatype ItemKind = Conversation | Activity | Progress | ToolCall | ToolResult | Log | Diagnostic
                    | Evidence | Telemetry | Interaction
  datatype Importance = Primary | Secondary | Muted

  datatype StreamItem = StreamItem(activityId: string, sequenceNumber: int, kind: ItemKind, importance: Importance,
                                   timestamp: string)

  function ClassifyKind(r: M9Record): ItemKind {
    match r.recordType
    case HumanMessage => Conversation
    case WorkflowStarted | WorkflowCompleted | TaskStarted | TaskCompleted | AgentAssigned | AgentCompleted => Activity
    case AgentProgress => Progress
    case ToolCalled => ToolCall
    case ToolSucceeded | ToolFailed => ToolResult
    case TaskRunnable => Log
    case TaskFailed | AgentFailed | WorkflowFailed => Diagnostic
    case SystemEvent => if r.data.Some? then Evidence else Telemetry
    case InteractionPresented | InteractionResponded => Interaction
    case _ => Log
  }

  function ClassifyImportance(r: M9Record, kind: ItemKind): Importance {
    match r.recordType
    case HumanMessage | WorkflowStarted | WorkflowCompleted | WorkflowFailed => Primary
    case TaskStarted | TaskCompleted | TaskFailed | AgentAssigned | AgentCompleted => Secondary
    case ToolCalled | ToolSucceeded | ToolFailed => Secondary
    case InteractionPresented => Primary
    case InteractionResponded => Secondary
    case _ => if kind == Progress || kind == Log || kind == Telemetry then Muted else Secondary
  }

  function ToStreamItem(r: M9Record): StreamItem {
    var kind := ClassifyKind(r);
    StreamItem(r.activityId, r.sequenceNumber, kind, ClassifyImportance(r, kind), r.timestamp)
  }
}

module MutedAggregation {
  import opened StreamItems

  const MUTING_THRESHOLD := 5

  // A row of the presented stream: an item as it is, or several muted items under one row.
  datatype Row = Single(item: StreamItem)
               | Aggregated(activityId: string, timestamp: string, firstSequence: int, lastSequence: int,
                            referencedActivityIds: seq<string>)

  function IdsOf(items: seq<StreamItem>): seq<string> {
    seq(|items|, i requires 0 <= i < |items| => items[i].activityId)
  }

  function Coalesce(items: seq<StreamItem>): Row
    requires items != []
  {
    if |items| == 1 then Single(items[0])
    else
      var last := items[|items| - 1];
      Aggregated(items[0].activityId, last.timestamp, items[0].sequenceNumber, last.sequenceNumber, IdsOf(items))
  }

  function Flush(buffer: seq<StreamItem>): seq<Row> {
    if buffer == [] then [] else [Coalesce(buffer)]
  }

  // The rows still to come, given the muted items buffered so far.
  function Group(buffer: seq<StreamItem>, items: seq<StreamItem>): seq<Row>
    decreases |items|
  {
    if items == [] then Flush(buffer)
    else if items[0].importance == Muted then
      var grown := buffer + [items[0]];
      if |grown| >= MUTING_THRESHOLD then [Coalesce(grown)] + Group([], items[1..]) else Group(grown, items[1..])
    else Flush(buffer) + [Single(items[0])] + Group([], items[1..])
  }

  method AggregateMutedItems(items: seq<StreamItem>) returns (rows: seq<Row>)
    ensures rows == Group([], items)
  {
    rows := [];
    var buffer: seq<StreamItem> := [];
    for i := 0 to |items|
      invariant Group([], items) == rows + Group(buffer, items[i..])
    {
      assert items[i..][1..] == items[i + 1..];
      if items[i].importance == Muted {
        buffer := buffer + [items[i]];
        if |buffer| >= MUTING_THRESHOLD {
          rows := rows + [Coalesce(buffer)];
          buffer := [];
        }
      } else {
        if |buffer| > 0 {
          rows := rows + [Coalesce(buffer)];
          buffer := [];
        }
        rows := rows + [Single(items[i])];
      }
    }
    if |buffer| > 0 { rows := rows + [Coalesce(buffer)]; }
  }

  // ----- what the rows stand for -----

  ghost predicate AllMuted(items: seq<StreamItem>) {
    forall i :: 0 <= i < |items| ==> items[i].importance == Muted
  }

  // The rows cut `items` into consecutive pieces: single items unchanged, aggregates over 2 to 5
  // muted items that carry exactly those items' ids and sequence range.
  ghost predicate Covers(rows: seq<Row>, items: seq<StreamItem>) {
    if rows == [] then items == []
    else if rows[0].Single? then items != [] && rows[0].item == items[0] && Covers(rows[1..], items[1..])
    else
      var n := |rows[0].referencedActivityIds|;
      && 2 <= n <= 5 && n <= |items| && AllMuted(items[..n])
      && rows[0] == Aggregated(items[0].activityId, items[n - 1].timestamp, items[0].sequenceNumber,
                               items[n - 1].sequenceNumber, IdsOf(items[..n]))
      && Covers(rows[1..], items[n..])
  }

  lemma {:induction false} GroupCovers(buffer: seq<StreamItem>, items: seq<StreamItem>)
    requires AllMuted(buffer) && |buffer| < MUTING_THRESHOLD
    ensures Covers(Group(buffer, items), buffer + items)
    decreases |items|
  {
    hide Coalesce, Covers;
    if items == [] {
      EmptyCovers();
      FlushCovers(buffer, [], []);
      assert Flush(buffer) + [] == Flush(buffer);
    } else if items[0].importance == Muted {
      var grown := buffer + [items[0]];
      assert buffer + items == grown + items[1..];
      if |grown| >= MUTING_THRESHOLD {
        GroupCovers([], items[1..]);
        assert [] + items[1..] == items[1..];
        FlushCovers(grown, Group([], items[1..]), items[1..]);
      } else {
        GroupCovers(grown, items[1..]);
      }
    } else {
      GroupCovers([], items[1..]);
      assert [] + items[1..] == items[1..];
      var rest := [Single(items[0])] + Group([], items[1..]);
      SingleCovers(items[0], Group([], items[1..]), items[1..]);
      assert [items[0]] + items[1..] == items;
      FlushCovers(buffer, rest, items);
      assert Group(buffer, items) == Flush(buffer) + rest;
    }
  }

  lemma EmptyCovers()
    ensures Covers([], [])
  {}

  lemma SingleCovers(item: StreamItem, rows: seq<Row>, items: seq<StreamItem>)
    requires Covers(rows, items)
    ensures Covers([Single(item)] + rows, [item] + items)
  {
    assert ([Single(item)] + rows)[1..] == rows && ([item] + items)[1..] == items;
  }

  lemma FlushCovers(buffer: seq<StreamItem>, rows: seq<Row>, items: seq<StreamItem>)
    requires |buffer| <= MUTING_THRESHOLD && AllMuted(buffer) && Covers(rows, items)
    ensures Covers(Flush(buffer) + rows, buffer + items)
  {
    if buffer == [] {
      assert Flush(buffer) + rows == rows && buffer + items == items;
    } else {
      CoversOne(buffer, rows, items);
    }
  }

  lemma CoversOne(piece: seq<StreamItem>, rows: seq<Row>, items: seq<StreamItem>)
    requires piece != [] && |piece| <= MUTING_THRESHOLD && AllMuted(piece) && Covers(rows, items)
    ensures Covers([Coalesce(piece)] + rows, piece + items)
  {
    var all := piece + items;
    assert ([Coalesce(piece)] + rows)[1..] == rows;
    assert all[..|piece|] == piece && all[|piece|..] == items;
  }

  function ExpandRow(row: Row): seq<string> {
    match row
    case Single(item) => [item.activityId]
    case Aggregated(_, _, _, _, ids) => ids
  }

  function Expand(rows: seq<Row>): seq<string> {
    if rows == [] then [] else ExpandRow(rows[0]) + Expand(rows[1..])
  }

  lemma {:induction false} CoveringExpands(rows: seq<Row>, items: seq<StreamItem>)
    requires Covers(rows, items)
    ensures Expand(rows) == IdsOf(items)
    decreases |rows|
  {
    if rows != [] {
      var n := if rows[0].Single? then 1 else |rows[0].referencedActivityIds|;
      CoveringExpands(rows[1..], items[n..]);
      assert IdsOf(items) == IdsOf(items[..n]) + IdsOf(items[n..]);
    }
  }

  // The rows are a partition of the stream into unchanged items and aggregates of 2 to 5
  // consecutive muted items; reading the ids row by row gives back the stream's ids in order.
  lemma {:induction false} AggregationLosesNothing(items: seq<StreamItem>)
    ensures Covers(Group([], items), items)
    ensures Expand(Group([], items)) == IdsOf(items)
  {
    GroupCovers([], items);
    assert [] + items == items;
    CoveringExpands(Group([], items), items);
  }

  // ----- how many rows -----

  // The length of the maximal muted run at the front.
  function LeadingRun(items: seq<StreamItem>): (n: nat)
    ensures n <= |items| && AllMuted(items[..n])
    ensures n < |items| ==> items[n].importance != Muted
  {
    if items == [] || items[0].importance != Muted then 0
    else
      assert items == [items[0]] + items[1..];
      1 + LeadingRun(items[1..])
  }

  function RowsForRun(n: nat): nat { (n + 4) / 5 }

  // One row per item that is not muted, and ceil(run / 5) rows per maximal muted run.
  function RowsNeeded(items: seq<StreamItem>): nat
    decreases |items|
  {
    if items == [] then 0
    else
      var run := LeadingRun(items);
      if run == 0 then 1 + RowsNeeded(items[1..]) else RowsForRun(run) + RowsNeeded(items[run..])
  }

  lemma {:induction false} GroupLength(buffer: seq<StreamItem>, items: seq<StreamItem>)
    requires |buffer| < MUTING_THRESHOLD
    ensures |Group(buffer, items)| == RowsForRun(|buffer| + LeadingRun(items)) + RowsNeeded(items[LeadingRun(items)..])
    decreases |items|
  {
    hide AllMuted, Coalesce, RowsNeeded;
    if items == [] {
      RunFirst(items);
      EmptyRows();
    } else if items[0].importance == Muted {
      var tail := items[1..];
      assert items[LeadingRun(items)..] == tail[LeadingRun(tail)..];
      GroupLength(if |buffer| + 1 >= MUTING_THRESHOLD then [] else buffer + [items[0]], tail);
    } else {
      GroupLength([], items[1..]);
      assert items[0..] == items;
      RunFirst(items[1..]);
      OneMoreRow(items);
    }
  }

  lemma EmptyRows()
    ensures RowsNeeded([]) == 0
  {}

  lemma OneMoreRow(items: seq<StreamItem>)
    requires items != [] && items[0].importance != Muted
    ensures RowsNeeded(items) == 1 + RowsNeeded(items[1..])
  {}

  lemma RunFirst(items: seq<StreamItem>)
    ensures RowsNeeded(items) == RowsForRun(LeadingRun(items)) + RowsNeeded(items[LeadingRun(items)..])
  {
    assert items[0..] == items;
  }

  lemma {:induction false} AggregationRowCount(items: seq<StreamItem>)
    ensures |Group([], items)| == RowsNeeded(items)
  {
    GroupLength([], items);
    RunFirst(items);
  }
}
