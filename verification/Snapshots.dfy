/** Normalized provider snapshots and their field-level differences
    (openproject_parser.py). */
module Snapshots {
  import opened Prelude

  type ExtId = string

  /** One entry of a snapshot's relation list; both key spellings are read. */
  datatype RawRelation = RawRelation(
    sourceId: Scalar, fromKey: Scalar,
    targetId: Scalar, toKey: Scalar,
    relationType: Scalar, typeKey: Scalar)

  datatype Snapshot = Snapshot(
    externalId: ExtId,
    summary: string,
    description: string,
    typeName: string,
    priority: string,
    state: string,
    projectId: Option<string>,
    assigneeId: Option<string>,
    parentId: Option<int>,
    relations: seq<RawRelation>)

  datatype Change =
    | SummaryChanged
    | DescriptionChanged
    | AssigneeChanged
    | StateChanged
    | PriorityChanged
    | ParentChanged

  function When(condition: bool, change: Change): seq<Change> {
    if condition then [change] else []
  }

  /** The changes from the stored baseline to a new snapshot; a first snapshot has none. */
  function Diff(previous: Option<Snapshot>, current: Snapshot): seq<Change> {
    match previous
    case None => []
    case Some(p) =>
      When(p.summary != current.summary, SummaryChanged)
      + When(p.description != current.description, DescriptionChanged)
      + When(p.assigneeId != current.assigneeId, AssigneeChanged)
      + When(p.state != current.state, StateChanged)
      + When(p.priority != current.priority, PriorityChanged)
      + When(p.parentId != current.parentId, ParentChanged)
  }

  method CompareSnapshots(previous: Option<Snapshot>, current: Snapshot) returns (changes: seq<Change>)
    ensures changes == Diff(previous, current)
  {
    changes := [];
    if previous.None? {
      return;
    }
    var p := previous.value;
    changes := changes + When(p.summary != current.summary, SummaryChanged);
    changes := changes + When(p.description != current.description, DescriptionChanged);
    changes := changes + When(p.assigneeId != current.assigneeId, AssigneeChanged);
    changes := changes + When(p.state != current.state, StateChanged);
    changes := changes + When(p.priority != current.priority, PriorityChanged);
    changes := changes + When(p.parentId != current.parentId, ParentChanged);
    assert [] + When(p.summary != current.summary, SummaryChanged)
      == When(p.summary != current.summary, SummaryChanged);
    hide When;
  }

  predicate Differs(change: Change, p: Snapshot, c: Snapshot) {
    match change
    case SummaryChanged => p.summary != c.summary
    case DescriptionChanged => p.description != c.description
    case AssigneeChanged => p.assigneeId != c.assigneeId
    case StateChanged => p.state != c.state
    case PriorityChanged => p.priority != c.priority
    case ParentChanged => p.parentId != c.parentId
  }

  /** A change is reported exactly when its own field differs. */
  lemma DiffReportsExactly(p: Snapshot, c: Snapshot, change: Change)
    ensures change in Diff(Some(p), c) <==> Differs(change, p, c)
  {
    hide When;
    WhenIn(p.summary != c.summary, SummaryChanged, change);
    WhenIn(p.description != c.description, DescriptionChanged, change);
    WhenIn(p.assigneeId != c.assigneeId, AssigneeChanged, change);
    WhenIn(p.state != c.state, StateChanged, change);
    WhenIn(p.priority != c.priority, PriorityChanged, change);
    WhenIn(p.parentId != c.parentId, ParentChanged, change);
  }

  lemma WhenIn(condition: bool, reported: Change, change: Change)
    ensures change in When(condition, reported) <==> condition && change == reported
  {
  }

  /** Nothing is reported exactly when no compared field differs. */
  lemma DiffIsEmptyIff(p: Snapshot, c: Snapshot)
    ensures Diff(Some(p), c) == [] <==> forall change :: !Differs(change, p, c)
  {
    forall change
      ensures change in Diff(Some(p), c) <==> Differs(change, p, c)
    {
      DiffReportsExactly(p, c, change);
    }
    if Diff(Some(p), c) != [] {
      assert Diff(Some(p), c)[0] in Diff(Some(p), c);
    }
    hide Differs;
  }
}
