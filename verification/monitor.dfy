/**
 * The evaluation monitor's state diff: given the state recorded at the last
 * poll and a fresh evaluation with its allocation list, compute the state to
 * record and the change messages to print. Printing itself, timestamps and
 * the lock around the recorded state are left to the caller.
 */
module Monitor {
  import opened Wrappers

  /** The desired status of an allocation that stands for a placement failure. */
  const AllocDesiredStatusFailed: string := "failed"

  /** What the monitor remembers of one allocation. */
  datatype AllocState = AllocState(id: string, group: string, node: string, desired: string, client: string)

  /** What the monitor remembers of the evaluation; `wait` is a duration in nanoseconds. */
  datatype EvalState = EvalState(status: string, nodeId: string, allocs: map<string, AllocState>, wait: int)

  /** The fields of a polled evaluation the diff reads. */
  datatype Evaluation = Evaluation(status: string, nodeId: string, wait: int)

  /** The fields of a polled allocation stub the diff reads. */
  datatype AllocStub = AllocStub(id: string, taskGroup: string, nodeId: string, desiredStatus: string, clientStatus: string)

  /** One printed change message. */
  datatype Event =
    | SchedulingFailed(group: string)
    | AllocCreated(allocId: string, node: string, group: string)
    | AllocStatusChanged(allocId: string, from: string, to: string)
    | EvalStatusChanged(from: string, to: string)
    | Waiting(wait: int)
    | NodeAssigned(nodeId: string)

  /**
   * The messages of one update: at most one per allocation ID, in no
   * particular order, then the evaluation's own messages in printing order.
   */
  datatype Events = Events(perAlloc: map<string, Event>, eval: seq<Event>)

  const NoEvents: Events := Events(map[], [])

  datatype Step = Step(next: EvalState, events: Events)

  /** The state of a fresh monitor: nothing seen yet. */
  const Initial: EvalState := EvalState("", "", map[], 0)

  function StateOf(a: AllocStub): AllocState {
    AllocState(a.id, a.taskGroup, a.nodeId, a.desiredStatus, a.clientStatus)
  }

  /** The IDs appearing in a polled list. */
  function Ids(allocs: seq<AllocStub>): set<string> {
    set i | 0 <= i < |allocs| :: allocs[i].id
  }

  lemma IdsSnoc(allocs: seq<AllocStub>)
    requires |allocs| > 0
    ensures Ids(allocs) == Ids(allocs[..|allocs| - 1]) + {allocs[|allocs| - 1].id}
  {
  }

  /** `allocs[i]` is the last stub in the list with this ID. */
  ghost predicate LastWith(allocs: seq<AllocStub>, id: string, i: int) {
    && 0 <= i < |allocs|
    && allocs[i].id == id
    && forall j :: i < j < |allocs| ==> allocs[j].id != id
  }

  /** Every entry of `m` is the state of the last stub with its ID. */
  ghost predicate HoldsLastStates(m: map<string, AllocState>, allocs: seq<AllocStub>) {
    forall id :: id in m ==> exists i :: LastWith(allocs, id, i) && m[id] == StateOf(allocs[i])
  }

  /**
   * The allocation states of a polled list, keyed by ID; when an ID repeats,
   * the later stub overwrites the earlier one.
   */
  function Snapshot(allocs: seq<AllocStub>): map<string, AllocState> {
    if |allocs| == 0 then map[]
    else
      var last := allocs[|allocs| - 1];
      Snapshot(allocs[..|allocs| - 1])[last.id := StateOf(last)]
  }

  /** The snapshot is keyed by exactly the polled IDs and holds the last state polled for each. */
  lemma {:induction false} SnapshotLastWins(allocs: seq<AllocStub>)
    ensures Snapshot(allocs).Keys == Ids(allocs)
    ensures HoldsLastStates(Snapshot(allocs), allocs)
  {
    if |allocs| > 0 {
      var init := allocs[..|allocs| - 1];
      SnapshotLastWins(init);
      IdsSnoc(allocs);
      SnapshotSnoc(allocs, Snapshot(init));
    }
  }

  /** Overwriting with the last stub keeps every entry the state of its last stub. */
  lemma SnapshotSnoc(allocs: seq<AllocStub>, prior: map<string, AllocState>)
    requires |allocs| > 0
    requires HoldsLastStates(prior, allocs[..|allocs| - 1])
    ensures HoldsLastStates(prior[allocs[|allocs| - 1].id := StateOf(allocs[|allocs| - 1])], allocs)
  {
  }

  /** The message for one allocation of the new poll, given the allocations known before. */
  function AllocEvent(known: map<string, AllocState>, id: string, a: AllocState): Option<Event> {
    if id !in known then
      if a.desired == AllocDesiredStatusFailed then Some(SchedulingFailed(a.group))
      else Some(AllocCreated(a.id, a.node, a.group))
    else if known[id].client != a.client then Some(AllocStatusChanged(a.id, known[id].client, a.client))
    else None
  }

  /** The per-allocation messages: one for each allocation of `current` that is new or changed status. */
  function AllocEvents(known: map<string, AllocState>, current: map<string, AllocState>): (events: map<string, Event>)
    ensures events.Keys <= current.Keys
    ensures forall id :: id in current && id !in known ==>
      && id in events
      && events[id] ==
           (if current[id].desired == AllocDesiredStatusFailed then SchedulingFailed(current[id].group)
            else AllocCreated(current[id].id, current[id].node, current[id].group))
    ensures forall id :: id in current && id in known ==>
      (id in events <==> known[id].client != current[id].client)
    ensures forall id :: id in events && id in known ==>
      events[id] == AllocStatusChanged(current[id].id, known[id].client, current[id].client)
  {
    map id | id in current && AllocEvent(known, id, current[id]).Some? :: AllocEvent(known, id, current[id]).value
  }

  /** Where an evaluation-level message comes in the printing order. */
  function Rank(e: Event): nat {
    match e
    case EvalStatusChanged(_, _) => 0
    case Waiting(_) => 1
    case NodeAssigned(_) => 2
    case _ => 3
  }

  /**
   * The evaluation-level messages are exactly the transitions that happened,
   * each at most once, status before wait before node.
   */
  ghost predicate ReportsTransitions(events: seq<Event>, prev: EvalState, next: EvalState) {
    && (EvalStatusChanged(prev.status, next.status) in events <==> prev.status != next.status)
    && (Waiting(next.wait) in events <==> prev.wait == 0 && next.wait != 0)
    && (NodeAssigned(next.nodeId) in events <==> prev.nodeId == "" && next.nodeId != "")
    && (forall e :: e in events ==>
          e == EvalStatusChanged(prev.status, next.status) || e == Waiting(next.wait) || e == NodeAssigned(next.nodeId))
    && (forall i, j :: 0 <= i < j < |events| ==> Rank(events[i]) < Rank(events[j]))
    && |events| <= 3
  }

  /** The evaluation-level messages, in the order they are printed. */
  function EvalEvents(prev: EvalState, next: EvalState): (events: seq<Event>)
    ensures ReportsTransitions(events, prev, next)
  {
    (if prev.status != next.status then [EvalStatusChanged(prev.status, next.status)] else [])
    + (if prev.wait == 0 && next.wait != 0 then [Waiting(next.wait)] else [])
    + (if prev.nodeId == "" && next.nodeId != "" then [NodeAssigned(next.nodeId)] else [])
  }

  /** The diff between the recorded state and a new poll. */
  function Update(prev: EvalState, eval: Evaluation, allocs: seq<AllocStub>): (s: Step)
    // The recorded state becomes exactly the new poll.
    ensures s.next.status == eval.status && s.next.nodeId == eval.nodeId && s.next.wait == eval.wait
    ensures s.next.allocs.Keys == Ids(allocs) && HoldsLastStates(s.next.allocs, allocs)
    // Allocations missing from the new poll are forgotten without a message.
    ensures s.events.perAlloc.Keys <= Ids(allocs)
    // Every newly seen allocation is announced, as a scheduling failure when its desired status says so.
    ensures forall id :: id in s.next.allocs && id !in prev.allocs ==>
      && id in s.events.perAlloc
      && s.events.perAlloc[id] ==
           (if s.next.allocs[id].desired == AllocDesiredStatusFailed then SchedulingFailed(s.next.allocs[id].group)
            else AllocCreated(s.next.allocs[id].id, s.next.allocs[id].node, s.next.allocs[id].group))
    // A known allocation is reported exactly when its client status changed.
    ensures forall id :: id in s.next.allocs && id in prev.allocs ==>
      (id in s.events.perAlloc <==> prev.allocs[id].client != s.next.allocs[id].client)
    ensures forall id :: id in s.events.perAlloc && id in prev.allocs ==>
      s.events.perAlloc[id] == AllocStatusChanged(s.next.allocs[id].id, prev.allocs[id].client, s.next.allocs[id].client)
    // The evaluation's own messages: each transition that happened, once, in printing order, and nothing else.
    ensures ReportsTransitions(s.events.eval, prev, s.next)
  {
    SnapshotLastWins(allocs);
    var next := EvalState(eval.status, eval.nodeId, Snapshot(allocs), eval.wait);
    Step(next, Events(AllocEvents(prev.allocs, next.allocs), EvalEvents(prev, next)))
  }

  /** Nothing in the new poll differs from the recorded state in a way the monitor reports. */
  ghost predicate Unchanged(prev: EvalState, eval: Evaluation, allocs: seq<AllocStub>) {
    && (forall i :: 0 <= i < |allocs| ==> allocs[i].id in prev.allocs)
    && (forall i :: 0 <= i < |allocs| && LastWith(allocs, allocs[i].id, i) ==>
          prev.allocs[allocs[i].id].client == allocs[i].clientStatus)
    && prev.status == eval.status
    && !(prev.wait == 0 && eval.wait != 0)
    && !(prev.nodeId == "" && eval.nodeId != "")
  }

  /** An update prints nothing exactly when nothing reportable changed. */
  lemma UpdateQuietIff(prev: EvalState, eval: Evaluation, allocs: seq<AllocStub>)
    ensures Update(prev, eval, allocs).events == NoEvents <==> Unchanged(prev, eval, allocs)
  {
    if Unchanged(prev, eval, allocs) {
      QuietWhenUnchanged(prev, eval, allocs);
    } else {
      LoudWhenChanged(prev, eval, allocs);
    }
  }

  /** At most one index is the last with a given ID. */
  lemma LastWithUnique(allocs: seq<AllocStub>, id: string, i: int, j: int)
    requires LastWith(allocs, id, i) && LastWith(allocs, id, j)
    ensures i == j
  {
  }

  /** The snapshot holds the state of the last stub polled for an ID. */
  lemma SnapshotAtLast(allocs: seq<AllocStub>, i: int)
    requires 0 <= i < |allocs| && LastWith(allocs, allocs[i].id, i)
    ensures allocs[i].id in Snapshot(allocs) && Snapshot(allocs)[allocs[i].id] == StateOf(allocs[i])
  {
    SnapshotLastWins(allocs);
    assert allocs[i].id in Ids(allocs);
    var j :| LastWith(allocs, allocs[i].id, j) && Snapshot(allocs)[allocs[i].id] == StateOf(allocs[j]);
    LastWithUnique(allocs, allocs[i].id, i, j);
  }

  /** A poll with nothing reportable prints nothing. */
  lemma QuietWhenUnchanged(prev: EvalState, eval: Evaluation, allocs: seq<AllocStub>)
    requires Unchanged(prev, eval, allocs)
    ensures Update(prev, eval, allocs).events == NoEvents
  {
    var s := Update(prev, eval, allocs);
    SnapshotLastWins(allocs);
    forall id | id in s.next.allocs
      ensures id !in s.events.perAlloc
    {
      var j :| LastWith(allocs, id, j) && s.next.allocs[id] == StateOf(allocs[j]);
      assert allocs[j].id in prev.allocs;
    }
    assert s.events.perAlloc == map[];
  }

  /** A poll with something reportable prints something. */
  lemma LoudWhenChanged(prev: EvalState, eval: Evaluation, allocs: seq<AllocStub>)
    requires !Unchanged(prev, eval, allocs)
    ensures Update(prev, eval, allocs).events != NoEvents
  {
    var s := Update(prev, eval, allocs);
    if !(forall i :: 0 <= i < |allocs| ==> allocs[i].id in prev.allocs) {
      var i :| 0 <= i < |allocs| && allocs[i].id !in prev.allocs;
      assert allocs[i].id in Ids(allocs);
      assert allocs[i].id in s.events.perAlloc;
    } else if !(forall i :: 0 <= i < |allocs| && LastWith(allocs, allocs[i].id, i) ==>
                  prev.allocs[allocs[i].id].client == allocs[i].clientStatus) {
      var i :| 0 <= i < |allocs| && LastWith(allocs, allocs[i].id, i)
               && prev.allocs[allocs[i].id].client != allocs[i].clientStatus;
      SnapshotAtLast(allocs, i);
      assert allocs[i].id in s.events.perAlloc;
    }
  }

  /** A second update with the same poll prints nothing. */
  lemma UpdateIdempotent(prev: EvalState, eval: Evaluation, allocs: seq<AllocStub>)
    ensures Update(Update(prev, eval, allocs).next, eval, allocs).events == NoEvents
  {
  }

  /** The first update of a fresh monitor announces every allocation of the poll. */
  lemma FirstUpdateAnnouncesAll(eval: Evaluation, allocs: seq<AllocStub>)
    ensures Update(Initial, eval, allocs).events.perAlloc.Keys == Ids(allocs)
    ensures forall e :: e in Update(Initial, eval, allocs).events.perAlloc.Values ==>
      e.SchedulingFailed? || e.AllocCreated?
  {
  }
}
