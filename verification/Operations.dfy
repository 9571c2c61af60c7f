/**
  The registry of running commands: start, spawn, cancel, finish and remove on one table shared by
  all requests.  A cancel and a spawn race for each request; the table decides who wins.
 */
module Operations {
  import opened Wrappers

  datatype CommandState = Accepted | Running | Succeeded | Failed | Canceled

  datatype Phase = Starting | Spawned

  datatype Entry = Entry(state: CommandState, stage: string, updatedAt: string, cancelRequested: bool, phase: Phase)

  type RequestId = nat

  type Registry = map<RequestId, Entry>

  datatype Op =
    | Start
    | SetState(state: CommandState, stage: string)
    | MarkSpawned(stage: string)
    | Snapshot
    | Cancel
    | Finish(state: CommandState, stage: string)
    | Remove

  datatype Reply =
    | Done
    | Busy
    | NotFound
    | SpawnProceeds
    | SpawnCanceled
    | Status(state: CommandState, stage: string, updatedAt: string)
    | CancelReply(cancellable: bool, finalState: CommandState)

  predicate IsTerminal(s: CommandState) {
    s.Succeeded? || s.Failed? || s.Canceled?
  }

  /** The entry after an operation on it, and the reply. */
  function OnEntry(x: Entry, op: Op, now: string): (Option<Entry>, Reply) {
    match op
    case Start => (Some(x), Busy)
    case SetState(state, stage) => (Some(x.(state := state, stage := stage, updatedAt := now)), Done)
    case MarkSpawned(stage) =>
      if x.cancelRequested
      then
        var settled := x.(stage := "cancel-pending", updatedAt := now, phase := Spawned, cancelRequested := false);
        (Some(settled), SpawnCanceled)
      else (Some(x.(phase := Spawned, stage := stage, updatedAt := now)), SpawnProceeds)
    case Snapshot => (Some(x), if IsTerminal(x.state) then NotFound else Status(x.state, x.stage, x.updatedAt))
    case Cancel =>
      if IsTerminal(x.state) then (Some(x), NotFound)
      else if x.phase.Spawned? then (Some(x), CancelReply(false, x.state))
      else (Some(x.(cancelRequested := true, updatedAt := now)), CancelReply(true, Canceled))
    case Finish(state, stage) =>
      (Some(x.(state := state, stage := stage, updatedAt := now, phase := Spawned, cancelRequested := false)), Done)
    case Remove => (None, Done)
  }

  function Apply(m: Registry, id: RequestId, op: Op, now: string): (Registry, Reply) {
    if id in m then
      var (x, r) := OnEntry(m[id], op, now);
      (if x.Some? then m[id := x.value] else m - {id}, r)
    else if op.Start? then (m[id := Entry(Accepted, "accepted", now, false, Starting)], Done)
    else (m, if op.Finish? || op.Remove? then Done else NotFound)
  }

  class OperationManager {
    var entries: Registry

    constructor ()
      ensures entries == map[]
    {
      entries := map[];
    }

    method StartOperation(id: RequestId, now: string) returns (r: Reply)
      modifies this
      ensures (entries, r) == Apply(old(entries), id, Start, now)
    {
      if id in entries {
        assert entries[id := entries[id]] == entries;
        return Busy;
      }
      entries := entries[id := Entry(Accepted, "accepted", now, false, Starting)];
      r := Done;
    }

    method MarkSpawnedIfNotCanceled(id: RequestId, stage: string, now: string) returns (r: Reply)
      modifies this
      ensures (entries, r) == Apply(old(entries), id, MarkSpawned(stage), now)
    {
      if id !in entries {
        return NotFound;
      }
      var x := entries[id];
      if x.cancelRequested {
        x := x.(stage := "cancel-pending", updatedAt := now);
        x := x.(phase := Spawned);
        x := x.(cancelRequested := false);
        entries := entries[id := x];
        return SpawnCanceled;
      }
      x := x.(phase := Spawned);
      entries := entries[id := x.(stage := stage, updatedAt := now)];
      r := SpawnProceeds;
    }

    method RequestCancel(id: RequestId, now: string) returns (r: Reply)
      modifies this
      ensures (entries, r) == Apply(old(entries), id, Cancel, now)
    {
      if id !in entries {
        return NotFound;
      }
      var x := entries[id];
      if IsTerminal(x.state) {
        assert entries[id := x] == entries;
        return NotFound;
      }
      if x.phase == Spawned {
        assert entries[id := x] == entries;
        return CancelReply(false, x.state);
      }
      entries := entries[id := x.(cancelRequested := true, updatedAt := now)];
      r := CancelReply(true, Canceled);
    }

    method SetOperationState(id: RequestId, state: CommandState, stage: string, now: string) returns (r: Reply)
      modifies this
      ensures (entries, r) == Apply(old(entries), id, SetState(state, stage), now)
    {
      if id !in entries {
        return NotFound;
      }
      entries := entries[id := entries[id].(state := state, stage := stage, updatedAt := now)];
      r := Done;
    }

    method SnapshotRunning(id: RequestId, now: string) returns (r: Reply)
      ensures (entries, r) == Apply(entries, id, Snapshot, now)
    {
      if id !in entries {
        return NotFound;
      }
      var x := entries[id];
      assert entries[id := x] == entries;
      if x.state == Succeeded || x.state == Failed || x.state == Canceled {
        return NotFound;
      }
      r := Status(x.state, x.stage, x.updatedAt);
    }

    method RemoveOperation(id: RequestId, now: string)
      modifies this
      ensures (entries, Done) == Apply(old(entries), id, Remove, now)
      ensures id !in entries
    {
      assert id !in entries ==> entries - {id} == entries;
      entries := entries - {id};
    }

    method FinishOperation(id: RequestId, state: CommandState, stage: string, now: string)
      modifies this
      ensures entries == Apply(old(entries), id, Finish(state, stage), now).0
    {
      if id in entries {
        var x := entries[id].(state := state, stage := stage, updatedAt := now);
        entries := entries[id := x.(phase := Spawned, cancelRequested := false)];
      }
    }
  }

  // ---- Runs over all requests ----

  datatype Call = Call(id: RequestId, op: Op, now: string)

  /** `ms[k]` is the registry before call `k`; calls of all requests interleave. */
  ghost predicate Run(ms: seq<Registry>, calls: seq<Call>) {
    && |ms| == |calls| + 1 && ms[0] == map[]
    && forall k | 0 <= k < |calls| :: ms[k + 1] == Apply(ms[k], calls[k].id, calls[k].op, calls[k].now).0
  }

  function ReplyAt(ms: seq<Registry>, calls: seq<Call>, k: nat): Reply
    requires k < |calls| && k < |ms|
  {
    Apply(ms[k], calls[k].id, calls[k].op, calls[k].now).1
  }

  /** A pending cancel is never left on an entry whose spawn was decided. */
  lemma {:induction false} PendingOnlyWhileStarting(ms: seq<Registry>, calls: seq<Call>, k: nat, id: RequestId)
    requires Run(ms, calls) && k < |ms| && id in ms[k] && ms[k][id].cancelRequested
    ensures ms[k][id].phase.Starting?
  {
    if k > 0 && id in ms[k - 1] && ms[k - 1][id].cancelRequested {
      PendingOnlyWhileStarting(ms, calls, k - 1, id);
    }
  }

  /**
    One lifetime of a request: right after its start at call `lo`, up to call `hi`, neither started nor
    removed again.
   */
  ghost predicate Lifetime(ms: seq<Registry>, calls: seq<Call>, lo: nat, hi: nat, id: RequestId) {
    && Run(ms, calls) && lo < hi <= |calls|
    && calls[lo].id == id && calls[lo].op.Start? && ReplyAt(ms, calls, lo) == Done
    && forall k | lo < k < hi && calls[k].id == id :: !calls[k].op.Start? && !calls[k].op.Remove?
  }

  /** Call `k` settles the spawn: it marks the request spawned or finishes it. */
  predicate Settles(calls: seq<Call>, k: nat, id: RequestId)
    requires k < |calls|
  {
    calls[k].id == id && (calls[k].op.MarkSpawned? || calls[k].op.Finish?)
  }

  predicate CancelAccepted(ms: seq<Registry>, calls: seq<Call>, k: nat, id: RequestId)
    requires k < |calls| && k < |ms|
  {
    calls[k].id == id && calls[k].op.Cancel? && ReplyAt(ms, calls, k) == CancelReply(true, Canceled)
  }

  predicate SpawnGoesAhead(ms: seq<Registry>, calls: seq<Call>, k: nat, id: RequestId)
    requires k < |calls| && k < |ms|
  {
    calls[k].id == id && calls[k].op.MarkSpawned? && ReplyAt(ms, calls, k) == SpawnProceeds
  }

  /** What the entry remembers of its lifetime. */
  lemma {:induction false} EntryHistory(ms: seq<Registry>, calls: seq<Call>, lo: nat, hi: nat, id: RequestId, k: nat)
    requires Lifetime(ms, calls, lo, hi, id) && lo < k <= hi
    ensures id in ms[k]
    ensures ms[k][id].phase.Spawned? <==> exists j | lo < j < k :: Settles(calls, j, id)
    ensures ms[k][id].cancelRequested <==>
        ms[k][id].phase.Starting? && exists i | lo < i < k :: CancelAccepted(ms, calls, i, id)
  {
    if k > lo + 1 {
      EntryHistory(ms, calls, lo, hi, id, k - 1);
      EntryStep(ms, calls, lo, hi, id, k - 1);
      if exists j | lo < j < k - 1 :: Settles(calls, j, id) {
        var j :| lo < j < k - 1 && Settles(calls, j, id);
        assert lo < j < k && Settles(calls, j, id);
      }
      if exists i | lo < i < k - 1 :: CancelAccepted(ms, calls, i, id) {
        var i :| lo < i < k - 1 && CancelAccepted(ms, calls, i, id);
        assert lo < i < k && CancelAccepted(ms, calls, i, id);
      }
    }
  }

  lemma EntryStep(ms: seq<Registry>, calls: seq<Call>, lo: nat, hi: nat, id: RequestId, k: nat)
    requires Lifetime(ms, calls, lo, hi, id) && lo < k < hi && id in ms[k]
    requires ms[k][id].cancelRequested ==> ms[k][id].phase.Starting?
    ensures id in ms[k + 1]
    ensures ms[k + 1][id].phase.Spawned? <==> ms[k][id].phase.Spawned? || Settles(calls, k, id)
    ensures ms[k + 1][id].cancelRequested <==>
        !Settles(calls, k, id) && (ms[k][id].cancelRequested || CancelAccepted(ms, calls, k, id))
    ensures CancelAccepted(ms, calls, k, id) ==> ms[k][id].phase.Starting?
  {
    assert ms[k + 1] == Apply(ms[k], calls[k].id, calls[k].op, calls[k].now).0;
  }

  /** The state recorded last in a lifetime that began at call `lo`, as of call `k`. */
  function LastState(calls: seq<Call>, lo: nat, k: nat, id: RequestId): CommandState
    requires lo < k <= |calls|
  {
    if k == lo + 1 then Accepted
    else
      var call := calls[k - 1];
      if call.id == id && (call.op.SetState? || call.op.Finish?) then call.op.state
      else LastState(calls, lo, k - 1, id)
  }

  /** The stage recorded last; a mark that finds a pending cancel records that instead of its own stage. */
  function LastStage(ms: seq<Registry>, calls: seq<Call>, lo: nat, k: nat, id: RequestId): string
    requires lo < k <= |calls| < |ms|
  {
    if k == lo + 1 then "accepted"
    else
      var call := calls[k - 1];
      if call.id == id && (call.op.SetState? || call.op.Finish?) then call.op.stage
      else if call.id == id && call.op.MarkSpawned? then
        if ReplyAt(ms, calls, k - 1) == SpawnCanceled then "cancel-pending" else call.op.stage
      else LastStage(ms, calls, lo, k - 1, id)
  }

  /** An entry holds the state and stage its lifetime recorded last, whatever other requests do. */
  lemma {:induction false} StateHistory(ms: seq<Registry>, calls: seq<Call>, lo: nat, hi: nat, id: RequestId, k: nat)
    requires Lifetime(ms, calls, lo, hi, id) && lo < k <= hi
    ensures id in ms[k] && ms[k][id].state == LastState(calls, lo, k, id)
    ensures ms[k][id].stage == LastStage(ms, calls, lo, k, id)
  {
    if k == lo + 1 {
      assert ms[k] == Apply(ms[lo], id, Start, calls[lo].now).0;
    } else {
      StateHistory(ms, calls, lo, hi, id, k - 1);
      assert ms[k] == Apply(ms[k - 1], calls[k - 1].id, calls[k - 1].op, calls[k - 1].now).0;
    }
  }

  /**
    What a cancel or a snapshot is told in a lifetime: not found once a final state is recorded;
    otherwise a cancel is accepted exactly before the spawn is settled and else reports the state
    recorded last, and a snapshot shows that state and its stage.
   */
  lemma LifetimeReplies(ms: seq<Registry>, calls: seq<Call>, lo: nat, hi: nat, id: RequestId, k: nat)
    requires Lifetime(ms, calls, lo, hi, id) && lo < k < hi && calls[k].id == id
    ensures var state := LastState(calls, lo, k, id);
      if state == Succeeded || state == Failed || state == Canceled then
        calls[k].op.Cancel? || calls[k].op.Snapshot? ==> ReplyAt(ms, calls, k) == NotFound
      else
        && (calls[k].op.Cancel? ==>
              ReplyAt(ms, calls, k) ==
                if exists j | lo < j < k :: Settles(calls, j, id) then CancelReply(false, state)
                else CancelReply(true, Canceled))
        && (calls[k].op.Snapshot? ==>
              && ReplyAt(ms, calls, k).Status? && ReplyAt(ms, calls, k).state == state
              && ReplyAt(ms, calls, k).stage == LastStage(ms, calls, lo, k, id))
  {
    StateHistory(ms, calls, lo, hi, id, k);
    EntryHistory(ms, calls, lo, hi, id, k);
  }

  /**
    In one lifetime an accepted cancel and a spawn that goes ahead both occur exactly when, after the
    cancel, the spawn is settled and then marked once more.
   */
  lemma CancelAndSpawn(ms: seq<Registry>, calls: seq<Call>, lo: nat, hi: nat, id: RequestId)
    requires Lifetime(ms, calls, lo, hi, id)
    ensures
      ((exists i | lo < i < hi :: CancelAccepted(ms, calls, i, id)) &&
        (exists k | lo < k < hi :: SpawnGoesAhead(ms, calls, k, id)))
      <==> exists i, j, k | lo < i < j < k < hi :: SettledThenMarked(ms, calls, i, j, k, id)
  {
    if (exists i | lo < i < hi :: CancelAccepted(ms, calls, i, id)) &&
      (exists k | lo < k < hi :: SpawnGoesAhead(ms, calls, k, id)) {
      var i :| lo < i < hi && CancelAccepted(ms, calls, i, id);
      var k :| lo < k < hi && SpawnGoesAhead(ms, calls, k, id);
      var j := SettledBetween(ms, calls, lo, hi, id, i, k);
      assert SettledThenMarked(ms, calls, i, j, k, id);
    }
    if exists i, j, k | lo < i < j < k < hi :: SettledThenMarked(ms, calls, i, j, k, id) {
      var i, j, k :| lo < i < j < k < hi && SettledThenMarked(ms, calls, i, j, k, id);
      MarkedAgain(ms, calls, lo, hi, id, j, k);
    }
  }

  /** An accepted cancel at `i`, the spawn settled at `j`, and one more mark at `k`. */
  predicate SettledThenMarked(ms: seq<Registry>, calls: seq<Call>, i: nat, j: nat, k: nat, id: RequestId)
    requires i < |calls| < |ms| && j < |calls| && k < |calls|
  {
    CancelAccepted(ms, calls, i, id) && Settles(calls, j, id) && calls[k].id == id && calls[k].op.MarkSpawned?
  }

  lemma MarkedAgain(ms: seq<Registry>, calls: seq<Call>, lo: nat, hi: nat, id: RequestId, j: nat, k: nat)
    requires Lifetime(ms, calls, lo, hi, id) && lo < j < k < hi
    requires Settles(calls, j, id) && calls[k].id == id && calls[k].op.MarkSpawned?
    ensures SpawnGoesAhead(ms, calls, k, id)
  {
    EntryHistory(ms, calls, lo, hi, id, k);
  }

  /**
    Such a lifetime: start, an accepted cancel, a mark that reports it, and a second mark that lets the
    spawn proceed.
   */
  lemma BothCanHappen() returns (ms: seq<Registry>, calls: seq<Call>)
    ensures |calls| == 4 && Lifetime(ms, calls, 0, 4, 0)
    ensures CancelAccepted(ms, calls, 1, 0) && SpawnGoesAhead(ms, calls, 3, 0)
  {
    calls := [Call(0, Start, "1"), Call(0, Cancel, "2"), Call(0, MarkSpawned("spawn"), "3"),
      Call(0, MarkSpawned("spawn"), "4")];
    var m0: Registry := map[];
    var m1 := Apply(m0, 0, Start, "1").0;
    var m2 := Apply(m1, 0, Cancel, "2").0;
    var m3 := Apply(m2, 0, MarkSpawned("spawn"), "3").0;
    var m4 := Apply(m3, 0, MarkSpawned("spawn"), "4").0;
    ms := [m0, m1, m2, m3, m4];
  }

  lemma SettledBetween(ms: seq<Registry>, calls: seq<Call>, lo: nat, hi: nat, id: RequestId, i: nat,
                       k: nat) returns (j: nat)
    requires Lifetime(ms, calls, lo, hi, id) && lo < i < hi && lo < k < hi
    requires CancelAccepted(ms, calls, i, id) && SpawnGoesAhead(ms, calls, k, id)
    ensures i < j < k && Settles(calls, j, id)
  {
    EntryHistory(ms, calls, lo, hi, id, i);
    EntryHistory(ms, calls, lo, hi, id, k);
    EntryStep(ms, calls, lo, hi, id, i);
    assert Settles(calls, k, id);
    assert ms[k][id].phase.Spawned?;
    j :| lo < j < k && Settles(calls, j, id);
  }

  /**
    A request that marks its spawn at most once, and not after finishing, is either canceled or
    spawned, never both.
   */
  lemma CancelOrSpawn(ms: seq<Registry>, calls: seq<Call>, lo: nat, hi: nat, id: RequestId, i: nat, k: nat)
    requires Lifetime(ms, calls, lo, hi, id) && lo < i < hi && lo < k < hi
    requires CancelAccepted(ms, calls, i, id) && calls[k].id == id && calls[k].op.MarkSpawned?
    requires forall j | lo < j < k :: !Settles(calls, j, id)
    ensures i < k && ReplyAt(ms, calls, k) == SpawnCanceled
  {
    EntryHistory(ms, calls, lo, hi, id, k);
    EntryHistory(ms, calls, lo, hi, id, i);
    EntryStep(ms, calls, lo, hi, id, i);
    assert Settles(calls, k, id);
  }
}
