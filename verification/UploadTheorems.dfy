/**
  What the upload protocol guarantees over whole runs, whatever the interleaving: a committed
  artifact is complete, has the announced digest and never changes again; counters are exact;
  retries with one idempotency key agree; pinned artifacts stay.
 */
module UploadTheorems {
  import opened Wrappers
  import opened Ranges
  import opened UploadSessions
  import opened UploadProtocol
  import opened UploadSafety

  /** Event `k` leads from state `k` to state `k + 1`. */
  ghost predicate StepAt(c: Config, states: seq<State>, events: seq<Event>, k: nat)
    requires k < |events| && |states| == |events| + 1
  {
    Step(c, states[k], events[k], states[k + 1])
  }

  /** `states` is a run of `events` from the empty store. */
  ghost predicate Run(c: Config, states: seq<State>, events: seq<Event>) {
    && |states| == |events| + 1 && Init(states[0])
    && forall k {:trigger StepAt(c, states, events, k)} | 0 <= k < |events| :: StepAt(c, states, events, k)
  }

  lemma {:induction false} RunInv(c: Config, states: seq<State>, events: seq<Event>, k: nat)
    requires Run(c, states, events) && k < |states|
    ensures Inv(c, states[k])
  {
    if k > 0 {
      RunInv(c, states, events, k - 1);
      assert StepAt(c, states, events, k - 1);
      StepKeeps(c, states[k - 1], events[k - 1], states[k]);
    }
  }

  // ---- Every reachable state ----

  /** In-flight counters equal the pushes under way, bounded by the limit, and a commit excludes them. */
  lemma CountersExact(c: Config, states: seq<State>, events: seq<Event>, k: nat, id: string)
    requires Run(c, states, events) && k < |states| && id in states[k].store.sessions
    ensures var s, x := states[k], states[k].store.sessions[id];
      && x.inflight == |Writers(s.tasks, id)| && x.inflight <= c.maxInflight
      && (x.committing <==> exists t :: t in Committers(s.tasks, id))
      && |Committers(s.tasks, id)| <= 1
      && (x.committing || x.committed ==> Writers(s.tasks, id) == {})
  {
    RunInv(c, states, events, k);
    assert SessionOk(c, states[k], id);
  }

  /** A committed artifact is fully acknowledged, on disk, of the announced size and digest. */
  lemma CommittedIsWhole(c: Config, states: seq<State>, events: seq<Event>, k: nat, id: string)
    requires Run(c, states, events) && k < |states|
    requires id in states[k].store.sessions && states[k].store.sessions[id].committed
    ensures var s, x := states[k], states[k].store.sessions[id];
      && id in s.files && |s.files[id]| == x.size && c.digest(s.files[id]) == x.artifactDigest
      && forall b: nat :: b in Bytes(s.acked, id) <==> b < x.size
  {
    RunInv(c, states, events, k);
    var s, x := states[k], states[k].store.sessions[id];
    assert SessionOk(c, s, id);
    CompleteIffCovered(x.ranges, x.size);
    forall b: nat ensures b in Bytes(s.acked, id) <==> b < x.size {
      if Covers(x.ranges, b) {
        CoversWithin(x.ranges, x.size, b);
      }
    }
  }

  lemma CoversWithin(rs: seq<ByteRange>, total: nat, b: nat)
    requires Within(rs, total) && Covers(rs, b)
    ensures b < total
  {}

  lemma OneSessionPerKey(c: Config, states: seq<State>, events: seq<Event>, k: nat, a: string, b: string)
    requires Run(c, states, events) && k < |states|
    requires a in states[k].store.sessions && b in states[k].store.sessions
    requires states[k].store.sessions[a].key == states[k].store.sessions[b].key
    ensures a == b
  {
    RunInv(c, states, events, k);
  }

  /** The guard on the decrement is never needed: a push that comes back finds itself counted. */
  lemma PushFinishCounts(c: Config, states: seq<State>, events: seq<Event>, k: nat)
    requires Run(c, states, events) && k < |events| && events[k].PushFinish?
    requires events[k].t in states[k].tasks && states[k].tasks[events[k].t].phase.Written?
    requires states[k].tasks[events[k].t].phase.id in states[k].store.sessions
    ensures var id := states[k].tasks[events[k].t].phase.id;
      && id in states[k + 1].store.sessions
      && states[k + 1].store.sessions[id].inflight + 1 == states[k].store.sessions[id].inflight
  {
    RunInv(c, states, events, k);
    var id := states[k].tasks[events[k].t].phase.id;
    assert StepAt(c, states, events, k);
    assert SessionOk(c, states[k], id) && events[k].t in Writers(states[k].tasks, id);
  }

  // ---- One session over time ----

  /** What a session keeps for life, and what it keeps once committed. */
  predicate Evolves(x: Session, x': Session) {
    && x'.key == x.key && x'.fingerprint == x.fingerprint && x'.token == x.token && x'.service == x.service
    && x'.artifactDigest == x.artifactDigest && x'.size == x.size && x'.manifestDigest == x.manifestDigest
    && (x.committed ==> x'.committed && x'.ranges == x.ranges)
  }

  /** The id was handed out and no session under creation carries it. */
  ghost predicate Taken(s: State, id: string) {
    id in s.used && forall t | t in s.tasks && Candidate(s.tasks[t].phase) :: s.tasks[t].phase.id != id
  }

  /** Candidates come from candidates with the same id, or are new with an id never used before. */
  ghost predicate CandidatesFollow(s: State, s': State) {
    && s.used <= s'.used
    && forall t | t in s'.tasks && Candidate(s'.tasks[t].phase) ::
         || s'.tasks[t].phase.id !in s.used
         || (t in s.tasks && Candidate(s.tasks[t].phase) && s'.tasks[t].phase.id == s.tasks[t].phase.id)
  }

  /**
    What one step may do to a session `id` that has left creation: when `kept`, a pin holds it once
    committed; when `still`, its file and its acknowledged bytes stay as they are.
   */
  ghost predicate Follows(s: State, s': State, id: string, kept: bool, still: bool) {
    && CandidatesFollow(s, s')
    && (id in s'.store.sessions ==>
          && id in s.store.sessions && Evolves(s.store.sessions[id], s'.store.sessions[id])
          && (s.store.sessions[id].committed ==> FileOf(s'.files, id) == FileOf(s.files, id))
          && (still ==> FileOf(s'.files, id) == FileOf(s.files, id) && Bytes(s'.acked, id) == Bytes(s.acked, id)))
    && (kept && id in s.pins && id in s.store.sessions && s.store.sessions[id].committed ==> id in s'.store.sessions)
  }

  lemma SweepFollows(c: Config, s: State, now: nat, keep: set<string>, removed: set<string>, id: string)
    requires Sweeps(c, s, now, keep, removed)
    ensures Follows(s, AfterSweep(s, removed), id, true, true)
  {
    SweepTakesIdle(c, s, now, keep, removed);
  }

  lemma FollowsTwice(s: State, s1: State, s': State, id: string, kept: bool)
    requires Follows(s, s1, id, true, true) && Follows(s1, s', id, kept, true) && s1.pins == s.pins
    ensures Follows(s, s', id, kept, true)
  {}

  /** A sweep followed by the rest of its critical section. */
  lemma SweepThen(c: Config, s: State, s': State, now: nat, keep: set<string>, removed: set<string>, id: string,
                  kept: bool)
    requires Sweeps(c, s, now, keep, removed) && Follows(AfterSweep(s, removed), s', id, kept, true)
    ensures Follows(s, s', id, kept, true)
  {
    SweepFollows(c, s, now, keep, removed, id);
    FollowsTwice(s, AfterSweep(s, removed), s', id, kept);
  }

  /** A task that is done with its session, or never had one, gets on with its cleanup. */
  lemma CleanerFollows(s: State, s': State, t: nat, plan: set<string>, id: string)
    requires s'.tasks == s.tasks[t := Task(Cleaning, plan)] && s'.files == s.files && s'.used == s.used &&
             s'.acked == s.acked
    requires id in s'.store.sessions <==> id in s.store.sessions
    requires id in s.store.sessions ==> Evolves(s.store.sessions[id], s'.store.sessions[id])
    ensures Follows(s, s', id, true, true)
  {}

  lemma PrepareStartFollows(c: Config, s: State, s': State, t: nat, session: Session, fid: string, now: nat,
                            removed: set<string>, id: string)
    requires t !in s.tasks && fid !in s.used && PrepareStartSection(s, s', t, session, fid, now, removed)
    ensures Follows(s, s', id, true, true)
  {}

  lemma PrepareFileFollows(c: Config, s: State, s': State, t: nat, ok: bool, leftover: Option<seq<Byte>>, id: string)
    requires PrepareFileStep(c, s, s', t, ok, leftover) && Taken(s, id)
    ensures Follows(s, s', id, true, true)
  {}

  lemma PrepareFinishFollows(c: Config, s: State, s': State, t: nat, now: nat, removed: set<string>, id: string)
    requires t in s.tasks && s.tasks[t].phase.Created? && Taken(s, id)
    requires PrepareFinishSection(s, s', t, now, removed)
    ensures Follows(s, s', id, true, true)
  {
    var x := s.tasks[t].phase.session;
    if LookupKey(s.store, x.key, x.fingerprint).Absent? {
      PrepareWinnerFollows(s, s', t, now, removed, id);
    } else {
      CleanerFollows(s, s', t, s'.tasks[t].plan, id);
    }
  }

  lemma PrepareWinnerFollows(s: State, s': State, t: nat, now: nat, removed: set<string>, id: string)
    requires t in s.tasks && s.tasks[t].phase.Created? && Taken(s, id)
    requires PrepareFinishSection(s, s', t, now, removed)
    requires LookupKey(s.store, s.tasks[t].phase.session.key, s.tasks[t].phase.session.fingerprint).Absent?
    ensures Follows(s, s', id, true, true)
  {}

  lemma PushStartFollows(c: Config, s: State, s': State, t: nat, pid: string, token: string, offset: nat,
                         chunk: seq<Byte>, now: nat, removed: set<string>, id: string)
    requires t !in s.tasks && PushStartSection(c, s, s', t, pid, token, offset, chunk, now, removed)
    ensures Follows(s, s', id, true, true)
  {}

  lemma PushWriteFollows(c: Config, s: State, s': State, t: nat, n: nat, id: string)
    requires PushWriteStep(c, s, s', t, n) && (id in s.store.sessions ==> SessionOk(c, s, id))
    ensures Follows(s, s', id, true, false)
  {
    assert WritesTo(s.tasks[t].phase, id) ==> t in Writers(s.tasks, id);
  }

  lemma PushFinishFollows(c: Config, s: State, s': State, t: nat, now: nat, id: string)
    requires PushFinishStep(c, s, s', t, now) && (id in s.store.sessions ==> SessionOk(c, s, id))
    ensures Follows(s, s', id, true, false)
  {
    assert WritesTo(s.tasks[t].phase, id) ==> t in Writers(s.tasks, id);
  }

  lemma CommitStartFollows(c: Config, s: State, s': State, t: nat, cid: string, artifactDigest: string, size: nat,
                           manifestDigest: string, now: nat, removed: set<string>, id: string)
    requires t !in s.tasks && CommitStartSection(s, s', t, cid, artifactDigest, size, manifestDigest, now, removed)
    ensures Follows(s, s', id, true, true)
  {}

  lemma CommitFinishFollows(c: Config, s: State, s': State, t: nat, now: nat, removed: set<string>, id: string)
    requires CommitFinishStep(c, s, s', t, now, removed)
    requires s.tasks[t].phase.id in s.store.sessions && s.tasks[t].phase.digest == Some(s.tasks[t].phase.expected)
    ensures Follows(s, s', id, true, true)
  {
    var p, s1 := s.tasks[t].phase, CommitMarked(s, t, now);
    CleanerFollows(s, s1, t, s.tasks[t].plan, id);
    assert Sweeps(c, s1, now, {p.id}, removed);
    CommitFinishSweeps(c, s, s', t, now, removed);
    CleanerFollows(AfterSweep(s1, removed), s', t, s.tasks[t].plan + removed, id);
    SweepThen(c, s1, s', now, {p.id}, removed, id, true);
    FollowsTwice(s, s1, s', id, true);
  }

  lemma CommitFailureFollows(c: Config, s: State, s': State, t: nat, now: nat, removed: set<string>, id: string)
    requires CommitFinishStep(c, s, s', t, now, removed)
    requires !(s.tasks[t].phase.id in s.store.sessions && s.tasks[t].phase.digest == Some(s.tasks[t].phase.expected))
    ensures Follows(s, s', id, true, true)
  {}

  lemma LookupFollows(c: Config, s: State, s': State, t: nat, lid: string, now: nat, removed: set<string>, id: string)
    requires LookupStep(c, s, s', t, lid, now, removed)
    ensures Follows(s, s', id, true, true)
  {
    var s1 := AfterSweep(s, removed);
    if lid in s1.store.sessions && s1.store.sessions[lid].committed {
      CleanerFollows(s1, s', t, removed, id);
      SweepThen(c, s, s', now, {lid}, removed, id, true);
    } else {
      SweepFollows(c, s, now, {lid}, removed, id);
    }
  }

  lemma PurgeFollows(c: Config, s: State, s': State, t: nat, pid: string, now: nat, removed: set<string>, id: string)
    requires PurgeStep(c, s, s', t, pid, now, removed)
    ensures Follows(s, s', id, pid != id, true)
  {
    SweepFollows(c, s, now, {pid}, removed, id);
  }

  lemma CleanFileFollows(c: Config, s: State, s': State, t: nat, fid: string, ok: bool, id: string)
    requires CleanFileStep(c, s, s', t, fid, ok) && IdsApart(s.store.sessions.Keys, s.used, s.tasks)
    ensures Follows(s, s', id, true, true)
  {}

  /** The steps that sweep. */
  lemma SweepingStepFollows(c: Config, s: State, e: Event, s': State, id: string)
    requires Step(c, s, e, s') && (e.PrepareFinish? ==> Taken(s, id))
    requires e.PrepareStart? || e.PrepareFinish? || e.PushStart? || e.CommitStart? || e.CommitFinish? || e.Lookup? ||
             e.Purge?
    ensures Follows(s, s', id, !(e.Purge? && e.id == id), true)
  {
    match e
    case PrepareStart(t, session, fid, now, removed) =>
      PrepareStartFollows(c, AfterSweep(s, removed), s', t, session, fid, now, removed, id);
      SweepThen(c, s, s', now, {}, removed, id, true);
    case PrepareFinish(t, now, removed) =>
      PrepareFinishFollows(c, AfterSweep(s, removed), s', t, now, removed, id);
      SweepThen(c, s, s', now, {}, removed, id, true);
    case PushStart(t, pid, token, offset, chunk, now, removed) =>
      PushStartFollows(c, AfterSweep(s, removed), s', t, pid, token, offset, chunk, now, removed, id);
      SweepThen(c, s, s', now, {}, removed, id, true);
    case CommitStart(t, cid, digest, size, manifest, now, removed) =>
      CommitStartFollows(c, AfterSweep(s, removed), s', t, cid, digest, size, manifest, now, removed, id);
      SweepThen(c, s, s', now, {}, removed, id, true);
    case CommitFinish(t, now, removed) =>
      var p := s.tasks[t].phase;
      if p.id in s.store.sessions && p.digest == Some(p.expected) {
        CommitFinishFollows(c, s, s', t, now, removed, id);
      } else {
        CommitFailureFollows(c, s, s', t, now, removed, id);
      }
    case Lookup(t, lid, now, removed) => LookupFollows(c, s, s', t, lid, now, removed, id);
    case Purge(t, pid, now, removed) => PurgeFollows(c, s, s', t, pid, now, removed, id);
  }

  lemma WorkerFollows(s: State, s': State, t: nat, task: Task, id: string)
    requires s' == s.(tasks := s.tasks[t := task]) && !Candidate(task.phase)
    ensures Follows(s, s', id, true, true)
  {}

  /** The steps of a task between its critical sections, and the removal of its files. */
  lemma UnlockedStepFollows(c: Config, s: State, e: Event, s': State, id: string)
    requires Step(c, s, e, s') && Taken(s, id) && IdsApart(s.store.sessions.Keys, s.used, s.tasks)
    requires id in s.store.sessions ==> SessionOk(c, s, id)
    requires e.PrepareFile? || e.PushWrite? || e.PushWritten? || e.CommitRead? || e.CommitDigest? || e.CleanFile?
    ensures Follows(s, s', id, true, !e.PushWrite?)
  {
    if e.PrepareFile? {
      PrepareFileFollows(c, s, s', e.t, e.ok, e.leftover, id);
    } else if e.PushWrite? {
      PushWriteFollows(c, s, s', e.t, e.n, id);
    } else if e.CleanFile? {
      CleanFileFollows(c, s, s', e.t, e.id, e.ok, id);
    } else {
      WorkerFollows(s, s', e.t, s'.tasks[e.t], id);
    }
  }

  lemma StepFollows(c: Config, s: State, e: Event, s': State, id: string)
    requires Step(c, s, e, s') && Taken(s, id) && IdsApart(s.store.sessions.Keys, s.used, s.tasks)
    requires id in s.store.sessions ==> SessionOk(c, s, id)
    ensures Follows(s, s', id, !(e.Purge? && e.id == id), !e.PushWrite? && !e.PushFinish?)
  {
    if e.PrepareFile? || e.PushWrite? || e.PushWritten? || e.CommitRead? || e.CommitDigest? || e.CleanFile? {
      UnlockedStepFollows(c, s, e, s', id);
    } else if e.PushFinish? {
      PushFinishFollows(c, s, s', e.t, e.now, id);
    } else if !e.Pin? && !e.Unpin? {
      SweepingStepFollows(c, s, e, s', id);
    }
  }

  // ---- Whole runs ----

  /** A live session was live, and the same upload, at every earlier moment since it was seen live. */
  lemma {:induction false} SessionHistory(c: Config, states: seq<State>, events: seq<Event>, i: nat, j: nat, id: string)
    requires Run(c, states, events) && i <= j < |states|
    requires id in states[i].store.sessions && id in states[j].store.sessions
    ensures Evolves(states[i].store.sessions[id], states[j].store.sessions[id])
    ensures states[i].store.sessions[id].committed ==> FileOf(states[j].files, id) == FileOf(states[i].files, id)
    decreases j - i
  {
    if i < j {
      RunTaken(c, states, events, i, j - 1, id);
      RunFollows(c, states, events, j - 1, id);
      SessionHistory(c, states, events, i, j - 1, id);
    }
  }

  lemma RunTaken(c: Config, states: seq<State>, events: seq<Event>, i: nat, j: nat, id: string)
    requires Run(c, states, events) && i <= j < |states| && id in states[i].store.sessions
    ensures Taken(states[j], id)
  {
    RunInv(c, states, events, i);
    TakenStays(c, states, events, i, j, id);
  }

  /** An id past creation stays that way, and once it has left the store it never comes back. */
  lemma {:induction false} TakenStays(c: Config, states: seq<State>, events: seq<Event>, i: nat, j: nat, id: string)
    requires Run(c, states, events) && i <= j < |states| && Taken(states[i], id)
    ensures Taken(states[j], id)
    ensures id !in states[i].store.sessions ==> id !in states[j].store.sessions
    decreases j - i
  {
    if i < j {
      TakenStays(c, states, events, i, j - 1, id);
      RunFollows(c, states, events, j - 1, id);
    }
  }

  lemma RunFollows(c: Config, states: seq<State>, events: seq<Event>, k: nat, id: string)
    requires Run(c, states, events) && k < |events| && Taken(states[k], id)
    ensures Follows(states[k], states[k + 1], id, !(events[k].Purge? && events[k].id == id),
                    !events[k].PushWrite? && !events[k].PushFinish?)
  {
    RunInv(c, states, events, k);
    assert id in states[k].store.sessions ==> SessionOk(c, states[k], id);
    assert StepAt(c, states, events, k);
    StepFollows(c, states[k], events[k], states[k + 1], id);
  }

  /** Once committed, an artifact that is still served is the committed one, byte for byte. */
  lemma CommittedNeverChanges(c: Config, states: seq<State>, events: seq<Event>, i: nat, j: nat, id: string)
    requires Run(c, states, events) && i <= j < |states|
    requires id in states[i].store.sessions && states[i].store.sessions[id].committed && id in states[j].store.sessions
    ensures states[j].store.sessions[id].committed
    ensures id in states[i].files && id in states[j].files && states[j].files[id] == states[i].files[id]
    ensures c.digest(states[j].files[id]) == states[i].store.sessions[id].artifactDigest
  {
    SessionHistory(c, states, events, i, j, id);
    CommittedIsWhole(c, states, events, i, id);
  }

  predicate PinHeld(s: State, e: Event, id: string) {
    id in s.pins && !(e.Purge? && e.id == id)
  }

  /** While a committed artifact is pinned and nobody purges it, every sweep spares it. */
  lemma {:induction false} PinnedStays(c: Config, states: seq<State>, events: seq<Event>, i: nat, j: nat, id: string)
    requires Run(c, states, events) && i <= j < |states|
    requires id in states[i].store.sessions && states[i].store.sessions[id].committed
    requires forall k | i <= k < j :: PinHeld(states[k], events[k], id)
    ensures id in states[j].store.sessions && states[j].store.sessions[id].committed
    decreases j - i
  {
    if i < j {
      PinnedStays(c, states, events, i, j - 1, id);
      RunTaken(c, states, events, i, j - 1, id);
      RunFollows(c, states, events, j - 1, id);
    }
  }

  // ---- Idempotent prepare ----

  /** The key, fingerprint and fresh id a deciding prepare section works with, on the swept store. */
  datatype Decision = Decision(st: Store, key: string, fingerprint: string)

  function Deciding(s: State, e: Event): Option<Decision> {
    match e
    case PrepareStart(t, x, id, now, removed) => Some(Decision(Swept(s.store, removed), x.key, x.fingerprint))
    case PrepareFinish(t, now, removed) =>
      if t in s.tasks && s.tasks[t].phase.Created? then
        var x := s.tasks[t].phase.session;
        Some(Decision(Swept(s.store, removed), x.key, x.fingerprint))
      else None
    case _ => None
  }

  /** The deploy id a deciding section replies with, if any: the holder, or its own once registered. */
  function Granted(s: State, e: Event): Option<string> {
    match Deciding(s, e)
    case None => None
    case Some(d) =>
      match LookupKey(d.st, d.key, d.fingerprint)
      case Existing(id) => Some(id)
      case Conflict => None
      case Absent => if e.PrepareFinish? && e.t in s.tasks &&
        s.tasks[e.t].phase.Created? then Some(s.tasks[e.t].phase.id) else None
  }

  /** Whoever is granted an id leaves it live under the asked key with the asked fingerprint. */
  lemma GrantedIsLive(c: Config, s: State, e: Event, s': State)
    requires KeysMirror(s.store) && Step(c, s, e, s') && Granted(s, e).Some?
    ensures var d := Deciding(s, e).value;
      && Granted(s, e).value in s'.store.sessions
      && s'.store.sessions[Granted(s, e).value].key == d.key
      && s'.store.sessions[Granted(s, e).value].fingerprint == d.fingerprint
  {
    UploadSafety.SweptKeys(s.store, e.removed);
    match e
    case PrepareStart(t, x, id, now, removed) => ResumedIsLive(AfterSweep(s, removed), s', t, x, id, now, removed);
    case PrepareFinish(t, now, removed) => DecidedIsLive(AfterSweep(s, removed), s', t, now, removed);
  }

  lemma ResumedIsLive(s: State, s': State, t: nat, x: Session, id: string, now: nat, removed: set<string>)
    requires KeysMirror(s.store) && PrepareStartSection(s, s', t, x, id, now, removed)
    requires LookupKey(s.store, x.key, x.fingerprint).Existing?
    ensures var d := LookupKey(s.store, x.key, x.fingerprint).id;
      d in s'.store.sessions && s'.store.sessions[d].key == x.key && s'.store.sessions[d].fingerprint == x.fingerprint
  {}

  lemma DecidedIsLive(s: State, s': State, t: nat, now: nat, removed: set<string>)
    requires KeysMirror(s.store) && t in s.tasks && s.tasks[t].phase.Created? &&
             PrepareFinishSection(s, s', t, now, removed)
    requires !LookupKey(s.store, s.tasks[t].phase.session.key, s.tasks[t].phase.session.fingerprint).Conflict?
    ensures var x := s.tasks[t].phase.session;
      var r := LookupKey(s.store, x.key, x.fingerprint);
      var d := if r.Existing? then r.id else s.tasks[t].phase.id;
      d in s'.store.sessions && s'.store.sessions[d].key == x.key && s'.store.sessions[d].fingerprint == x.fingerprint
  {}

  /**
    Retries agree across any interleaving: once a prepare was granted `id`, every later prepare
    with that key whose sweep leaves `id` alive gets `id` when its fingerprint is the same and a
    conflict when it is not.
   */
  lemma RetriesAgree(c: Config, states: seq<State>, events: seq<Event>, i: nat, j: nat, id: string)
    requires Run(c, states, events) && i < j < |events|
    requires Granted(states[i], events[i]) == Some(id) && Deciding(states[j], events[j]).Some?
    requires Deciding(states[j], events[j]).value.key == Deciding(states[i], events[i]).value.key
    requires id in Deciding(states[j], events[j]).value.st.sessions
    ensures var d := Deciding(states[j], events[j]).value;
      LookupKey(d.st, d.key, d.fingerprint) ==
        if d.fingerprint == Deciding(states[i], events[i]).value.fingerprint then Existing(id) else Conflict
  {
    RunGranted(c, states, events, i);
    SessionHistory(c, states, events, i + 1, j, id);
    RunKeys(c, states, events, j);
    UploadSafety.SweptKeys(states[j].store, events[j].removed);
  }

  lemma RunKeys(c: Config, states: seq<State>, events: seq<Event>, k: nat)
    requires Run(c, states, events) && k < |states|
    ensures KeysMirror(states[k].store)
  {
    RunInv(c, states, events, k);
  }

  lemma RunGranted(c: Config, states: seq<State>, events: seq<Event>, i: nat)
    requires Run(c, states, events) && i < |events| && Granted(states[i], events[i]).Some?
    ensures var d, id := Deciding(states[i], events[i]).value, Granted(states[i], events[i]).value;
      && id in states[i + 1].store.sessions
      && states[i + 1].store.sessions[id].key == d.key && states[i + 1].store.sessions[id].fingerprint == d.fingerprint
  {
    RunKeys(c, states, events, i);
    assert StepAt(c, states, events, i);
    GrantedIsLive(c, states[i], events[i], states[i + 1]);
  }

  /** A prepare that loses its race undertakes to delete the file it created, and its id never goes live. */
  lemma LoserCleansUp(c: Config, states: seq<State>, events: seq<Event>, i: nat, j: nat)
    requires Run(c, states, events) && i < j < |states| && events[i].PrepareFinish?
    requires events[i].t in states[i].tasks && states[i].tasks[events[i].t].phase.Created?
    requires var d := Deciding(states[i], events[i]).value; !LookupKey(d.st, d.key, d.fingerprint).Absent?
    ensures var t, id := events[i].t, states[i].tasks[events[i].t].phase.id;
      && t in states[i + 1].tasks && states[i + 1].tasks[t].phase.Cleaning? && id in states[i + 1].tasks[t].plan
      && id !in states[j].store.sessions
  {
    RunLoses(c, states, events, i);
    TakenStays(c, states, events, i + 1, j, states[i].tasks[events[i].t].phase.id);
  }

  lemma RunLoses(c: Config, states: seq<State>, events: seq<Event>, i: nat)
    requires Run(c, states, events) && i < |events| && events[i].PrepareFinish?
    requires events[i].t in states[i].tasks && states[i].tasks[events[i].t].phase.Created?
    requires var d := Deciding(states[i], events[i]).value; !LookupKey(d.st, d.key, d.fingerprint).Absent?
    ensures var t, id, s' := events[i].t, states[i].tasks[events[i].t].phase.id, states[i + 1];
      && t in s'.tasks && s'.tasks[t].phase.Cleaning? && id in s'.tasks[t].plan
      && Taken(s', id) && id !in s'.store.sessions
  {
    RunIds(c, states, events, i);
    assert StepAt(c, states, events, i);
    LoserFinishes(c, states[i], events[i], states[i + 1]);
  }

  lemma RunIds(c: Config, states: seq<State>, events: seq<Event>, k: nat)
    requires Run(c, states, events) && k < |states|
    ensures IdsApart(states[k].store.sessions.Keys, states[k].used, states[k].tasks)
  {
    RunInv(c, states, events, k);
  }

  lemma LoserFinishes(c: Config, s: State, e: Event, s': State)
    requires IdsApart(s.store.sessions.Keys, s.used, s.tasks) && Step(c, s, e, s') && e.PrepareFinish?
    requires e.t in s.tasks && s.tasks[e.t].phase.Created?
    requires var d := Deciding(s, e).value; !LookupKey(d.st, d.key, d.fingerprint).Absent?
    ensures e.t in s'.tasks && s'.tasks[e.t].phase.Cleaning? && s.tasks[e.t].phase.id in s'.tasks[e.t].plan
    ensures Taken(s', s.tasks[e.t].phase.id) && s.tasks[e.t].phase.id !in s'.store.sessions
  {
    LoserStep(AfterSweep(s, e.removed), s', e.t, e.now, e.removed);
  }

  lemma LoserStep(s: State, s': State, t: nat, now: nat, removed: set<string>)
    requires t in s.tasks && s.tasks[t].phase.Created? && PrepareFinishSection(s, s', t, now, removed)
    requires !LookupKey(s.store, s.tasks[t].phase.session.key, s.tasks[t].phase.session.fingerprint).Absent?
    requires s.tasks[t].phase.id in s.used && s.tasks[t].phase.id !in s.store.sessions
    requires forall u | u in s.tasks && u != t &&
             Candidate(s.tasks[u].phase) :: s.tasks[u].phase.id != s.tasks[t].phase.id
    ensures t in s'.tasks && s'.tasks[t].phase.Cleaning? && s.tasks[t].phase.id in s'.tasks[t].plan
    ensures Taken(s', s.tasks[t].phase.id) && s.tasks[t].phase.id !in s'.store.sessions
  {}
}
