/**
  How long things last in the upload protocol: when exactly a session leaves the store, how many
  pins hold it, and that a removed file never comes back.
 */
module UploadLifetimes {
  import opened Wrappers
  import opened UploadSessions
  import opened UploadProtocol
  import opened UploadTheorems

  // ---- When a session leaves ----

  /** The store a sweep works on, its time, and the sessions it must spare. */
  datatype Sweep = Sweep(st: Store, now: nat, protected: set<string>)

  /** Every critical section but the second one of push begins or ends with a sweep. */
  function SweepOf(s: State, e: Event): Option<Sweep> {
    match e
    case PrepareStart(_, _, _, now, _) => Some(Sweep(s.store, now, s.pins.Keys))
    case PrepareFinish(_, now, _) => Some(Sweep(s.store, now, s.pins.Keys))
    case PushStart(_, _, _, _, _, now, _) => Some(Sweep(s.store, now, s.pins.Keys))
    case CommitStart(_, _, _, _, _, now, _) => Some(Sweep(s.store, now, s.pins.Keys))
    case Lookup(_, id, now, _) => Some(Sweep(s.store, now, s.pins.Keys + {id}))
    case Purge(_, id, now, _) => Some(Sweep(s.store, now, s.pins.Keys + {id}))
    case CommitFinish(t, now, _) =>
      if t in s.tasks && s.tasks[t].phase.ReadDone? && s.tasks[t].phase.id in s.store.sessions &&
        s.tasks[t].phase.digest == Some(s.tasks[t].phase.expected)
      then
        var p := s.tasks[t].phase;
        Some(Sweep(CommitSettled(s.store, p.id, p.expected, p.digest, now), now, s.pins.Keys + {p.id}))
      else None
    case _ => None
  }

  /** Sessions a step removes on top of its sweep. */
  predicate Purges(e: Event, id: string) {
    e.Purge? && e.id == id
  }

  function RemovedBy(e: Event): set<string> {
    match e
    case PrepareStart(_, _, _, _, removed) => removed
    case PrepareFinish(_, _, removed) => removed
    case PushStart(_, _, _, _, _, _, removed) => removed
    case CommitStart(_, _, _, _, _, _, removed) => removed
    case Lookup(_, _, _, removed) => removed
    case Purge(_, _, _, removed) => removed
    case CommitFinish(_, _, removed) => removed
    case _ => {}
  }

  /** Pins and files are untouched. */
  predicate Aside(s: State, s': State) {
    s'.pins == s.pins && s'.files == s.files
  }

  // The sections that follow a sweep leave the set of live sessions as the sweep left it, except
  // that a prepare may register its own and a purge removes its target.

  lemma PrepareStartLive(s: State, s': State, t: nat, x: Session, id: string, now: nat, removed: set<string>)
    requires PrepareStartSection(s, s', t, x, id, now, removed)
    ensures s'.store.sessions.Keys == s.store.sessions.Keys && Aside(s, s')
  {}

  lemma PrepareFinishLive(s: State, s': State, t: nat, now: nat, removed: set<string>)
    requires t in s.tasks && s.tasks[t].phase.Created? && PrepareFinishSection(s, s', t, now, removed)
    ensures var id := s.tasks[t].phase.id; s'.store.sessions.Keys - {id} == s.store.sessions.Keys - {id}
    ensures Aside(s, s')
  {}

  lemma PushStartLive(c: Config, s: State, s': State, t: nat, id: string, token: string, offset: nat, chunk: seq<Byte>,
                      now: nat, removed: set<string>)
    requires PushStartSection(c, s, s', t, id, token, offset, chunk, now, removed)
    ensures s'.store.sessions.Keys == s.store.sessions.Keys && Aside(s, s')
  {}

  lemma CommitStartLive(s: State, s': State, t: nat, id: string, digest: string, size: nat, manifest: string,
                        now: nat, removed: set<string>)
    requires CommitStartSection(s, s', t, id, digest, size, manifest, now, removed)
    ensures s'.store.sessions.Keys == s.store.sessions.Keys && Aside(s, s')
  {}

  lemma SettledLive(st: Store, id: string, expected: string, digest: Option<string>, now: nat)
    ensures CommitSettled(st, id, expected, digest, now).sessions.Keys == st.sessions.Keys
  {}

  lemma UnsweptLive(c: Config, s: State, e: Event, s': State)
    requires Step(c, s, e, s')
    requires e.PrepareFile? || e.PushWrite? || e.PushWritten? || e.CommitRead? || e.CommitDigest? || e.CleanFile? ||
             e.Pin? || e.Unpin?
    ensures s'.store == s.store
  {}

  lemma PushFinishLive(c: Config, s: State, s': State, t: nat, now: nat)
    requires PushFinishStep(c, s, s', t, now)
    ensures s'.store.sessions.Keys == s.store.sessions.Keys && Aside(s, s')
  {}

  lemma SweptKeys(s: State, removed: set<string>)
    ensures AfterSweep(s, removed).store.sessions.Keys == s.store.sessions.Keys - removed
  {}

  /** The steps of prepare and push. */
  lemma UploadStepLeaves(c: Config, s: State, e: Event, s': State, id: string)
    requires Step(c, s, e, s') && id in s.store.sessions && (e.PrepareStart? || e.PrepareFinish? || e.PushStart?)
    requires e.PrepareFinish? ==> s.tasks[e.t].phase.id != id
    ensures (id !in s'.store.sessions <==> id in e.removed) && Aside(s, s')
  {
    SweptKeys(s, e.removed);
    if e.PrepareStart? {
      PrepareStartLive(AfterSweep(s, e.removed), s', e.t, e.session, e.id, e.now, e.removed);
    } else if e.PrepareFinish? {
      PrepareFinishLive(AfterSweep(s, e.removed), s', e.t, e.now, e.removed);
      assert id in s'.store.sessions <==> id in s'.store.sessions.Keys - {s.tasks[e.t].phase.id};
    } else {
      PushStartLive(c, AfterSweep(s, e.removed), s', e.t, e.id, e.token, e.offset, e.chunk, e.now, e.removed);
    }
  }

  lemma CommitFinishStore(c: Config, s: State, s': State, t: nat, now: nat, removed: set<string>)
    requires CommitFinishStep(c, s, s', t, now, removed)
    ensures var p := s.tasks[t].phase;
      var settled := CommitSettled(s.store, p.id, p.expected, p.digest, now);
      s'.store == if p.id in s.store.sessions && p.digest == Some(p.expected) then Swept(settled, removed) else settled
    ensures Aside(s, s')
  {}

  lemma CommitFinishLeaves(s: State, s': State, p: Phase, now: nat, removed: set<string>, id: string)
    requires p.ReadDone? && id in s.store.sessions
    requires var settled := CommitSettled(s.store, p.id, p.expected, p.digest, now);
      s'.store == if p.id in s.store.sessions && p.digest == Some(p.expected) then Swept(settled, removed) else settled
    ensures id !in s'.store.sessions <==>
      p.id in s.store.sessions && p.digest == Some(p.expected) && id in removed
  {
    SettledLive(s.store, p.id, p.expected, p.digest, now);
  }

  lemma LookupLeaves(c: Config, s: State, s': State, t: nat, lid: string, now: nat, removed: set<string>)
    requires LookupStep(c, s, s', t, lid, now, removed)
    ensures s'.store.sessions.Keys == s.store.sessions.Keys - removed && Aside(s, s')
  {
    SweptKeys(s, removed);
  }

  lemma PurgeLeaves(c: Config, s: State, s': State, t: nat, pid: string, now: nat, removed: set<string>)
    requires PurgeStep(c, s, s', t, pid, now, removed)
    ensures s'.store.sessions.Keys == s.store.sessions.Keys - removed - {pid} && Aside(s, s')
  {
    SweptKeys(s, removed);
  }

  lemma CommitStartLeaves(c: Config, s: State, s': State, t: nat, cid: string, digest: string, size: nat,
                          manifest: string, now: nat, removed: set<string>)
    requires CommitStartStep(c, s, s', t, cid, digest, size, manifest, now, removed)
    ensures s'.store.sessions.Keys == s.store.sessions.Keys - removed && Aside(s, s')
  {
    SweptKeys(s, removed);
    CommitStartLive(AfterSweep(s, removed), s', t, cid, digest, size, manifest, now, removed);
  }

  /** The steps of commit, lookup and purge. */
  lemma CommitStepLeaves(c: Config, s: State, e: Event, s': State, id: string)
    requires Step(c, s, e, s') && (e.CommitStart? || e.CommitFinish? || e.Lookup? || e.Purge?)
    ensures Aside(s, s')
    ensures id in s.store.sessions ==>
      (id !in s'.store.sessions <==> Purges(e, id) || (SweepOf(s, e).Some? && id in RemovedBy(e)))
  {
    if e.CommitStart? {
      CommitStartLeaves(c, s, s', e.t, e.id, e.artifactDigest, e.size, e.manifestDigest, e.now, e.removed);
    } else if e.CommitFinish? {
      CommitFinishStore(c, s, s', e.t, e.now, e.removed);
      if id in s.store.sessions {
        CommitFinishLeaves(s, s', s.tasks[e.t].phase, e.now, e.removed, id);
      }
    } else if e.Lookup? {
      LookupLeaves(c, s, s', e.t, e.id, e.now, e.removed);
    } else {
      PurgeLeaves(c, s, s', e.t, e.id, e.now, e.removed);
    }
  }

  /** A live session leaves with a step exactly if it is purged or the step's sweep takes it. */
  lemma LeavesWithSweep(c: Config, s: State, e: Event, s': State, id: string)
    requires Step(c, s, e, s') && id in s.store.sessions && IdsApart(s.store.sessions.Keys, s.used, s.tasks)
    ensures id !in s'.store.sessions <==> Purges(e, id) || (SweepOf(s, e).Some? && id in RemovedBy(e))
  {
    if e.PrepareStart? || e.PrepareFinish? || e.PushStart? {
      assert e.PrepareFinish? ==> Candidate(s.tasks[e.t].phase);
      UploadStepLeaves(c, s, e, s', id);
    } else if e.CommitStart? || e.CommitFinish? || e.Lookup? || e.Purge? {
      CommitStepLeaves(c, s, e, s', id);
    } else if e.PushFinish? {
      PushFinishLive(c, s, s', e.t, e.now);
    } else {
      UnsweptLive(c, s, e, s');
    }
  }

  /** Only the steps between critical sections touch files, and only pins and unpins touch pins. */
  lemma SectionsAside(c: Config, s: State, e: Event, s': State)
    requires Step(c, s, e, s')
    requires e.PrepareStart? || e.PrepareFinish? || e.PushStart? || e.PushFinish? || e.CommitStart? ||
             e.CommitFinish? || e.Lookup? || e.Purge?
    ensures Aside(s, s')
  {
    if e.PrepareStart? {
      PrepareStartLive(AfterSweep(s, e.removed), s', e.t, e.session, e.id, e.now, e.removed);
    } else if e.PrepareFinish? {
      PrepareFinishLive(AfterSweep(s, e.removed), s', e.t, e.now, e.removed);
    } else if e.PushStart? {
      PushStartLive(c, AfterSweep(s, e.removed), s', e.t, e.id, e.token, e.offset, e.chunk, e.now, e.removed);
    } else if e.PushFinish? {
      PushFinishLive(c, s, s', e.t, e.now);
    } else {
      CommitStepLeaves(c, s, e, s', "");
    }
  }

  /** A step that sweeps takes what a sweep may take. */
  lemma SweepsByRule(c: Config, s: State, e: Event, s': State)
    requires Step(c, s, e, s') && SweepOf(s, e).Some?
    ensures var v := SweepOf(s, e).value; SweepRemoves(c, v.st, v.now, v.protected, RemovedBy(e))
  {
    assert s.pins.Keys + {} == s.pins.Keys;
  }

  /** A sweep sees a session as it was, except that a commit's own session is committed and protected by then. */
  lemma SeenBySweep(c: Config, s: State, e: Event, id: string)
    requires id in s.store.sessions && SweepOf(s, e).Some? && SessionOk(c, s, id)
    ensures var v := SweepOf(s, e).value;
      && id in v.st.sessions
      && (v.st.sessions[id] == s.store.sessions[id] ||
          (s.store.sessions[id].committing && v.st.sessions[id].committed && id in v.protected))
  {
    if e.CommitFinish? && s.tasks[e.t].phase.id == id {
      assert e.t in Committers(s.tasks, id);
    }
  }

  /**
    In every run an upload that is not committed leaves the store exactly when it is purged, or when
    some request sweeps while nobody works on it and it has not been touched for the upload limit.
   */
  lemma UploadLeavesIff(c: Config, states: seq<State>, events: seq<Event>, k: nat, id: string)
    requires Run(c, states, events) && k < |events|
    requires id in states[k].store.sessions && !states[k].store.sessions[id].committed
    ensures var x, v := states[k].store.sessions[id], SweepOf(states[k], events[k]);
      id !in states[k + 1].store.sessions <==>
        Purges(events[k], id) ||
        (v.Some? && x.inflight == 0 && !x.committing && Outlived(x, c.uploadTtl, v.value.now))
  {
    RunInv(c, states, events, k);
    assert StepAt(c, states, events, k);
    LeavesWithSweep(c, states[k], events[k], states[k + 1], id);
    if SweepOf(states[k], events[k]).Some? {
      SweepDecides(c, states[k], events[k], states[k + 1], id);
    }
  }

  lemma SweepDecides(c: Config, s: State, e: Event, s': State, id: string)
    requires Step(c, s, e, s') && SweepOf(s, e).Some? && id in s.store.sessions && SessionOk(c, s, id)
    ensures var x, v := s.store.sessions[id], SweepOf(s, e).value;
      && (!x.committed ==>
            (id in RemovedBy(e) <==> x.inflight == 0 && !x.committing && Outlived(x, c.uploadTtl, v.now)))
      && (x.committed && (x.inflight > 0 || x.committing || id in v.protected) ==> id !in RemovedBy(e))
      && (x.committed && x.inflight == 0 && !x.committing && id !in v.protected ==>
            (Outlived(x, c.committedTtl, v.now) ==> id in RemovedBy(e)))
  {
    var v := SweepOf(s, e).value;
    SweepsByRule(c, s, e, s');
    SeenBySweep(c, s, e, id);
    SweepTakes(c, v.st, v.now, v.protected, RemovedBy(e), id);
  }

  /**
    In every run a committed session leaves the store only when it is purged, or when some request
    sweeps while nobody works on it and nothing protects it: certainly if it has outlived its limit,
    and otherwise only to bring the number of committed sessions down to theirs.
   */
  lemma CommittedLeaves(c: Config, states: seq<State>, events: seq<Event>, k: nat, id: string)
    requires Run(c, states, events) && k < |events| && !Purges(events[k], id)
    requires id in states[k].store.sessions && states[k].store.sessions[id].committed
    ensures id !in states[k + 1].store.sessions ==>
      && SweepOf(states[k], events[k]).Some?
      && var x, v := states[k].store.sessions[id], SweepOf(states[k], events[k]).value;
         && x.inflight == 0 && !x.committing && id !in v.protected
         && (Outlived(x, c.committedTtl, v.now) ||
             |Evictable(c, v.st, v.now, v.protected)| + |ProtectedCommitted(v.st, v.protected)| > c.maxCommitted)
    ensures SweepOf(states[k], events[k]).Some? ==>
      var x, v := states[k].store.sessions[id], SweepOf(states[k], events[k]).value;
      x.inflight == 0 && !x.committing && id !in v.protected && Outlived(x, c.committedTtl, v.now) ==>
        id !in states[k + 1].store.sessions
  {
    RunInv(c, states, events, k);
    assert StepAt(c, states, events, k);
    assert SessionOk(c, states[k], id);
    LeavesWithSweep(c, states[k], events[k], states[k + 1], id);
    if SweepOf(states[k], events[k]).Some? {
      SweepDecides(c, states[k], events[k], states[k + 1], id);
      if id !in states[k + 1].store.sessions {
        EvictionDecides(c, states[k], events[k], states[k + 1], id);
      }
    }
  }

  lemma EvictionDecides(c: Config, s: State, e: Event, s': State, id: string)
    requires Step(c, s, e, s') && SweepOf(s, e).Some? && id in s.store.sessions && SessionOk(c, s, id)
    requires id in RemovedBy(e) && s.store.sessions[id].committed
    ensures var x, v := s.store.sessions[id], SweepOf(s, e).value;
      Outlived(x, c.committedTtl, v.now) ||
      |Evictable(c, v.st, v.now, v.protected)| + |ProtectedCommitted(v.st, v.protected)| > c.maxCommitted
  {
    var v := SweepOf(s, e).value;
    SweepDecides(c, s, e, s', id);
    SweepsByRule(c, s, e, s');
    SeenBySweep(c, s, e, id);
    if !Outlived(s.store.sessions[id], c.committedTtl, v.now) {
      assert id in Evictable(c, v.st, v.now, v.protected);
      SweepEvicts(c, v.st, v.now, v.protected, RemovedBy(e), id);
    }
  }

  // ---- Pins ----

  /** How many of the first `k` events pin `id`, less those that unpin it. */
  function PinsLeft(events: seq<Event>, k: nat, id: string): int
    requires k <= |events|
  {
    if k == 0 then 0
    else
      var before := PinsLeft(events, k - 1, id);
      if events[k - 1] == Pin(id) then before + 1 else if events[k - 1] == Unpin(id) then before - 1 else before
  }

  /** In every run a session is pinned exactly while more pins were taken than given back. */
  lemma {:induction false} PinsCounted(c: Config, states: seq<State>, events: seq<Event>, k: nat, id: string)
    requires Run(c, states, events) && k < |states|
    ensures PinsLeft(events, k, id) == if id in states[k].pins then states[k].pins[id] else 0
    ensures id in states[k].pins <==> PinsLeft(events, k, id) > 0
  {
    if k > 0 {
      PinsCounted(c, states, events, k - 1, id);
      assert StepAt(c, states, events, k - 1);
      PinsStep(c, states[k - 1], events[k - 1], states[k], id);
    }
  }

  lemma PinsStep(c: Config, s: State, e: Event, s': State, id: string)
    requires Step(c, s, e, s')
    requires id in s.pins ==> s.pins[id] > 0
    ensures var left, left' := if id in s.pins then s.pins[id] else 0, if id in s'.pins then s'.pins[id] else 0;
      && (id in s'.pins ==> left' > 0)
      && left' == if e == Pin(id) then left + 1 else if e == Unpin(id) then left - 1 else left
  {
    if e.PrepareFile? || e.PushWrite? || e.PushWritten? || e.CommitRead? || e.CommitDigest? || e.CleanFile? {
      UnlockedPins(c, s, e, s');
    } else if !e.Pin? && !e.Unpin? {
      SectionsAside(c, s, e, s');
    }
  }

  lemma UnlockedPins(c: Config, s: State, e: Event, s': State)
    requires Step(c, s, e, s')
    requires e.PrepareFile? || e.PushWrite? || e.PushWritten? || e.CommitRead? || e.CommitDigest? || e.CleanFile?
    ensures s'.pins == s.pins
  {}

  // ---- Files ----

  /** In every run a file that was removed never comes back. */
  lemma {:induction false} RemovedStaysRemoved(c: Config, states: seq<State>, events: seq<Event>, i: nat, j: nat,
                                               id: string)
    requires Run(c, states, events) && i < j < |states| && Removes(states[i], events[i], id)
    ensures id !in states[j].files
    decreases j - i
  {
    if j == i + 1 {
      RunRemoves(c, states, events, i, id);
    } else {
      RemovedStaysRemoved(c, states, events, i, j - 1, id);
      PlannedIsTaken(c, states, events, i, id);
      TakenStays(c, states, events, i, j - 1, id);
      RunNoNewFile(c, states, events, j - 1, id);
    }
  }

  lemma RunRemoves(c: Config, states: seq<State>, events: seq<Event>, k: nat, id: string)
    requires Run(c, states, events) && k < |events| && Removes(states[k], events[k], id)
    ensures id !in states[k + 1].files
  {
    assert StepAt(c, states, events, k);
    RemovalRemoves(c, states[k], events[k], states[k + 1], id);
  }

  lemma RunNoNewFile(c: Config, states: seq<State>, events: seq<Event>, k: nat, id: string)
    requires Run(c, states, events) && k < |events| && Taken(states[k], id) && id !in states[k].files
    ensures id !in states[k + 1].files
  {
    assert StepAt(c, states, events, k);
    NoNewFile(c, states[k], events[k], states[k + 1], id);
  }

  /** The step deletes the planned file `id`. */
  predicate Removes(s: State, e: Event, id: string) {
    e.CleanFile? && e.ok && e.id == id && e.t in s.tasks && id in s.tasks[e.t].plan
  }

  lemma RemovalRemoves(c: Config, s: State, e: Event, s': State, id: string)
    requires Step(c, s, e, s') && Removes(s, e, id)
    ensures id !in s'.files
  {}

  lemma PlannedIsTaken(c: Config, states: seq<State>, events: seq<Event>, i: nat, id: string)
    requires Run(c, states, events) && i < |events| && Removes(states[i], events[i], id)
    ensures Taken(states[i], id)
  {
    RunInv(c, states, events, i);
  }

  lemma NoNewFile(c: Config, s: State, e: Event, s': State, id: string)
    requires Step(c, s, e, s') && Taken(s, id) && id !in s.files
    ensures id !in s'.files
  {
    if e.PrepareFile? {
      assert Candidate(s.tasks[e.t].phase);
    } else if e.PushWrite? || e.PushWritten? || e.CommitRead? || e.CommitDigest? || e.CleanFile? || e.Pin? || e.Unpin? {
      OldFiles(c, s, e, s');
    } else {
      SectionsAside(c, s, e, s');
    }
  }

  lemma OldFiles(c: Config, s: State, e: Event, s': State)
    requires Step(c, s, e, s')
    requires e.PushWrite? || e.PushWritten? || e.CommitRead? || e.CommitDigest? || e.CleanFile? || e.Pin? || e.Unpin?
    ensures s'.files.Keys <= s.files.Keys
  {}

  // ---- What becomes of a session that leaves, and when it was last used ----

  /** The request a step belongs to goes on after it. */
  predicate GoesOn(e: Event, s': State) {
    !e.Pin? && !e.Unpin? && e.t in s'.tasks
  }

  /** A step that sweeps plans what it swept, unless it refuses its request. */
  ghost predicate PlansSwept(e: Event, s': State) {
    if GoesOn(e, s') then RemovedBy(e) <= s'.tasks[e.t].plan else e.PushStart? || e.CommitStart? || e.Lookup?
  }

  lemma PrepareStartPlans(c: Config, s: State, s': State, t: nat, x: Session, id: string, now: nat,
                          removed: set<string>)
    requires PrepareStartStep(c, s, s', t, x, id, now, removed)
    ensures PlansSwept(PrepareStart(t, x, id, now, removed), s')
  {
    PrepareStartSectionPlans(AfterSweep(s, removed), s', t, x, id, now, removed);
  }

  lemma PrepareStartSectionPlans(s: State, s': State, t: nat, x: Session, id: string, now: nat, removed: set<string>)
    requires PrepareStartSection(s, s', t, x, id, now, removed)
    ensures t in s'.tasks && removed <= s'.tasks[t].plan
  {}

  lemma PrepareFinishPlans(c: Config, s: State, s': State, t: nat, now: nat, removed: set<string>)
    requires PrepareFinishStep(c, s, s', t, now, removed)
    ensures PlansSwept(PrepareFinish(t, now, removed), s')
  {
    PrepareFinishSectionPlans(AfterSweep(s, removed), s', t, now, removed);
  }

  lemma PrepareFinishSectionPlans(s: State, s': State, t: nat, now: nat, removed: set<string>)
    requires t in s.tasks && s.tasks[t].phase.Created? && PrepareFinishSection(s, s', t, now, removed)
    ensures t in s'.tasks && removed <= s'.tasks[t].plan
  {}

  lemma PushStartPlans(c: Config, s: State, s': State, t: nat, id: string, token: string, offset: nat,
                       chunk: seq<Byte>, now: nat, removed: set<string>)
    requires PushStartStep(c, s, s', t, id, token, offset, chunk, now, removed)
    ensures PlansSwept(PushStart(t, id, token, offset, chunk, now, removed), s')
  {}

  lemma CommitStartPlans(c: Config, s: State, s': State, t: nat, id: string, digest: string, size: nat,
                         manifest: string, now: nat, removed: set<string>)
    requires CommitStartStep(c, s, s', t, id, digest, size, manifest, now, removed)
    ensures PlansSwept(CommitStart(t, id, digest, size, manifest, now, removed), s')
  {
    CommitStartSectionPlans(AfterSweep(s, removed), s', t, id, digest, size, manifest, now, removed);
  }

  lemma CommitStartSectionPlans(s: State, s': State, t: nat, id: string, digest: string, size: nat, manifest: string,
                                now: nat, removed: set<string>)
    requires CommitStartSection(s, s', t, id, digest, size, manifest, now, removed) && t !in s.tasks
    ensures t in s'.tasks ==> s'.tasks[t].plan == removed
  {}

  lemma LookupPlans(c: Config, s: State, s': State, t: nat, id: string, now: nat, removed: set<string>)
    requires LookupStep(c, s, s', t, id, now, removed)
    ensures PlansSwept(Lookup(t, id, now, removed), s')
  {}

  lemma CommitPlans(c: Config, s: State, s': State, t: nat, now: nat, removed: set<string>)
    requires CommitFinishStep(c, s, s', t, now, removed) && SweepOf(s, CommitFinish(t, now, removed)).Some?
    ensures PlansSwept(CommitFinish(t, now, removed), s')
  {}

  lemma PurgePlans(c: Config, s: State, s': State, t: nat, id: string, now: nat, removed: set<string>)
    requires PurgeStep(c, s, s', t, id, now, removed)
    ensures PlansSwept(Purge(t, id, now, removed), s') && t in s'.tasks
    ensures id in s.store.sessions && id !in removed ==> id in s'.tasks[t].plan
  {}

  lemma SweeperPlans(c: Config, s: State, e: Event, s': State)
    requires Step(c, s, e, s') && SweepOf(s, e).Some?
    ensures PlansSwept(e, s')
  {
    if e.PrepareStart? {
      PrepareStartPlans(c, s, s', e.t, e.session, e.id, e.now, e.removed);
    } else if e.PrepareFinish? {
      PrepareFinishPlans(c, s, s', e.t, e.now, e.removed);
    } else if e.PushStart? {
      PushStartPlans(c, s, s', e.t, e.id, e.token, e.offset, e.chunk, e.now, e.removed);
    } else if e.CommitStart? {
      CommitStartPlans(c, s, s', e.t, e.id, e.artifactDigest, e.size, e.manifestDigest, e.now, e.removed);
    } else if e.CommitFinish? {
      CommitPlans(c, s, s', e.t, e.now, e.removed);
    } else if e.Lookup? {
      LookupPlans(c, s, s', e.t, e.id, e.now, e.removed);
    } else {
      PurgePlans(c, s, s', e.t, e.id, e.now, e.removed);
    }
  }

  lemma RunLeaves(c: Config, states: seq<State>, events: seq<Event>, k: nat, id: string)
    requires Run(c, states, events) && k < |events| && id in states[k].store.sessions
    ensures id !in states[k + 1].store.sessions <==>
      Purges(events[k], id) || (SweepOf(states[k], events[k]).Some? && id in RemovedBy(events[k]))
  {
    RunInv(c, states, events, k);
    assert StepAt(c, states, events, k);
    LeavesWithSweep(c, states[k], events[k], states[k + 1], id);
  }

  /**
    In every run the request that removes a session from the store takes its file into its cleanup plan,
    if it goes on; only a push, a commit or a lookup that is refused after its sweep does not.
   */
  lemma LeaverIsPlanned(c: Config, states: seq<State>, events: seq<Event>, k: nat, id: string)
    requires Run(c, states, events) && k < |events|
    requires id in states[k].store.sessions && id !in states[k + 1].store.sessions
    ensures if GoesOn(events[k], states[k + 1]) then id in states[k + 1].tasks[events[k].t].plan
            else events[k].PushStart? || events[k].CommitStart? || events[k].Lookup?
  {
    RunLeaves(c, states, events, k, id);
    assert StepAt(c, states, events, k);
    PlannedByStep(c, states[k], events[k], states[k + 1], id);
  }

  lemma PlannedByStep(c: Config, s: State, e: Event, s': State, id: string)
    requires Step(c, s, e, s') && id in s.store.sessions
    requires Purges(e, id) || (SweepOf(s, e).Some? && id in RemovedBy(e))
    ensures if GoesOn(e, s') then id in s'.tasks[e.t].plan else e.PushStart? || e.CommitStart? || e.Lookup?
  {
    SweeperPlans(c, s, e, s');
    if e.Purge? {
      PurgePlans(c, s, s', e.t, e.id, e.now, e.removed);
    }
  }

  /** The time at which a step uses session `id`: a prepare that is given it, and what is let in or done on it. */
  function UsedAt(s: State, e: Event, s': State, id: string): Option<nat> {
    match e
    case PrepareStart(_, _, _, now, _) => if Granted(s, e) == Some(id) then Some(now) else None
    case PrepareFinish(_, now, _) => if Granted(s, e) == Some(id) then Some(now) else None
    case PushStart(_, pid, _, _, _, now, _) => if pid == id && GoesOn(e, s') then Some(now) else None
    case CommitStart(_, cid, _, _, _, now, _) => if cid == id && GoesOn(e, s') then Some(now) else None
    case Lookup(_, lid, now, _) => if lid == id && GoesOn(e, s') then Some(now) else None
    case PushFinish(t, now) =>
      if t in s.tasks && s.tasks[t].phase.Written? && s.tasks[t].phase.id == id && s.tasks[t].phase.ok then Some(now)
      else None
    case CommitFinish(t, now, _) =>
      if t in s.tasks && s.tasks[t].phase.ReadDone? && s.tasks[t].phase.id == id then Some(now) else None
    case _ => None
  }

  /** Session `id` of `st'` carries the time of its use, or the one it had in `st`. */
  ghost predicate Stamped(st: Store, st': Store, used: Option<nat>, id: string) {
    id in st'.sessions ==>
      match used
      case Some(now) => st'.sessions[id].updatedAt == now
      case None => id in st.sessions && st'.sessions[id].updatedAt == st.sessions[id].updatedAt
  }

  lemma PrepareStartStamps(s: State, s': State, t: nat, x: Session, fid: string, now: nat, removed: set<string>,
                           id: string)
    requires PrepareStartSection(AfterSweep(s, removed), s', t, x, fid, now, removed)
    ensures var used := UsedAt(s, PrepareStart(t, x, fid, now, removed), s', id);
      Stamped(AfterSweep(s, removed).store, s'.store, used, id)
  {}

  lemma PrepareFinishStamps(s: State, s': State, t: nat, now: nat, removed: set<string>, id: string)
    requires t in s.tasks && s.tasks[t].phase.Created?
    requires PrepareFinishSection(AfterSweep(s, removed), s', t, now, removed)
    ensures Stamped(AfterSweep(s, removed).store, s'.store, UsedAt(s, PrepareFinish(t, now, removed), s', id), id)
  {}

  lemma PushStartStamps(c: Config, s: State, s': State, t: nat, pid: string, token: string, offset: nat,
                        chunk: seq<Byte>, now: nat, removed: set<string>, id: string)
    requires PushStartSection(c, s, s', t, pid, token, offset, chunk, now, removed) && t !in s.tasks
    ensures Stamped(s.store, s'.store, if pid == id && t in s'.tasks then Some(now) else None, id)
  {}

  lemma PushStamps(c: Config, s: State, s': State, t: nat, pid: string, token: string, offset: nat,
                   chunk: seq<Byte>, now: nat, removed: set<string>, id: string)
    requires PushStartStep(c, s, s', t, pid, token, offset, chunk, now, removed)
    ensures Stamped(s.store, s'.store, if pid == id && t in s'.tasks then Some(now) else None, id)
  {
    PushStartStamps(c, AfterSweep(s, removed), s', t, pid, token, offset, chunk, now, removed, id);
    SweptStamps(s, s'.store, removed, if pid == id && t in s'.tasks then Some(now) else None, id);
  }

  lemma CommitStartStamps(s: State, s': State, t: nat, cid: string, digest: string, size: nat, manifest: string,
                          now: nat, removed: set<string>, id: string)
    requires CommitStartSection(s, s', t, cid, digest, size, manifest, now, removed) && t !in s.tasks
    ensures Stamped(s.store, s'.store, if cid == id && t in s'.tasks then Some(now) else None, id)
  {}

  lemma CommitStamps(c: Config, s: State, s': State, t: nat, cid: string, digest: string, size: nat,
                     manifest: string, now: nat, removed: set<string>, id: string)
    requires CommitStartStep(c, s, s', t, cid, digest, size, manifest, now, removed)
    ensures Stamped(s.store, s'.store, if cid == id && t in s'.tasks then Some(now) else None, id)
  {
    CommitStartStamps(AfterSweep(s, removed), s', t, cid, digest, size, manifest, now, removed, id);
    SweptStamps(s, s'.store, removed, if cid == id && t in s'.tasks then Some(now) else None, id);
  }

  lemma LookupStamps(c: Config, s: State, s': State, t: nat, lid: string, now: nat, removed: set<string>, id: string)
    requires LookupStep(c, s, s', t, lid, now, removed)
    ensures Stamped(s.store, s'.store, if lid == id && t in s'.tasks then Some(now) else None, id)
  {}

  lemma SettledStamps(s: State, s': State, p: Phase, now: nat, removed: set<string>, id: string)
    requires p.ReadDone?
    requires var settled := CommitSettled(s.store, p.id, p.expected, p.digest, now);
      s'.store == settled || s'.store == Swept(settled, removed)
    ensures Stamped(s.store, s'.store, if p.id == id then Some(now) else None, id)
  {}

  lemma PushFinishStamps(c: Config, s: State, s': State, t: nat, now: nat, id: string)
    requires PushFinishStep(c, s, s', t, now)
    ensures var p := s.tasks[t].phase;
      Stamped(s.store, s'.store, if p.id == id && p.ok then Some(now) else None, id)
  {}

  lemma PurgeStamps(c: Config, s: State, s': State, t: nat, pid: string, now: nat, removed: set<string>, id: string)
    requires PurgeStep(c, s, s', t, pid, now, removed)
    ensures Stamped(s.store, s'.store, None, id)
  {}

  lemma SweptStamps(s: State, st': Store, removed: set<string>, used: Option<nat>, id: string)
    requires Stamped(AfterSweep(s, removed).store, st', used, id)
    ensures Stamped(s.store, st', used, id)
  {}

  lemma PrepareStamps(c: Config, s: State, e: Event, s': State, id: string)
    requires Step(c, s, e, s') && (e.PrepareStart? || e.PrepareFinish?)
    ensures Stamped(s.store, s'.store, UsedAt(s, e, s', id), id)
  {
    if e.PrepareStart? {
      PrepareStartStamps(s, s', e.t, e.session, e.id, e.now, e.removed, id);
    } else {
      PrepareFinishStamps(s, s', e.t, e.now, e.removed, id);
    }
    SweptStamps(s, s'.store, e.removed, UsedAt(s, e, s', id), id);
  }

  lemma AdmittedUse(s: State, e: Event, s': State, id: string)
    requires e.PushStart? || e.CommitStart? || e.Lookup?
    ensures UsedAt(s, e, s', id) == if e.id == id && e.t in s'.tasks then Some(e.now) else None
  {}

  lemma FinishStamps(c: Config, s: State, e: Event, s': State, id: string)
    requires Step(c, s, e, s') && (e.PushFinish? || e.CommitFinish?)
    ensures Stamped(s.store, s'.store, UsedAt(s, e, s', id), id)
  {
    if e.PushFinish? {
      PushFinishStamps(c, s, s', e.t, e.now, id);
    } else {
      CommitFinishStore(c, s, s', e.t, e.now, e.removed);
      SettledStamps(s, s', s.tasks[e.t].phase, e.now, e.removed, id);
    }
  }

  /**
    In every run a session carries the time of the last request that used it: one that was given its id
    by a prepare, let in for a push or a commit, finished either, or found it committed.
   */
  lemma LastUse(c: Config, states: seq<State>, events: seq<Event>, k: nat, id: string)
    requires Run(c, states, events) && k < |events|
    ensures Stamped(states[k].store, states[k + 1].store, UsedAt(states[k], events[k], states[k + 1], id), id)
  {
    assert StepAt(c, states, events, k);
    var s, e, s' := states[k], events[k], states[k + 1];
    if e.PrepareStart? || e.PrepareFinish? {
      PrepareStamps(c, s, e, s', id);
    } else if e.PushStart? {
      AdmittedUse(s, e, s', id);
      PushStamps(c, s, s', e.t, e.id, e.token, e.offset, e.chunk, e.now, e.removed, id);
    } else if e.CommitStart? {
      AdmittedUse(s, e, s', id);
      CommitStamps(c, s, s', e.t, e.id, e.artifactDigest, e.size, e.manifestDigest, e.now, e.removed, id);
    } else if e.Lookup? {
      AdmittedUse(s, e, s', id);
      LookupStamps(c, s, s', e.t, e.id, e.now, e.removed, id);
    } else if e.PushFinish? || e.CommitFinish? {
      FinishStamps(c, s, e, s', id);
    } else if e.Purge? {
      PurgeStamps(c, s, s', e.t, e.id, e.now, e.removed, id);
    } else {
      UnsweptLive(c, s, e, s');
    }
  }

  // ---- Configured limits ----

  /** What a request under way may carry. */
  predicate TaskLimited(c: Config, p: Phase) {
    match p
    case Creating(_, x) => x.size <= c.maxArtifact
    case Created(_, x) => x.size <= c.maxArtifact
    case Writing(_, _, chunk, _) => |chunk| <= c.maxChunk
    case Written(_, _, chunk, _) => |chunk| <= c.maxChunk
    case _ => true
  }

  lemma PrepareStartLimits(s: State, s': State, t: nat, x: Session, id: string, now: nat, removed: set<string>)
    requires PrepareStartSection(s, s', t, x, id, now, removed)
    ensures s'.tasks == s.tasks[t := s'.tasks[t]]
    ensures s'.tasks[t].phase == Cleaning || s'.tasks[t].phase == Creating(id, x)
  {}

  lemma PrepareFinishLimits(s: State, s': State, t: nat, now: nat, removed: set<string>)
    requires t in s.tasks && s.tasks[t].phase.Created? && PrepareFinishSection(s, s', t, now, removed)
    ensures s'.tasks == s.tasks[t := s'.tasks[t]] && s'.tasks[t].phase == Cleaning
    ensures forall id | id in s'.store.sessions && id !in s.store.sessions ::
      id == s.tasks[t].phase.id && s'.store.sessions[id].size == s.tasks[t].phase.session.size
  {}

  lemma PushStartLimits(c: Config, s: State, s': State, t: nat, id: string, token: string, offset: nat,
                        chunk: seq<Byte>, now: nat, removed: set<string>)
    requires PushStartSection(c, s, s', t, id, token, offset, chunk, now, removed)
    ensures s'.tasks == s.tasks ||
      (t in s'.tasks && s'.tasks == s.tasks[t := s'.tasks[t]] && s'.tasks[t].phase == Writing(id, offset, chunk, 0))
  {}

  lemma CommitStartLimits(s: State, s': State, t: nat, id: string, digest: string, size: nat, manifest: string,
                          now: nat, removed: set<string>)
    requires CommitStartSection(s, s', t, id, digest, size, manifest, now, removed)
    ensures s'.tasks == s.tasks ||
      (t in s'.tasks && s'.tasks == s.tasks[t := s'.tasks[t]] && s'.tasks[t].phase.Reading?)
  {}

  lemma CommitFinishLimits(c: Config, s: State, s': State, t: nat, now: nat, removed: set<string>, u: nat)
    requires CommitFinishStep(c, s, s', t, now, removed) && u in s'.tasks
    ensures u in s.tasks && (s'.tasks[u].phase == s.tasks[u].phase || s'.tasks[u].phase == Cleaning)
  {}

  lemma LookupLimits(c: Config, s: State, s': State, t: nat, id: string, now: nat, removed: set<string>, u: nat)
    requires LookupStep(c, s, s', t, id, now, removed) && u in s'.tasks
    ensures (u in s.tasks && s'.tasks[u] == s.tasks[u]) || s'.tasks[u].phase == Cleaning
  {}

  lemma PurgeLimits(c: Config, s: State, s': State, t: nat, id: string, now: nat, removed: set<string>, u: nat)
    requires PurgeStep(c, s, s', t, id, now, removed) && u in s'.tasks
    ensures (u in s.tasks && s'.tasks[u] == s.tasks[u]) || s'.tasks[u].phase == Cleaning
  {}

  lemma PushFinishLimits(c: Config, s: State, s': State, t: nat, now: nat, u: nat)
    requires PushFinishStep(c, s, s', t, now) && u in s'.tasks
    ensures u in s.tasks && (s'.tasks[u].phase == s.tasks[u].phase || s'.tasks[u].phase == Cleaning)
  {}

  lemma UnlockedLimits(c: Config, s: State, e: Event, s': State, u: nat)
    requires Step(c, s, e, s') && u in s'.tasks && (u in s.tasks ==> TaskLimited(c, s.tasks[u].phase))
    requires e.PrepareFile? || e.PushWrite? || e.PushWritten? || e.CommitRead? || e.CommitDigest? || e.CleanFile?
    ensures TaskLimited(c, s'.tasks[u].phase)
  {}

  lemma PrepareLimits(c: Config, s: State, e: Event, s': State, u: nat)
    requires Step(c, s, e, s') && u in s'.tasks && (u in s.tasks ==> TaskLimited(c, s.tasks[u].phase))
    requires e.PrepareStart? || e.PrepareFinish?
    ensures TaskLimited(c, s'.tasks[u].phase)
  {
    if e.PrepareStart? {
      PrepareStartLimits(AfterSweep(s, e.removed), s', e.t, e.session, e.id, e.now, e.removed);
    } else {
      PrepareFinishLimits(AfterSweep(s, e.removed), s', e.t, e.now, e.removed);
    }
  }

  lemma PushLimits(c: Config, s: State, s': State, t: nat, id: string, token: string, offset: nat, chunk: seq<Byte>,
                   now: nat, removed: set<string>, u: nat)
    requires PushStartStep(c, s, s', t, id, token, offset, chunk, now, removed) && u in s'.tasks
    ensures (u in s.tasks && s'.tasks[u] == s.tasks[u]) || TaskLimited(c, s'.tasks[u].phase)
  {
    PushStartLimits(c, AfterSweep(s, removed), s', t, id, token, offset, chunk, now, removed);
  }

  lemma CommitLimits(c: Config, s: State, s': State, t: nat, id: string, digest: string, size: nat, manifest: string,
                     now: nat, removed: set<string>, u: nat)
    requires CommitStartStep(c, s, s', t, id, digest, size, manifest, now, removed) && u in s'.tasks
    ensures (u in s.tasks && s'.tasks[u] == s.tasks[u]) || s'.tasks[u].phase.Reading?
  {
    CommitStartLimits(AfterSweep(s, removed), s', t, id, digest, size, manifest, now, removed);
  }

  lemma TaskLimitsStep(c: Config, s: State, e: Event, s': State, u: nat)
    requires Step(c, s, e, s') && u in s'.tasks && (u in s.tasks ==> TaskLimited(c, s.tasks[u].phase))
    ensures TaskLimited(c, s'.tasks[u].phase)
  {
    if e.PrepareStart? || e.PrepareFinish? {
      PrepareLimits(c, s, e, s', u);
    } else if e.PushStart? {
      PushLimits(c, s, s', e.t, e.id, e.token, e.offset, e.chunk, e.now, e.removed, u);
    } else if e.CommitStart? {
      CommitLimits(c, s, s', e.t, e.id, e.artifactDigest, e.size, e.manifestDigest, e.now, e.removed, u);
    } else if e.CommitFinish? {
      CommitFinishLimits(c, s, s', e.t, e.now, e.removed, u);
    } else if e.Lookup? {
      LookupLimits(c, s, s', e.t, e.id, e.now, e.removed, u);
    } else if e.Purge? {
      PurgeLimits(c, s, s', e.t, e.id, e.now, e.removed, u);
    } else if e.PushFinish? {
      PushFinishLimits(c, s, s', e.t, e.now, u);
    } else if !e.Pin? && !e.Unpin? {
      UnlockedLimits(c, s, e, s', u);
    }
  }

  /** In every run no push carries more than the chunk limit and no prepare more than the artifact limit. */
  lemma {:induction false} RequestsLimited(c: Config, states: seq<State>, events: seq<Event>, k: nat, t: nat)
    requires Run(c, states, events) && k < |states| && t in states[k].tasks
    ensures TaskLimited(c, states[k].tasks[t].phase)
  {
    if k > 0 {
      if t in states[k - 1].tasks {
        RequestsLimited(c, states, events, k - 1, t);
      }
      RunLimits(c, states, events, k - 1, t);
    }
  }

  lemma RunLimits(c: Config, states: seq<State>, events: seq<Event>, k: nat, t: nat)
    requires Run(c, states, events) && k < |events| && t in states[k + 1].tasks
    requires t in states[k].tasks ==> TaskLimited(c, states[k].tasks[t].phase)
    ensures TaskLimited(c, states[k + 1].tasks[t].phase)
  {
    assert StepAt(c, states, events, k);
    TaskLimitsStep(c, states[k], events[k], states[k + 1], t);
  }

  /** A session appears only by the second section of its prepare, with the announced size. */
  lemma NewSession(c: Config, s: State, e: Event, s': State, id: string)
    requires Step(c, s, e, s') && id in s'.store.sessions && id !in s.store.sessions
    ensures e.PrepareFinish? && e.t in s.tasks && s.tasks[e.t].phase.Created?
    ensures s'.store.sessions[id].size == s.tasks[e.t].phase.session.size
  {
    if e.PrepareFinish? {
      PrepareFinishLimits(AfterSweep(s, e.removed), s', e.t, e.now, e.removed);
    } else {
      NoneAppear(c, s, e, s');
    }
  }

  lemma NoneAppear(c: Config, s: State, e: Event, s': State)
    requires Step(c, s, e, s') && !e.PrepareFinish?
    ensures s'.store.sessions.Keys <= s.store.sessions.Keys
  {
    if e.PrepareStart? {
      PrepareStartLive(AfterSweep(s, e.removed), s', e.t, e.session, e.id, e.now, e.removed);
    } else if e.PushStart? {
      PushStartLive(c, AfterSweep(s, e.removed), s', e.t, e.id, e.token, e.offset, e.chunk, e.now, e.removed);
    } else if e.CommitStart? {
      CommitStartLeaves(c, s, s', e.t, e.id, e.artifactDigest, e.size, e.manifestDigest, e.now, e.removed);
    } else if e.CommitFinish? {
      CommitFinishStore(c, s, s', e.t, e.now, e.removed);
    } else if e.Lookup? {
      LookupLeaves(c, s, s', e.t, e.id, e.now, e.removed);
    } else if e.Purge? {
      PurgeLeaves(c, s, s', e.t, e.id, e.now, e.removed);
    } else if e.PushFinish? {
      PushFinishLive(c, s, s', e.t, e.now);
    } else {
      UnsweptLive(c, s, e, s');
    }
  }

  /** In every run a live session announces at most the artifact limit. */
  lemma {:induction false} SessionsLimited(c: Config, states: seq<State>, events: seq<Event>, k: nat, id: string)
    requires Run(c, states, events) && k < |states| && id in states[k].store.sessions
    ensures states[k].store.sessions[id].size <= c.maxArtifact
  {
    if k > 0 {
      if id in states[k - 1].store.sessions {
        SessionsLimited(c, states, events, k - 1, id);
        SessionHistory(c, states, events, k - 1, k, id);
      } else {
        var t := RunNewSession(c, states, events, k - 1, id);
        RequestsLimited(c, states, events, k - 1, t);
      }
    }
  }

  lemma RunNewSession(c: Config, states: seq<State>, events: seq<Event>, k: nat, id: string) returns (t: nat)
    requires Run(c, states, events) && k < |events|
    requires id in states[k + 1].store.sessions && id !in states[k].store.sessions
    ensures t in states[k].tasks && states[k].tasks[t].phase.Created?
    ensures states[k + 1].store.sessions[id].size == states[k].tasks[t].phase.session.size
  {
    assert StepAt(c, states, events, k);
    NewSession(c, states[k], events[k], states[k + 1], id);
    t := events[k].t;
  }
}
