/**
  The artifact upload protocol as a transition system.  Prepare, push and commit each hold the
  store lock twice with unlocked file work in between, so each is a task that advances by steps:
  one step per critical section, per partial file write, per block read and per file removal.
  Any number of tasks interleave.  The theorems hold in every reachable state.
 */
module UploadProtocol {
  import opened Wrappers
  import opened Ranges
  import opened UploadSessions

  // ---- State ----

  /** Where a task stands between its critical sections. */
  datatype Phase =
    | Creating(id: string, session: Session)
    | Created(id: string, session: Session)
    | Writing(id: string, offset: nat, chunk: seq<Byte>, written: nat)
    | Written(id: string, offset: nat, chunk: seq<Byte>, ok: bool)
    | Reading(id: string, expected: string, acc: seq<Byte>)
    | ReadDone(id: string, expected: string, digest: Option<string>)
    | Cleaning

  /** A task and the session files it has undertaken to delete. */
  datatype Task = Task(phase: Phase, plan: set<string>)

  /**
    The shared store, the session files (named by deploy id), the tasks under way, the pin counts,
    every deploy id ever generated, and for each session the bytes of all acknowledged chunks.
   */
  datatype State = State(
    store: Store,
    files: map<string, seq<Byte>>,
    tasks: map<nat, Task>,
    pins: map<string, nat>,
    used: set<string>,
    acked: map<string, iset<nat>>)

  predicate Init(s: State) {
    s == State(Store(map[], map[]), map[], map[], map[], {}, map[])
  }

  // ---- Steps ----

  /** A step together with every choice made outside the store: time, fresh ids, file outcomes. */
  datatype Event =
    | PrepareStart(t: nat, session: Session, id: string, now: nat, removed: set<string>)
    | PrepareFile(t: nat, ok: bool, leftover: Option<seq<Byte>>)
    | PrepareFinish(t: nat, now: nat, removed: set<string>)
    | PushStart(t: nat, id: string, token: string, offset: nat, chunk: seq<Byte>, now: nat, removed: set<string>)
    | PushWrite(t: nat, n: nat)
    | PushWritten(t: nat, ok: bool)
    | PushFinish(t: nat, now: nat)
    | CommitStart(t: nat, id: string, artifactDigest: string, size: nat, manifestDigest: string, now: nat,
      removed: set<string>)
    | CommitRead(t: nat, n: nat)
    | CommitDigest(t: nat, ok: bool)
    | CommitFinish(t: nat, now: nat, removed: set<string>)
    | Lookup(t: nat, id: string, now: nat, removed: set<string>)
    | Purge(t: nat, id: string, now: nat, removed: set<string>)
    | CleanFile(t: nat, id: string, ok: bool)
    | Pin(id: string)
    | Unpin(id: string)

  function Zeros(n: nat): seq<Byte> {
    seq(n, _ => 0)
  }

  /** The file after `bytes` were written at offset `at`. */
  function Patched(file: seq<Byte>, at: nat, bytes: seq<Byte>): seq<Byte> {
    seq(|file|, i requires 0 <= i < |file| => if at <= i < at + |bytes| then bytes[i - at] else file[i])
  }

  function Without(tasks: map<nat, Task>, t: nat): map<nat, Task> {
    tasks - {t}
  }

  /** A critical section that sweeps may remove `removed`, keeping pinned sessions and those in `keep`. */
  ghost predicate Sweeps(c: Config, s: State, now: nat, keep: set<string>, removed: set<string>) {
    SweepRemoves(c, s.store, now, s.pins.Keys + keep, removed)
  }

  function AfterSweep(s: State, removed: set<string>): State {
    s.(store := Swept(s.store, removed))
  }

  ghost predicate PrepareStartStep(c: Config, s: State, s': State, t: nat, session: Session, id: string, now: nat,
                                   removed: set<string>)
  {
    && t !in s.tasks && id !in s.used && FreshSession(session) && session.size <= c.maxArtifact
    && Sweeps(c, s, now, {}, removed)
    && PrepareStartSection(AfterSweep(s, removed), s', t, session, id, now, removed)
  }

  ghost predicate PrepareStartSection(s: State, s': State, t: nat, session: Session, id: string, now: nat,
                                      removed: set<string>)
  {
    match LookupKey(s.store, session.key, session.fingerprint)
    case Existing(holder) =>
      s' == s.(store := Touched(s.store, holder, now), tasks := s.tasks[t := Task(Cleaning, removed)])
    case Conflict =>
      s' == s.(tasks := s.tasks[t := Task(Cleaning, removed)])
    case Absent =>
      s' == s.(used := s.used + {id}, tasks := s.tasks[t := Task(Creating(id, session), removed)])
  }

  ghost predicate PrepareFileStep(c: Config, s: State, s': State, t: nat, ok: bool, leftover: Option<seq<Byte>>)
  {
    && t in s.tasks && s.tasks[t].phase.Creating?
    && var task := s.tasks[t];
       if ok then
         s' == s.(files := s.files[task.phase.id := Zeros(task.phase.session.size)],
                  tasks := s.tasks[t := task.(phase := Created(task.phase.id, task.phase.session))])
       else
         s' == s.(files := if leftover.Some? then s.files[task.phase.id := leftover.value] else s.files,
                  tasks := s.tasks[t := task.(phase := Cleaning)])
  }

  ghost predicate PrepareFinishStep(c: Config, s: State, s': State, t: nat, now: nat, removed: set<string>)
  {
    && t in s.tasks && s.tasks[t].phase.Created?
    && Sweeps(c, s, now, {}, removed)
    && PrepareFinishSection(AfterSweep(s, removed), s', t, now, removed)
  }

  /** The loser of a race adds its own file to its cleanup plan. */
  ghost predicate PrepareFinishSection(s: State, s': State, t: nat, now: nat, removed: set<string>)
    requires t in s.tasks && s.tasks[t].phase.Created?
  {
    var id, session, plan := s.tasks[t].phase.id, s.tasks[t].phase.session, s.tasks[t].plan + removed;
    match LookupKey(s.store, session.key, session.fingerprint)
    case Existing(holder) =>
      s' == s.(store := Touched(s.store, holder, now), tasks := s.tasks[t := Task(Cleaning, plan + {id})])
    case Conflict =>
      s' == s.(tasks := s.tasks[t := Task(Cleaning, plan + {id})])
    case Absent =>
      s' == s.(store := Registered(s.store, id, session, now), acked := s.acked[id := iset{}],
               tasks := s.tasks[t := Task(Cleaning, plan)])
  }

  ghost predicate PushStartStep(c: Config, s: State, s': State, t: nat, id: string, token: string, offset: nat,
                                chunk: seq<Byte>, now: nat, removed: set<string>)
  {
    && t !in s.tasks && |chunk| <= c.maxChunk && offset + |chunk| <= U64_MAX
    && Sweeps(c, s, now, {}, removed)
    && PushStartSection(c, AfterSweep(s, removed), s', t, id, token, offset, chunk, now, removed)
  }

  /** A refused push returns at once and leaves the swept files to nobody. */
  ghost predicate PushStartSection(c: Config, s: State, s': State, t: nat, id: string, token: string, offset: nat,
                                   chunk: seq<Byte>, now: nat, removed: set<string>)
  {
    if PushAdmission(c, s.store, id, token, offset + |chunk|).Some? then s' == s
    else s' == s.(store := PushAdmitted(s.store, id, now),
                  tasks := s.tasks[t := Task(Writing(id, offset, chunk, 0), removed)])
  }

  /** The next `n` bytes of the chunk reach the file; writes to a deleted file are seen by nobody. */
  ghost predicate PushWriteStep(c: Config, s: State, s': State, t: nat, n: nat)
  {
    && t in s.tasks && s.tasks[t].phase.Writing?
    && var p := s.tasks[t].phase;
       && p.written + n <= |p.chunk|
       && s' == PatchedFile(s, p.id, p.offset + p.written, p.chunk[p.written..p.written + n])
                .(tasks := s.tasks[t := s.tasks[t].(phase := p.(written := p.written + n))])
  }

  function PatchedFile(s: State, id: string, at: nat, bytes: seq<Byte>): State {
    if id in s.files then s.(files := s.files[id := Patched(s.files[id], at, bytes)]) else s
  }

  /** The write succeeds only after the whole chunk; it may fail at any point. */
  ghost predicate PushWrittenStep(c: Config, s: State, s': State, t: nat, ok: bool)
  {
    && t in s.tasks && s.tasks[t].phase.Writing?
    && var p := s.tasks[t].phase;
       && (ok ==> p.written == |p.chunk|)
       && s' == s.(tasks := s.tasks[t := s.tasks[t].(phase := Written(p.id, p.offset, p.chunk, ok))])
  }

  ghost predicate PushFinishStep(c: Config, s: State, s': State, t: nat, now: nat)
  {
    && t in s.tasks && s.tasks[t].phase.Written?
    && var p := s.tasks[t].phase;
       var range := RangeFromStartEnd(p.offset, p.offset + |p.chunk|);
       var st := PushSettled(s.store, p.id, range, p.ok, now);
       if p.id !in s.store.sessions then s' == s.(tasks := Without(s.tasks, t))
       else if !p.ok then s' == s.(store := st, tasks := Without(s.tasks, t))
       else s' == s.(store := st, tasks := s.tasks[t := s.tasks[t].(phase := Cleaning)],
                     acked := s.acked[p.id := Bytes(s.acked, p.id) + Span(p.offset, |p.chunk|)])
  }

  ghost predicate CommitStartStep(c: Config, s: State, s': State, t: nat, id: string, artifactDigest: string,
                                  size: nat, manifestDigest: string, now: nat, removed: set<string>)
  {
    && t !in s.tasks && Sweeps(c, s, now, {}, removed)
    && CommitStartSection(AfterSweep(s, removed), s', t, id, artifactDigest, size, manifestDigest, now, removed)
  }

  ghost predicate CommitStartSection(s: State, s': State, t: nat, id: string, artifactDigest: string, size: nat,
                                     manifestDigest: string, now: nat, removed: set<string>)
  {
    if CommitAdmission(s.store, id, artifactDigest, size, manifestDigest).Some? then s' == s
    else s' == s.(store := CommitAdmitted(s.store, id, now),
                  tasks := s.tasks[t := Task(Reading(id, s.store.sessions[id].artifactDigest, []), removed)])
  }

  ghost predicate CommitReadStep(c: Config, s: State, s': State, t: nat, n: nat)
  {
    && t in s.tasks && s.tasks[t].phase.Reading? && s.tasks[t].phase.id in s.files
    && var p := s.tasks[t].phase;
       && |p.acc| + n <= |s.files[p.id]|
       && s' == s.(tasks := s.tasks[t := s.tasks[t].(phase := p.(acc := p.acc + s.files[p.id][|p.acc|..|p.acc| + n]))])
  }

  ghost predicate CommitDigestStep(c: Config, s: State, s': State, t: nat, ok: bool)
  {
    && t in s.tasks && s.tasks[t].phase.Reading?
    && var p := s.tasks[t].phase;
       && (ok ==> p.id in s.files && |p.acc| == |s.files[p.id]|)
       && var digest := if ok then Some(c.digest(p.acc)) else None;
          s' == s.(tasks := s.tasks[t := s.tasks[t].(phase := ReadDone(p.id, p.expected, digest))])
  }

  ghost predicate CommitFinishStep(c: Config, s: State, s': State, t: nat, now: nat, removed: set<string>)
  {
    && t in s.tasks && s.tasks[t].phase.ReadDone?
    && var p := s.tasks[t].phase;
       var settled := s.(store := CommitSettled(s.store, p.id, p.expected, p.digest, now));
       if p.id !in s.store.sessions || p.digest != Some(p.expected) then
         s' == settled.(tasks := Without(s.tasks, t))
       else
         && Sweeps(c, settled, now, {p.id}, removed)
         && s' == AfterSweep(settled, removed).(tasks := s.tasks[t := Task(Cleaning, s.tasks[t].plan + removed)])
  }

  /** Lookup of a committed artifact; a refused lookup returns without cleaning up. */
  ghost predicate LookupStep(c: Config, s: State, s': State, t: nat, id: string, now: nat, removed: set<string>)
  {
    && t !in s.tasks && Sweeps(c, s, now, {id}, removed)
    && var swept := AfterSweep(s, removed);
       if id in swept.store.sessions && swept.store.sessions[id].committed then
         s' == swept.(store := Touched(swept.store, id, now), tasks := s.tasks[t := Task(Cleaning, removed)])
       else s' == swept
  }

  ghost predicate PurgeStep(c: Config, s: State, s': State, t: nat, id: string, now: nat, removed: set<string>)
  {
    && t !in s.tasks && Sweeps(c, s, now, {id}, removed)
    && var swept := AfterSweep(s, removed);
       s' == swept.(store := Purged(swept.store, id),
                    tasks := s.tasks[t := Task(Cleaning, removed + if id in swept.store.sessions then {id} else {})])
  }

  ghost predicate CleanFileStep(c: Config, s: State, s': State, t: nat, id: string, ok: bool)
  {
    && t in s.tasks && s.tasks[t].phase.Cleaning?
    && if s.tasks[t].plan == {} then s' == s.(tasks := Without(s.tasks, t))
       else
         && id in s.tasks[t].plan
         && s' == s.(files := if ok then s.files - {id} else s.files,
                     tasks := s.tasks[t := s.tasks[t].(plan := s.tasks[t].plan - {id})])
  }

  ghost predicate PinStep(c: Config, s: State, s': State, id: string)
  {
    s' == s.(pins := s.pins[id := (if id in s.pins then s.pins[id] else 0) + 1])
  }

  ghost predicate UnpinStep(c: Config, s: State, s': State, id: string)
  {
    && id in s.pins
    && s' == s.(pins := if s.pins[id] <= 1 then s.pins - {id} else s.pins[id := s.pins[id] - 1])
  }

  ghost predicate Step(c: Config, s: State, e: Event, s': State) {
    match e
    case PrepareStart(t, session, id, now, removed) => PrepareStartStep(c, s, s', t, session, id, now, removed)
    case PrepareFile(t, ok, leftover) => PrepareFileStep(c, s, s', t, ok, leftover)
    case PrepareFinish(t, now, removed) => PrepareFinishStep(c, s, s', t, now, removed)
    case PushStart(t, id, token, offset, chunk, now, removed) =>
      PushStartStep(c, s, s', t, id, token, offset, chunk, now, removed)
    case PushWrite(t, n) => PushWriteStep(c, s, s', t, n)
    case PushWritten(t, ok) => PushWrittenStep(c, s, s', t, ok)
    case PushFinish(t, now) => PushFinishStep(c, s, s', t, now)
    case CommitStart(t, id, artifactDigest, size, manifestDigest, now, removed) =>
      CommitStartStep(c, s, s', t, id, artifactDigest, size, manifestDigest, now, removed)
    case CommitRead(t, n) => CommitReadStep(c, s, s', t, n)
    case CommitDigest(t, ok) => CommitDigestStep(c, s, s', t, ok)
    case CommitFinish(t, now, removed) => CommitFinishStep(c, s, s', t, now, removed)
    case Lookup(t, id, now, removed) => LookupStep(c, s, s', t, id, now, removed)
    case Purge(t, id, now, removed) => PurgeStep(c, s, s', t, id, now, removed)
    case CleanFile(t, id, ok) => CleanFileStep(c, s, s', t, id, ok)
    case Pin(id) => PinStep(c, s, s', id)
    case Unpin(id) => UnpinStep(c, s, s', id)
  }

  predicate InSpan(offset: nat, length: nat, b: nat) {
    offset <= b < offset + length
  }

  ghost function Span(offset: nat, length: nat): iset<nat> {
    iset b: nat | InSpan(offset, length, b)
  }

  function Bytes(acked: map<string, iset<nat>>, id: string): iset<nat> {
    if id in acked then acked[id] else iset{}
  }

  // ---- Invariant ----

  predicate WritesTo(p: Phase, id: string) {
    (p.Writing? || p.Written?) && p.id == id
  }

  predicate CommitsTo(p: Phase, id: string) {
    (p.Reading? || p.ReadDone?) && p.id == id
  }

  /** Push tasks between their two critical sections. */
  function Writers(tasks: map<nat, Task>, id: string): set<nat> {
    set t | t in tasks && WritesTo(tasks[t].phase, id)
  }

  /** Commit tasks between their two critical sections. */
  function Committers(tasks: map<nat, Task>, id: string): set<nat> {
    set t | t in tasks && CommitsTo(tasks[t].phase, id)
  }

  lemma TaskSet(tasks: map<nat, Task>, t: nat, task: Task, id: string)
    ensures Writers(tasks[t := task], id)
         == if WritesTo(task.phase, id) then Writers(tasks, id) + {t} else Writers(tasks, id) - {t}
    ensures Committers(tasks[t := task], id)
         == if CommitsTo(task.phase, id) then Committers(tasks, id) + {t} else Committers(tasks, id) - {t}
    ensures Writers(Without(tasks, t), id) == Writers(tasks, id) - {t}
    ensures Committers(Without(tasks, t), id) == Committers(tasks, id) - {t}
    ensures t !in tasks ==> t !in Writers(tasks, id) && t !in Committers(tasks, id)
  {}

  predicate Candidate(p: Phase) {
    p.Creating? || p.Created?
  }

  /** A task past its first section that works on a session file. */
  predicate Working(p: Phase) {
    !Candidate(p) && !p.Cleaning?
  }

  /** Deploy ids are never reused: live ids, ids of sessions still being created and doomed ids stay apart. */
  ghost predicate IdsApart(live: set<string>, used: set<string>, tasks: map<nat, Task>) {
    && live <= used
    && (forall t | t in tasks :: tasks[t].plan <= used && tasks[t].plan !! live)
    && (forall t | t in tasks && !tasks[t].phase.Cleaning? :: tasks[t].phase.id in used)
    && (forall t | t in tasks && Candidate(tasks[t].phase) :: tasks[t].phase.id !in live)
    && (forall t, u | t in tasks && u in tasks && Candidate(tasks[t].phase) :: tasks[t].phase.id !in tasks[u].plan)
    && (forall t, u | t in tasks && u in tasks && t != u && Candidate(tasks[t].phase) && !tasks[u].phase.Cleaning? ::
          tasks[t].phase.id != tasks[u].phase.id)
  }

  /** The key index and the sessions mirror each other. */
  predicate KeysMirror(st: Store) {
    && (forall id | id in st.sessions :: st.sessions[id].key in st.idem && st.idem[st.sessions[id].key] == id)
    && (forall k | k in st.idem :: st.idem[k] in st.sessions && st.sessions[st.idem[k]].key == k)
  }

  function FileOf(files: map<string, seq<Byte>>, id: string): Option<seq<Byte>> {
    if id in files then Some(files[id]) else None
  }

  /** What holds of a live session, given the tasks working on it, its acknowledged bytes and its file. */
  ghost predicate SessionHolds(c: Config, x: Session, writers: set<nat>, committers: set<nat>, bytes: iset<nat>,
                               file: Option<seq<Byte>>) {
    && x.inflight == |writers| && x.inflight <= c.maxInflight
    && (x.committing <==> committers != {}) && |committers| <= 1
    && (x.committing || x.committed ==> x.inflight == 0 && IsComplete(x.ranges, x.size))
    && 0 < x.size && Canonical(x.ranges) && Within(x.ranges, x.size)
    && (forall b: nat :: b in bytes <==> Covers(x.ranges, b))
    && file.Some? && |file.value| == x.size
    && (x.committed ==> c.digest(file.value) == x.artifactDigest)
  }

  /** The session without its time stamp, which the invariant does not depend on. */
  function Core(x: Session): Session {
    x.(updatedAt := 0)
  }

  ghost predicate SessionOk(c: Config, s: State, id: string)
    requires id in s.store.sessions
  {
    SessionHolds(c, Core(s.store.sessions[id]), Writers(s.tasks, id), Committers(s.tasks, id), Bytes(s.acked, id),
      FileOf(s.files, id))
  }

  /** The digest and size a live session was announced with. */
  function Announced(st: Store, id: string): Option<(string, nat)> {
    if id in st.sessions then Some((st.sessions[id].artifactDigest, st.sessions[id].size)) else None
  }

  /** What holds of a task, given the announced session and the file it works on. */
  ghost predicate TaskHolds(c: Config, p: Phase, announced: Option<(string, nat)>, file: Option<seq<Byte>>) {
    match p
    case Creating(_, x) => FreshSession(x)
    case Created(_, x) => FreshSession(x) && file.Some? && |file.value| == x.size
    case Writing(_, offset, chunk, written) =>
      written <= |chunk| && (announced.Some? ==> offset + |chunk| <= announced.value.1)
    case Written(_, offset, chunk, _) => announced.Some? ==> offset + |chunk| <= announced.value.1
    case Reading(_, expected, acc) =>
      announced.Some? ==> expected == announced.value.0 && file.Some? && acc <= file.value
    case ReadDone(_, expected, digest) =>
      announced.Some? ==>
        expected == announced.value.0 && file.Some? && (digest.Some? ==> digest.value == c.digest(file.value))
    case Cleaning => true
  }

  predicate FreshSession(x: Session) {
    0 < x.size <= U64_MAX && x.ranges == [] && !x.committed && x.inflight == 0 && !x.committing
  }

  ghost predicate TaskOk(c: Config, s: State, t: nat)
    requires t in s.tasks
  {
    var p := s.tasks[t].phase;
    p.Cleaning? || TaskHolds(c, p, Announced(s.store, p.id), FileOf(s.files, p.id))
  }

  ghost predicate SessionsOk(c: Config, s: State) {
    forall id {:trigger SessionOk(c, s, id)} | id in s.store.sessions :: SessionOk(c, s, id)
  }

  ghost predicate TasksOk(c: Config, s: State) {
    forall t {:trigger TaskOk(c, s, t)} | t in s.tasks :: TaskOk(c, s, t)
  }

  ghost predicate Inv(c: Config, s: State) {
    && IdsApart(s.store.sessions.Keys, s.used, s.tasks)
    && KeysMirror(s.store)
    && SessionsOk(c, s)
    && TasksOk(c, s)
  }
}
