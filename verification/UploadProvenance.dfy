/**
  Where the bytes of an artifact come from: over every run, each acknowledged byte of a live session,
  and so each byte of a committed artifact, is one that some push sent for that place with the
  session's upload token, however pushes interleave and wherever they fail.
 */
module UploadProvenance {
  import opened Wrappers
  import opened Ranges
  import opened UploadSessions
  import opened UploadProtocol
  import opened UploadSafety
  import opened UploadTheorems

  /** Event `e` is a push to session `id` with this token that carries byte `v` for place `b`. */
  predicate Sends(e: Event, id: string, token: string, b: nat, v: Byte) {
    && e.PushStart? && e.id == id && e.token == token
    && e.offset <= b < e.offset + |e.chunk| && e.chunk[b - e.offset] == v
  }

  predicate SentByte(events: seq<Event>, id: string, token: string, b: nat, v: Byte) {
    exists i :: 0 <= i < |events| && Sends(events[i], id, token, b, v)
  }

  /** Byte `b` of the file is there and was sent. */
  predicate Sent(events: seq<Event>, id: string, token: string, b: nat, file: Option<seq<Byte>>) {
    file.Some? && b < |file.value| && SentByte(events, id, token, b, file.value[b])
  }

  /** Some push sent this chunk for `offset`. */
  predicate SentChunk(events: seq<Event>, id: string, token: string, offset: nat, chunk: seq<Byte>) {
    exists i :: 0 <= i < |events| && SendsChunk(events[i], id, token, offset, chunk)
  }

  predicate SendsChunk(e: Event, id: string, token: string, offset: nat, chunk: seq<Byte>) {
    e.PushStart? && e.id == id && e.token == token && e.offset == offset && e.chunk == chunk
  }

  lemma ChunkByte(events: seq<Event>, id: string, token: string, offset: nat, chunk: seq<Byte>, b: nat)
    requires SentChunk(events, id, token, offset, chunk) && offset <= b < offset + |chunk|
    ensures SentByte(events, id, token, b, chunk[b - offset])
  {
    var i :| 0 <= i < |events| && SendsChunk(events[i], id, token, offset, chunk);
    assert Sends(events[i], id, token, b, chunk[b - offset]);
  }

  /** The place was written by a push in phase `p`. */
  predicate Reached(p: Phase, b: nat) {
    || (p.Writing? && p.offset <= b < p.offset + p.written)
    || (p.Written? && p.ok && p.offset <= b < p.offset + |p.chunk|)
  }

  ghost predicate SessionSent(events: seq<Event>, s: State, id: string)
    requires id in s.store.sessions
  {
    forall b: nat | b in Bytes(s.acked, id) :: Sent(events, id, s.store.sessions[id].token, b, FileOf(s.files, id))
  }

  /** What a push between its sections knows, while its session is live. */
  ghost predicate TaskSent(events: seq<Event>, s: State, t: nat)
    requires t in s.tasks
  {
    var p := s.tasks[t].phase;
    (p.Writing? || p.Written?) && p.id in s.store.sessions ==>
      && SentChunk(events, p.id, s.store.sessions[p.id].token, p.offset, p.chunk)
      && forall b: nat | Reached(p, b) :: Sent(events, p.id, s.store.sessions[p.id].token, b, FileOf(s.files, p.id))
  }

  ghost predicate Provenance(events: seq<Event>, s: State) {
    && (forall id {:trigger SessionSent(events, s, id)} | id in s.store.sessions :: SessionSent(events, s, id))
    && (forall t {:trigger TaskSent(events, s, t)} | t in s.tasks :: TaskSent(events, s, t))
  }

  // ---- One more event ----

  lemma SentByteLater(events: seq<Event>, e: Event, id: string, token: string, b: nat, v: Byte)
    requires SentByte(events, id, token, b, v)
    ensures SentByte(events + [e], id, token, b, v)
  {
    var i :| 0 <= i < |events| && Sends(events[i], id, token, b, v);
    assert (events + [e])[i] == events[i];
  }

  lemma SentChunkLater(events: seq<Event>, e: Event, id: string, token: string, offset: nat, chunk: seq<Byte>)
    requires SentChunk(events, id, token, offset, chunk)
    ensures SentChunk(events + [e], id, token, offset, chunk)
  {
    var i :| 0 <= i < |events| && SendsChunk(events[i], id, token, offset, chunk);
    assert (events + [e])[i] == events[i];
  }

  lemma SessionLater(events: seq<Event>, e: Event, s: State, s': State, id: string)
    requires id in s.store.sessions && id in s'.store.sessions && SessionSent(events, s, id)
    requires s'.store.sessions[id].token == s.store.sessions[id].token
    requires Bytes(s'.acked, id) == Bytes(s.acked, id)
    requires forall b: nat | Sent(events, id, s.store.sessions[id].token, b, FileOf(s.files, id)) ::
               Sent(events, id, s.store.sessions[id].token, b, FileOf(s'.files, id))
    ensures SessionSent(events + [e], s', id)
  {
    var token := s.store.sessions[id].token;
    forall b: nat | b in Bytes(s'.acked, id) ensures Sent(events + [e], id, token, b, FileOf(s'.files, id)) {
      assert Sent(events, id, token, b, FileOf(s.files, id));
      SentByteLater(events, e, id, token, b, FileOf(s'.files, id).value[b]);
    }
  }

  lemma TaskLater(events: seq<Event>, e: Event, s: State, s': State, t: nat)
    requires t in s.tasks && t in s'.tasks && s'.tasks[t].phase == s.tasks[t].phase && TaskSent(events, s, t)
    requires var p := s.tasks[t].phase; (p.Writing? || p.Written?) && p.id in s'.store.sessions ==>
      && p.id in s.store.sessions && s'.store.sessions[p.id].token == s.store.sessions[p.id].token
      && forall b: nat | Sent(events, p.id, s.store.sessions[p.id].token, b, FileOf(s.files, p.id)) ::
           Sent(events, p.id, s.store.sessions[p.id].token, b, FileOf(s'.files, p.id))
    ensures TaskSent(events + [e], s', t)
  {
    var p := s.tasks[t].phase;
    if (p.Writing? || p.Written?) && p.id in s'.store.sessions {
      var token := s.store.sessions[p.id].token;
      SentChunkLater(events, e, p.id, token, p.offset, p.chunk);
      forall b: nat | Reached(p, b) ensures Sent(events + [e], p.id, token, b, FileOf(s'.files, p.id)) {
        SentByteLater(events, e, p.id, token, b, FileOf(s'.files, p.id).value[b]);
      }
    }
  }

  // ---- Every step ----

  /** A push in its first section: its chunk counts as sent from now on, and nothing of it is written. */
  lemma StarterSent(events: seq<Event>, e: Event, s': State)
    requires e.PushStart? && e.t in s'.tasks && s'.tasks[e.t].phase == Writing(e.id, e.offset, e.chunk, 0)
    requires e.id in s'.store.sessions && s'.store.sessions[e.id].token == e.token
    ensures TaskSent(events + [e], s', e.t)
  {
    assert (events + [e])[|events|] == e;
    assert SendsChunk(e, e.id, e.token, e.offset, e.chunk);
  }

  lemma PatchedSent(events: seq<Event>, id: string, token: string, file: seq<Byte>, offset: nat, chunk: seq<Byte>,
                    lo: nat, hi: nat, b: nat)
    requires SentChunk(events, id, token, offset, chunk) && lo <= hi <= |chunk| && b < |file|
    requires SentByte(events, id, token, b, file[b]) || offset + lo <= b < offset + hi
    ensures SentByte(events, id, token, b, Patched(file, offset + lo, chunk[lo..hi])[b])
  {
    if offset + lo <= b < offset + hi {
      assert Patched(file, offset + lo, chunk[lo..hi])[b] == chunk[b - offset];
      ChunkByte(events, id, token, offset, chunk, b);
    }
  }

  /** A step of task `t` that does not put it at work on a write; the other tasks stay. */
  ghost predicate WritesNothing(s: State, s': State, t: nat) {
    && (forall u | u in s'.tasks && u != t :: u in s.tasks && s'.tasks[u] == s.tasks[u])
    && (t in s'.tasks ==> !s'.tasks[t].phase.Writing? && !s'.tasks[t].phase.Written?)
  }

  lemma PrepareStartPhases(s: State, s': State, t: nat, session: Session, id: string, now: nat, removed: set<string>)
    requires PrepareStartSection(s, s', t, session, id, now, removed)
    ensures WritesNothing(s, s', t)
  {}

  lemma PrepareFinishPhases(s: State, s': State, t: nat, now: nat, removed: set<string>)
    requires t in s.tasks && s.tasks[t].phase.Created? && PrepareFinishSection(s, s', t, now, removed)
    ensures WritesNothing(s, s', t)
  {}

  lemma CommitFinishPhases(c: Config, s: State, s': State, t: nat, now: nat, removed: set<string>)
    requires CommitFinishStep(c, s, s', t, now, removed)
    ensures WritesNothing(s, s', t)
  {}

  lemma PushStartPhases(c: Config, s: State, s': State, t: nat, id: string, token: string, offset: nat,
                        chunk: seq<Byte>,
                        now: nat, removed: set<string>)
    requires PushStartSection(c, s, s', t, id, token, offset, chunk, now, removed)
    ensures forall u | u in s'.tasks && u != t :: u in s.tasks && s'.tasks[u] == s.tasks[u]
  {}

  lemma CommitStartPhases(s: State, s': State, t: nat, id: string, artifactDigest: string, size: nat,
                          manifestDigest: string, now: nat, removed: set<string>)
    requires t !in s.tasks && CommitStartSection(s, s', t, id, artifactDigest, size, manifestDigest, now, removed)
    ensures WritesNothing(s, s', t)
  {}

  lemma LookupPhases(c: Config, s: State, s': State, t: nat, id: string, now: nat, removed: set<string>)
    requires LookupStep(c, s, s', t, id, now, removed)
    ensures WritesNothing(s, s', t)
  {}

  lemma PurgePhases(c: Config, s: State, s': State, t: nat, id: string, now: nat, removed: set<string>)
    requires PurgeStep(c, s, s', t, id, now, removed)
    ensures WritesNothing(s, s', t)
  {}

  /** How tasks come to be at work on a write. */
  ghost predicate WriterFrom(s: State, e: Event, s': State, t: nat) {
    || (t in s.tasks && t in s'.tasks && s'.tasks[t].phase == s.tasks[t].phase)
    || (e.PushStart? && e.t == t)
    || ((e.PushWrite? || e.PushWritten?) && e.t == t && t in s.tasks && s.tasks[t].phase.Writing?)
  }

  lemma SweepingPhases(c: Config, s: State, e: Event, s': State, t: nat)
    requires Step(c, s, e, s') && t in s'.tasks && (s'.tasks[t].phase.Writing? || s'.tasks[t].phase.Written?)
    requires e.PrepareStart? || e.PrepareFinish? || e.PushStart? || e.CommitStart? || e.CommitFinish? || e.Lookup? ||
             e.Purge?
    ensures WriterFrom(s, e, s', t)
  {
    match e
    case PrepareStart(u, x, id, now, removed) => PrepareStartPhases(AfterSweep(s, removed), s', u, x, id, now, removed);
    case PrepareFinish(u, now, removed) => PrepareFinishPhases(AfterSweep(s, removed), s', u, now, removed);
    case CommitFinish(u, now, removed) => CommitFinishPhases(c, s, s', u, now, removed);
    case PushStart(u, id, token, offset, chunk, now, removed) =>
      PushStartPhases(c, AfterSweep(s, removed), s', u, id, token, offset, chunk, now, removed);
    case CommitStart(u, id, digest, size, manifest, now, removed) =>
      CommitStartPhases(AfterSweep(s, removed), s', u, id, digest, size, manifest, now, removed);
    case Lookup(u, id, now, removed) => LookupPhases(c, s, s', u, id, now, removed);
    case Purge(u, id, now, removed) => PurgePhases(c, s, s', u, id, now, removed);
  }

  lemma PhaseStep(c: Config, s: State, e: Event, s': State, t: nat)
    requires Step(c, s, e, s') && t in s'.tasks && (s'.tasks[t].phase.Writing? || s'.tasks[t].phase.Written?)
    ensures WriterFrom(s, e, s', t)
  {
    if e.PrepareStart? || e.PrepareFinish? || e.PushStart? || e.CommitStart? || e.CommitFinish? || e.Lookup? ||
      e.Purge? {
      SweepingPhases(c, s, e, s', t);
    }
  }

  lemma NewSession(c: Config, s: State, e: Event, s': State, id: string)
    requires Step(c, s, e, s') && id in s'.store.sessions && id !in s.store.sessions
    ensures e.PrepareFinish?
  {
    if e.PrepareStart? || e.PushStart? || e.CommitStart? || e.CommitFinish? || e.Lookup? || e.Purge? {
      SweepingStepFollows(c, s, e, s', id);
      assert false;
    }
  }

  /** A session that enters the store has no acknowledged byte yet. */
  lemma NewSessionEmpty(c: Config, s: State, e: Event, s': State, id: string)
    requires Step(c, s, e, s') && id in s'.store.sessions && id !in s.store.sessions
    ensures Bytes(s'.acked, id) == iset{}
  {
    NewSession(c, s, e, s', id);
    EnteredEmpty(AfterSweep(s, e.removed), s', e.t, e.now, e.removed, id);
  }

  lemma EnteredEmpty(s: State, s': State, t: nat, now: nat, removed: set<string>, id: string)
    requires t in s.tasks && s.tasks[t].phase.Created? && PrepareFinishSection(s, s', t, now, removed)
    requires id in s'.store.sessions && id !in s.store.sessions
    ensures Bytes(s'.acked, id) == iset{}
  {}

  /** A live session's file after a partial write by task `t`. */
  lemma PatchedFileOf(c: Config, s: State, s': State, t: nat, n: nat, id: string)
    requires PushWriteStep(c, s, s', t, n) && id in s.files
    ensures var p := s.tasks[t].phase;
      FileOf(s'.files, id) == Some(if p.id == id then Patched(s.files[id], p.offset + p.written,
        p.chunk[p.written..p.written + n])
                                   else s.files[id])
    ensures s'.store == s.store && s'.acked == s.acked
  {}

  /** Bytes that were sent stay sent bytes under a partial write, which puts down only sent bytes. */
  lemma WriteKeepsSent(c: Config, events: seq<Event>, s: State, s': State, t: nat, n: nat, id: string, b: nat)
    requires PushWriteStep(c, s, s', t, n) && TaskSent(events, s, t) && id in s.store.sessions
    requires Sent(events, id, s.store.sessions[id].token, b, FileOf(s.files, id))
    ensures Sent(events, id, s.store.sessions[id].token, b, FileOf(s'.files, id))
  {
    var p := s.tasks[t].phase;
    PatchedFileOf(c, s, s', t, n, id);
    if p.id == id {
      assert SentChunk(events, id, s.store.sessions[id].token, p.offset, p.chunk);
      PatchSent(events, id, s.store.sessions[id].token, s.files[id], p, n, b);
    }
  }

  lemma PatchSent(events: seq<Event>, id: string, token: string, file: seq<Byte>, p: Phase, n: nat, b: nat)
    requires p.Writing? && p.written + n <= |p.chunk| && SentChunk(events, id, token, p.offset, p.chunk)
    requires Sent(events, id, token, b, Some(file))
    ensures Sent(events, id, token, b, Some(Patched(file, p.offset + p.written, p.chunk[p.written..p.written + n])))
  {
    PatchedSent(events, id, token, file, p.offset, p.chunk, p.written, p.written + n, b);
  }

  lemma SessionStep(c: Config, events: seq<Event>, s: State, e: Event, s': State, id: string)
    requires IdsApart(s.store.sessions.Keys, s.used, s.tasks) && SessionsOk(c, s) && Provenance(events, s)
    requires Step(c, s, e, s') && id in s'.store.sessions
    ensures SessionSent(events + [e], s', id)
  {
    if id !in s.store.sessions {
      NewSessionEmpty(c, s, e, s', id);
    } else {
      assert SessionSent(events, s, id) && SessionOk(c, s, id);
      StepFollows(c, s, e, s', id);
      if e.PushWrite? {
        assert TaskSent(events, s, e.t);
        PatchedFileOf(c, s, s', e.t, e.n, id);
        forall b: nat | Sent(events, id, s.store.sessions[id].token, b, FileOf(s.files, id))
          ensures Sent(events, id, s.store.sessions[id].token, b, FileOf(s'.files, id))
        {
          WriteKeepsSent(c, events, s, s', e.t, e.n, id, b);
        }
        SessionLater(events, e, s, s', id);
      } else if e.PushFinish? {
        assert TaskSent(events, s, e.t);
        FinishedSent(c, events, s, e, s', id);
      } else {
        SessionLater(events, e, s, s', id);
      }
    }
  }

  /** An acknowledgement covers bytes that the push has written. */
  lemma FinishedSent(c: Config, events: seq<Event>, s: State, e: Event, s': State, id: string)
    requires e.PushFinish? && PushFinishStep(c, s, s', e.t, e.now) && id in s.store.sessions && id in s'.store.sessions
    requires SessionSent(events, s, id) && TaskSent(events, s, e.t)
    requires s'.store.sessions[id].token == s.store.sessions[id].token
    ensures SessionSent(events + [e], s', id)
  {
    var p, token := s.tasks[e.t].phase, s.store.sessions[id].token;
    forall b: nat | b in Bytes(s'.acked, id) ensures Sent(events + [e], id, token, b, FileOf(s'.files, id)) {
      assert b in Bytes(s.acked, id) || (p.id == id && Reached(p, b));
      assert Sent(events, id, token, b, FileOf(s.files, id));
      SentByteLater(events, e, id, token, b, FileOf(s.files, id).value[b]);
    }
  }

  /** A push that is let in carries the token of its live session. */
  lemma StarterStep(c: Config, events: seq<Event>, s: State, e: Event, s': State)
    requires Step(c, s, e, s') && e.PushStart? && e.t in s'.tasks
    ensures TaskSent(events + [e], s', e.t)
  {
    StarterAdmitted(c, AfterSweep(s, e.removed), s', e.t, e.id, e.token, e.offset, e.chunk, e.now, e.removed);
    StarterSent(events, e, s');
  }

  lemma StarterAdmitted(c: Config, s: State, s': State, t: nat, id: string, token: string, offset: nat,
                        chunk: seq<Byte>,
                        now: nat, removed: set<string>)
    requires t !in s.tasks && PushStartSection(c, s, s', t, id, token, offset, chunk, now, removed) && t in s'.tasks
    ensures s'.tasks[t].phase == Writing(id, offset, chunk, 0)
    ensures id in s'.store.sessions && s'.store.sessions[id].token == token
  {}

  /** The writing push itself: the bytes it has just put down are its own. */
  lemma WriterStep(c: Config, events: seq<Event>, s: State, e: Event, s': State)
    requires e.PushWrite? && PushWriteStep(c, s, s', e.t, e.n) && TaskSent(events, s, e.t) && TaskOk(c, s, e.t)
    requires s.tasks[e.t].phase.id in s.store.sessions ==> SessionOk(c, s, s.tasks[e.t].phase.id)
    ensures TaskSent(events + [e], s', e.t)
  {
    var p := s.tasks[e.t].phase;
    if p.id in s'.store.sessions {
      var token := s.store.sessions[p.id].token;
      SentChunkLater(events, e, p.id, token, p.offset, p.chunk);
      forall b: nat | Reached(s'.tasks[e.t].phase, b) ensures Sent(events + [e], p.id, token, b,
        FileOf(s'.files, p.id)) {
        WriterByte(c, events, s, s', e.t, e.n, b);
        SentByteLater(events, e, p.id, token, b, FileOf(s'.files, p.id).value[b]);
      }
    }
  }

  lemma WriterByte(c: Config, events: seq<Event>, s: State, s': State, t: nat, n: nat, b: nat)
    requires PushWriteStep(c, s, s', t, n) && TaskSent(events, s, t) && TaskOk(c, s, t)
    requires s.tasks[t].phase.id in s.store.sessions && SessionOk(c, s, s.tasks[t].phase.id)
    requires Reached(s'.tasks[t].phase, b)
    ensures Sent(events, s.tasks[t].phase.id, s.store.sessions[s.tasks[t].phase.id].token, b,
                 FileOf(s'.files, s.tasks[t].phase.id))
  {
    var p := s.tasks[t].phase;
    PatchedFileOf(c, s, s', t, n, p.id);
    assert Reached(p, b) || p.offset + p.written <= b < p.offset + p.written + n;
    PatchedSent(events, p.id, s.store.sessions[p.id].token, s.files[p.id], p.offset, p.chunk, p.written,
      p.written + n, b);
  }

  /** The end of a write: when it succeeds the whole chunk has been put down. */
  lemma WrittenStep(c: Config, events: seq<Event>, s: State, e: Event, s': State)
    requires e.PushWritten? && PushWrittenStep(c, s, s', e.t, e.ok) && TaskSent(events, s, e.t)
    ensures TaskSent(events + [e], s', e.t)
  {
    var p := s.tasks[e.t].phase;
    if p.id in s'.store.sessions {
      var token := s.store.sessions[p.id].token;
      SentChunkLater(events, e, p.id, token, p.offset, p.chunk);
      forall b: nat | Reached(s'.tasks[e.t].phase, b) ensures Sent(events + [e], p.id, token, b,
        FileOf(s'.files, p.id)) {
        assert Reached(p, b);
        SentByteLater(events, e, p.id, token, b, FileOf(s'.files, p.id).value[b]);
      }
    }
  }

  /** A session past creation keeps its token, and bytes of its file that were sent stay or become sent bytes. */
  lemma SentStays(c: Config, events: seq<Event>, s: State, e: Event, s': State, id: string)
    requires IdsApart(s.store.sessions.Keys, s.used, s.tasks) && Taken(s, id) && Step(c, s, e, s') &&
             id in s'.store.sessions
    requires id in s.store.sessions ==> SessionOk(c, s, id)
    requires e.PushWrite? && e.t in s.tasks ==> TaskSent(events, s, e.t)
    ensures id in s.store.sessions && s'.store.sessions[id].token == s.store.sessions[id].token
    ensures forall b: nat | Sent(events, id, s.store.sessions[id].token, b, FileOf(s.files, id)) ::
              Sent(events, id, s.store.sessions[id].token, b, FileOf(s'.files, id))
  {
    StepFollows(c, s, e, s', id);
    if e.PushWrite? {
      forall b: nat | Sent(events, id, s.store.sessions[id].token, b, FileOf(s.files, id))
        ensures Sent(events, id, s.store.sessions[id].token, b, FileOf(s'.files, id))
      {
        WriteKeepsSent(c, events, s, s', e.t, e.n, id, b);
      }
    } else if e.PushFinish? {
      assert s'.files == s.files;
    }
  }

  lemma WorkedOnTaken(s: State, t: nat)
    requires IdsApart(s.store.sessions.Keys, s.used, s.tasks) && t in s.tasks && Working(s.tasks[t].phase)
    ensures Taken(s, s.tasks[t].phase.id)
  {}

  /** A push that does not move sees its session and its bytes stay, or be rewritten with sent bytes. */
  lemma WaitingStep(c: Config, events: seq<Event>, s: State, e: Event, s': State, t: nat)
    requires IdsApart(s.store.sessions.Keys, s.used, s.tasks) && SessionsOk(c, s) && Provenance(events, s)
    requires Step(c, s, e, s') && t in s.tasks && t in s'.tasks && s'.tasks[t].phase == s.tasks[t].phase
    ensures TaskSent(events + [e], s', t)
  {
    var p := s.tasks[t].phase;
    assert TaskSent(events, s, t);
    if e.PushWrite? && e.t in s.tasks {
      assert TaskSent(events, s, e.t);
    }
    if (p.Writing? || p.Written?) && p.id in s'.store.sessions {
      WaitingSession(c, events, s, e, s', t);
    }
    TaskLater(events, e, s, s', t);
  }

  lemma WaitingSession(c: Config, events: seq<Event>, s: State, e: Event, s': State, t: nat)
    requires IdsApart(s.store.sessions.Keys, s.used, s.tasks) && SessionsOk(c, s) && Step(c, s, e, s')
    requires t in s.tasks && Working(s.tasks[t].phase) && s.tasks[t].phase.id in s'.store.sessions
    requires e.PushWrite? && e.t in s.tasks ==> TaskSent(events, s, e.t)
    ensures var id := s.tasks[t].phase.id;
      && id in s.store.sessions && s'.store.sessions[id].token == s.store.sessions[id].token
      && forall b: nat | Sent(events, id, s.store.sessions[id].token, b, FileOf(s.files, id)) ::
           Sent(events, id, s.store.sessions[id].token, b, FileOf(s'.files, id))
  {
    var id := s.tasks[t].phase.id;
    WorkedOnTaken(s, t);
    assert id in s.store.sessions ==> SessionOk(c, s, id);
    SentStays(c, events, s, e, s', id);
  }

  lemma TaskStep(c: Config, events: seq<Event>, s: State, e: Event, s': State, t: nat)
    requires Inv(c, s) && Provenance(events, s) && Step(c, s, e, s') && t in s'.tasks
    ensures TaskSent(events + [e], s', t)
  {
    if s'.tasks[t].phase.Writing? || s'.tasks[t].phase.Written? {
      PhaseStep(c, s, e, s', t);
      if t in s.tasks && s'.tasks[t].phase == s.tasks[t].phase {
        WaitingStep(c, events, s, e, s', t);
      } else if e.PushStart? {
        StarterStep(c, events, s, e, s');
      } else if e.PushWrite? {
        assert TaskSent(events, s, t) && TaskOk(c, s, t);
        assert s.tasks[t].phase.id in s.store.sessions ==> SessionOk(c, s, s.tasks[t].phase.id);
        WriterStep(c, events, s, e, s');
      } else {
        assert TaskSent(events, s, t);
        WrittenStep(c, events, s, e, s');
      }
    }
  }

  lemma {:induction false} RunProvenance(c: Config, states: seq<State>, events: seq<Event>, k: nat)
    requires Run(c, states, events) && k < |states|
    ensures Provenance(events[..k], states[k])
  {
    if k > 0 {
      RunProvenance(c, states, events, k - 1);
      RunInv(c, states, events, k - 1);
      assert events[..k] == events[..k - 1] + [events[k - 1]];
      assert StepAt(c, states, events, k - 1);
      ProvenanceStep(c, events[..k - 1], states[k - 1], events[k - 1], states[k]);
    }
  }

  lemma ProvenanceStep(c: Config, events: seq<Event>, s: State, e: Event, s': State)
    requires Inv(c, s) && Provenance(events, s) && Step(c, s, e, s')
    ensures Provenance(events + [e], s')
  {
    forall id | id in s'.store.sessions ensures SessionSent(events + [e], s', id) {
      SessionStep(c, events, s, e, s', id);
    }
    forall t | t in s'.tasks ensures TaskSent(events + [e], s', t) {
      TaskStep(c, events, s, e, s', t);
    }
  }

  /** Every byte of a committed artifact was sent for its place by an earlier push with the session's token. */
  lemma CommittedBytesWereSent(c: Config, states: seq<State>, events: seq<Event>, k: nat, id: string, b: nat)
    requires Run(c, states, events) && k < |states|
    requires id in states[k].store.sessions && states[k].store.sessions[id].committed &&
             b < states[k].store.sessions[id].size
    ensures id in states[k].files && b < |states[k].files[id]|
    ensures exists i :: 0 <= i < k && i < |events| &&
              Sends(events[i], id, states[k].store.sessions[id].token, b, states[k].files[id][b])
  {
    RunProvenance(c, states, events, k);
    CommittedIsWhole(c, states, events, k, id);
    assert SessionSent(events[..k], states[k], id);
    assert Sent(events[..k], id, states[k].store.sessions[id].token, b, FileOf(states[k].files, id));
    var i :| 0 <= i < k && Sends(events[..k][i], id, states[k].store.sessions[id].token, b, states[k].files[id][b]);
    assert events[..k][i] == events[i];
  }
}
