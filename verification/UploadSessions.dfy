/**
  The in-memory upload session index: every critical section of prepare, push, commit, lookup and
  purge as a function of the store, the session sweep, and the class that performs them in place.
 */
module UploadSessions {
  import opened Wrappers
  import opened Names
  import opened Ranges

  type Byte = b: nat | b < 256

  /** Limits fixed at start-up (each is at least one) and the digest used for artifacts. */
  datatype Config = Config(
    uploadTtl: nat,
    committedTtl: nat,
    maxCommitted: nat,
    maxChunk: nat,
    maxInflight: nat,
    maxArtifact: nat,
    digest: seq<Byte> -> string)

  datatype Session = Session(
    service: string,
    key: string,
    fingerprint: string,
    artifactDigest: string,
    size: nat,
    manifestDigest: string,
    token: string,
    ranges: seq<ByteRange>,
    committed: bool,
    inflight: nat,
    committing: bool,
    updatedAt: nat)

  /** Sessions by deploy id, and deploy ids by idempotency key. */
  datatype Store = Store(sessions: map<string, Session>, idem: map<string, string>)

  datatype StoreError =
    | IdempotencyConflict | NotFound | Unauthorized | CommitInProgress | AlreadyCommitted | OutsideArtifact
    | TooManyInflight | MetadataMismatch | WritesInFlight | Incomplete | DigestMismatch | Disappeared | FileError

  /** What merging keeps of a session's ranges. */
  predicate Tidy(s: Session) {
    0 < s.size && Canonical(s.ranges) && Within(s.ranges, s.size)
  }

  // ---- Session sweep ----

  predicate Idle(s: Session) {
    s.inflight == 0 && !s.committing
  }

  function Age(s: Session, now: nat): nat {
    if now < s.updatedAt then 0 else now - s.updatedAt
  }

  /** Uncommitted sessions nobody is working on that have outlived the upload limit. */
  function Expired(c: Config, st: Store, now: nat): set<string> {
    set id | id in st.sessions && !st.sessions[id].committed && Idle(st.sessions[id]) &&
      Age(st.sessions[id], now) >= c.uploadTtl
  }

  /** Committed, idle and not protected: the sessions the retention limits apply to. */
  function Orphans(st: Store, protected: set<string>): set<string> {
    set id | id in st.sessions && st.sessions[id].committed && Idle(st.sessions[id]) && id !in protected
  }

  function Stale(c: Config, st: Store, now: nat, protected: set<string>): set<string> {
    set id | id in Orphans(st, protected) && Age(st.sessions[id], now) >= c.committedTtl
  }

  function CommittedIn(st: Store, ids: set<string>): set<string> {
    set id | id in st.sessions && st.sessions[id].committed && id in ids
  }

  function Allowed(c: Config, st: Store, protected: set<string>): nat {
    var kept := |CommittedIn(st, protected)|;
    if c.maxCommitted < kept then 0 else c.maxCommitted - kept
  }

  /**
    Which committed sessions a sweep takes: all stale ones, and of the others as many of the least
    recently used as exceed the limit.
   */
  ghost predicate OrphansChosen(c: Config, st: Store, now: nat, protected: set<string>, chosen: set<string>) {
    var recent := Orphans(st, protected) - Stale(c, st, now, protected);
    && Stale(c, st, now, protected) <= chosen <= Orphans(st, protected)
    && |recent - chosen| == (if |recent| < Allowed(c, st, protected) then |recent| else Allowed(c, st, protected))
    && forall a, b | a in recent && b in recent && a in chosen && b !in chosen ::
         st.sessions[a].updatedAt <= st.sessions[b].updatedAt
  }

  /** What one sweep removes: the expired uploads and the chosen committed sessions. */
  ghost predicate SweepRemoves(c: Config, st: Store, now: nat, protected: set<string>, removed: set<string>) {
    Expired(c, st, now) <= removed && OrphansChosen(c, st, now, protected, removed - Expired(c, st, now))
  }

  /** The store without `removed`, keeping just the idempotency entries whose session remains. */
  function Swept(st: Store, removed: set<string>): Store {
    var sessions := st.sessions - removed;
    Store(sessions, map k | k in st.idem && st.idem[k] in sessions :: st.idem[k])
  }

  /** Key `k` leads to a session that carries it. */
  predicate Paired(st: Store, k: string) {
    k in st.idem && st.idem[k] in st.sessions && st.sessions[st.idem[k]].key == k
  }

  /** Dropping expired uploads changes nothing the retention of committed sessions looks at. */
  lemma ExpiryKeepsCommitted(c: Config, st: Store, mid: Store, now: nat, protected: set<string>)
    requires mid.sessions == st.sessions - Expired(c, st, now)
    ensures Orphans(mid, protected) == Orphans(st, protected)
    ensures Stale(c, mid, now, protected) == Stale(c, st, now, protected)
    ensures Allowed(c, mid, protected) == Allowed(c, st, protected)
  {
    assert Orphans(mid, protected) == Orphans(st, protected);
    assert CommittedIn(mid, protected) == CommittedIn(st, protected);
  }

  lemma EvictionChooses(c: Config, st: Store, now: nat, protected: set<string>, evicted: set<string>)
    requires var recent := Orphans(st, protected) - Stale(c, st, now, protected);
             && evicted <= recent
             && |evicted| == (if |recent| > Allowed(c, st, protected) then |recent| - Allowed(c, st, protected) else 0)
             && forall a, b | a in evicted &&
                b in recent - evicted :: st.sessions[a].updatedAt <= st.sessions[b].updatedAt
    ensures OrphansChosen(c, st, now, protected, Stale(c, st, now, protected) + evicted)
  {
    var recent := Orphans(st, protected) - Stale(c, st, now, protected);
    assert recent - (Stale(c, st, now, protected) + evicted) == recent - evicted;
    assert |recent - evicted| == |recent| - |evicted|;
  }

  /** A session that has not been touched for `ttl`. */
  predicate Outlived(x: Session, ttl: nat, now: nat) {
    ttl == 0 || x.updatedAt + ttl <= now
  }

  /** Committed sessions within their age limit that nothing protects and nobody works on. */
  function Evictable(c: Config, st: Store, now: nat, protected: set<string>): set<string> {
    set id | id in st.sessions && st.sessions[id].committed && id !in protected && st.sessions[id].inflight == 0 &&
      !st.sessions[id].committing && !Outlived(st.sessions[id], c.committedTtl, now)
  }

  function ProtectedCommitted(st: Store, protected: set<string>): set<string> {
    set id | id in st.sessions && st.sessions[id].committed && id in protected
  }

  /**
    What a sweep takes.  An upload goes exactly when nobody works on it and it has outlived its limit.
    A committed session stays while somebody works on it or something protects it, and otherwise goes
    when it has outlived its limit.
   */
  lemma SweepTakes(c: Config, st: Store, now: nat, protected: set<string>, removed: set<string>, id: string)
    requires SweepRemoves(c, st, now, protected, removed) && id in st.sessions
    ensures var x := st.sessions[id];
      if !x.committed then id in removed <==> x.inflight == 0 && !x.committing && Outlived(x, c.uploadTtl, now)
      else if x.inflight > 0 || x.committing || id in protected then id !in removed
      else Outlived(x, c.committedTtl, now) ==> id in removed
  {
    var x := st.sessions[id];
    assert id in Expired(c, st, now) <==> !x.committed && Idle(x) && Age(x, now) >= c.uploadTtl;
    assert id in Stale(c, st, now, protected) <==> id in Orphans(st, protected) && Age(x, now) >= c.committedTtl;
  }

  /**
    A committed session within its age limit goes only if there are more committed sessions than the
    limit allows, and not before one touched less recently.
   */
  lemma SweepEvicts(c: Config, st: Store, now: nat, protected: set<string>, removed: set<string>, id: string)
    requires SweepRemoves(c, st, now, protected, removed)
    requires id in removed && id in Evictable(c, st, now, protected)
    ensures |Evictable(c, st, now, protected)| + |ProtectedCommitted(st, protected)| > c.maxCommitted
    ensures forall b | b in Evictable(c, st, now, protected) && b !in removed ::
      st.sessions[id].updatedAt <= st.sessions[b].updatedAt
  {
    var recent, chosen := Evictable(c, st, now, protected), removed - Expired(c, st, now);
    RetentionSets(c, st, now, protected);
    assert id !in Expired(c, st, now);
    assert id in recent && id !in recent - chosen;
    SubsetCardinality(recent - chosen, recent);
  }

  lemma RetentionSets(c: Config, st: Store, now: nat, protected: set<string>)
    ensures Orphans(st, protected) - Stale(c, st, now, protected) == Evictable(c, st, now, protected)
    ensures CommittedIn(st, protected) == ProtectedCommitted(st, protected)
  {}

  /**
    What a sweep leaves: no idle upload past its limit, no idle unprotected committed session past its
    own, and of the protected and the idle committed sessions no more than the limit, unless the
    protected ones alone exceed it.
   */
  lemma SweepBounds(c: Config, st: Store, now: nat, protected: set<string>, removed: set<string>)
    requires SweepRemoves(c, st, now, protected, removed)
    ensures forall id | id in Swept(st, removed).sessions :: InTime(c, st.sessions[id], now, id in protected)
    ensures var left := Swept(st, removed);
      |Evictable(c, left, now, protected)| + |ProtectedCommitted(left, protected)| <=
        if c.maxCommitted < |ProtectedCommitted(st, protected)| then |ProtectedCommitted(st, protected)|
        else c.maxCommitted
  {
    forall id | id in Swept(st, removed).sessions ensures InTime(c, st.sessions[id], now, id in protected) {
      SweepTakes(c, st, now, protected, removed, id);
    }
    RetentionSets(c, st, now, protected);
    SweepLeaves(c, st, now, protected, removed);
  }

  /** Somebody works on the session, it is committed and protected, or it has not outlived its limit. */
  predicate InTime(c: Config, x: Session, now: nat, isProtected: bool) {
    x.inflight == 0 && !x.committing ==>
      if x.committed then isProtected || !Outlived(x, c.committedTtl, now) else !Outlived(x, c.uploadTtl, now)
  }

  lemma SweepLeaves(c: Config, st: Store, now: nat, protected: set<string>, removed: set<string>)
    requires SweepRemoves(c, st, now, protected, removed)
    ensures var left := Swept(st, removed);
      && Evictable(c, left, now, protected) == Evictable(c, st, now, protected) - (removed - Expired(c, st, now))
      && ProtectedCommitted(left, protected) == ProtectedCommitted(st, protected)
  {
    EvictableLeft(c, st, now, protected, removed);
    forall id | id in ProtectedCommitted(st, protected) ensures id !in removed {
      SweepTakes(c, st, now, protected, removed, id);
    }
  }

  lemma EvictableLeft(c: Config, st: Store, now: nat, protected: set<string>, removed: set<string>)
    ensures Evictable(c, Swept(st, removed), now, protected)
         == Evictable(c, st, now, protected) - (removed - Expired(c, st, now))
  {}

  lemma RemovalsCompose<K, V>(m: map<K, V>, a: set<K>, b: set<K>)
    ensures m - a - b == m - (a + b)
  {}

  /** Clearing orphan keys gives the same index whichever dead entries were dropped before. */
  lemma SweptKeys(st: Store, removed: set<string>, idem: map<string, string>)
    requires idem.Keys <= st.idem.Keys && forall k | k in idem :: idem[k] == st.idem[k]
    requires forall k | k in st.idem && k !in idem :: st.idem[k] in removed
    ensures var sessions := st.sessions - removed;
            (map k | k in idem && idem[k] in sessions :: idem[k]) == Swept(st, removed).idem
  {}

  // ---- Critical sections ----

  datatype PrepareReply = Existing(id: string) | Conflict | Absent

  /** Who holds the idempotency key, seen by either section of prepare. */
  function LookupKey(st: Store, key: string, fingerprint: string): PrepareReply {
    if key in st.idem && st.idem[key] in st.sessions then
      if st.sessions[st.idem[key]].fingerprint != fingerprint then Conflict else Existing(st.idem[key])
    else Absent
  }

  function Touched(st: Store, id: string, now: nat): Store
    requires id in st.sessions
  {
    st.(sessions := st.sessions[id := st.sessions[id].(updatedAt := now)])
  }

  function Registered(st: Store, id: string, s: Session, now: nat): Store {
    Store(st.sessions[id := s.(updatedAt := now)], st.idem[s.key := id])
  }

  function PushAdmission(c: Config, st: Store, id: string, token: string, end: nat): Option<StoreError> {
    if id !in st.sessions then Some(NotFound)
    else
      var s := st.sessions[id];
      if s.token != token then Some(Unauthorized)
      else if s.committing then Some(CommitInProgress)
      else if s.committed then Some(AlreadyCommitted)
      else if end > s.size then Some(OutsideArtifact)
      else if s.inflight >= c.maxInflight then Some(TooManyInflight)
      else None
  }

  function PushAdmitted(st: Store, id: string, now: nat): Store
    requires id in st.sessions
  {
    var s := st.sessions[id];
    st.(sessions := st.sessions[id := s.(inflight := s.inflight + 1, updatedAt := now)])
  }

  /** The second section of push: the counter goes down whether or not the write succeeded. */
  function PushSettled(st: Store, id: string, range: ByteRange, ok: bool, now: nat): Store {
    if id !in st.sessions then st
    else
      var s := st.sessions[id];
      var s := s.(inflight := if s.inflight > 0 then s.inflight - 1 else s.inflight);
      var s := if ok then s.(ranges := Merge(s.ranges, range), updatedAt := now) else s;
      st.(sessions := st.sessions[id := s])
  }

  function CommitAdmission(st: Store, id: string, artifactDigest: string, size: nat,
                           manifestDigest: string): Option<StoreError> {
    if id !in st.sessions then Some(NotFound)
    else
      var s := st.sessions[id];
      if artifactDigest != s.artifactDigest || size != s.size ||
        manifestDigest != s.manifestDigest then Some(MetadataMismatch)
      else if s.committing then Some(CommitInProgress)
      else if s.inflight > 0 then Some(WritesInFlight)
      else if !IsComplete(s.ranges, s.size) then Some(Incomplete)
      else None
  }

  function CommitAdmitted(st: Store, id: string, now: nat): Store
    requires id in st.sessions
  {
    st.(sessions := st.sessions[id := st.sessions[id].(committing := true, updatedAt := now)])
  }

  /** The second section of commit, before its sweep; `digest` is `None` when the file could not be read. */
  function CommitSettled(st: Store, id: string, expected: string, digest: Option<string>, now: nat): Store {
    if id !in st.sessions then st
    else
      var s := st.sessions[id].(committing := false, updatedAt := now);
      st.(sessions := st.sessions[id := if digest == Some(expected) then s.(committed := true) else s])
  }

  /** Removes one session regardless of what is in progress on it. */
  function Purged(st: Store, id: string): Store {
    if id !in st.sessions then st
    else
      var key := st.sessions[id].key;
      Store(st.sessions - {id}, if key in st.idem && st.idem[key] == id then st.idem - {key} else st.idem)
  }

  lemma PurgedKeys(st: Store, id: string)
    ensures Purged(st, id).sessions.Keys == st.sessions.Keys - {id}
  {}

  // ---- The store, updated in place ----

  class SessionStore {
    const config: Config
    var sessions: map<string, Session>
    var idem: map<string, string>

    function View(): Store
      reads this
    {
      Store(sessions, idem)
    }

    constructor (c: Config)
      ensures config == c && View() == Store(map[], map[])
    {
      config := c;
      sessions := map[];
      idem := map[];
    }

    method RemoveSession(id: string)
      modifies this
      ensures View() == Purged(old(View()), id)
    {
      if id in sessions {
        var key := sessions[id].key;
        sessions := sessions - {id};
        if key in idem && idem[key] == id {
          idem := idem - {key};
        }
      }
    }

    /**
      Removes the listed sessions, and of the key index exactly the entries that pair a removed session
      with its key.
     */
    method RemoveSessions(ids: set<string>)
      modifies this
      ensures sessions == old(sessions) - ids
      ensures idem == map k | k in old(idem) && !(old(idem)[k] in ids && Paired(old(View()), k)) :: old(idem)[k]
    {
      var todo := ids;
      while todo != {}
        invariant todo <= ids
        invariant sessions == old(sessions) - (ids - todo)
        invariant idem == map k | k in old(idem) &&
                  !(old(idem)[k] in ids - todo && Paired(old(View()), k)) :: old(idem)[k]
        decreases todo
      {
        var id :| id in todo;
        todo := todo - {id};
        RemoveSession(id);
      }
    }

    method ChooseOrphans(now: nat, protected: set<string>) returns (chosen: set<string>)
      ensures OrphansChosen(config, View(), now, protected, chosen)
    {
      var stale := Stale(config, View(), now, protected);
      var recent := Orphans(View(), protected) - stale;
      var allowed := Allowed(config, View(), protected);
      var evicted: set<string> := {};
      if |recent| > allowed {
        evicted := OldestSessions(sessions, recent, |recent| - allowed);
      }
      EvictionChooses(config, View(), now, protected, evicted);
      chosen := stale + evicted;
    }

    method CollectSessionCleanup(now: nat, protected: set<string>) returns (removed: set<string>)
      modifies this
      ensures SweepRemoves(config, old(View()), now, protected, removed)
      ensures View() == Swept(old(View()), removed)
    {
      ghost var st := View();
      var expired := Expired(config, View(), now);
      RemoveSessions(expired);
      ExpiryKeepsCommitted(config, st, View(), now, protected);
      var chosen := ChooseOrphans(now, protected);
      removed := expired + chosen;
      assert removed - expired == chosen;
      RemoveSessions(chosen);
      RemovalsCompose(st.sessions, expired, chosen);
      SweptKeys(st, removed, idem);
      DropOrphanKeys();
    }

    /** Collects the keys whose session is gone and removes them one by one; keys of live sessions keep theirs. */
    method DropOrphanKeys()
      modifies this`idem
      ensures idem == map k | k in old(idem) && old(idem)[k] in sessions :: old(idem)[k]
    {
      var orphans: set<string> := {};
      var keys := idem.Keys;
      while keys != {}
        invariant keys <= idem.Keys && idem == old(idem)
        invariant orphans == set k | k in idem && k !in keys && idem[k] !in sessions
        decreases keys
      {
        var key :| key in keys;
        keys := keys - {key};
        if idem[key] !in sessions {
          orphans := orphans + {key};
        }
      }
      ghost var all := orphans;
      while orphans != {}
        invariant orphans <= all && idem == old(idem) - (all - orphans)
        decreases orphans
      {
        var key :| key in orphans;
        orphans := orphans - {key};
        idem := idem - {key};
      }
    }

    /** Either section of prepare up to its decision: finds the key's session and refreshes it. */
    method ResumeByKey(key: string, fingerprint: string, now: nat) returns (r: PrepareReply)
      modifies this`sessions
      ensures r == LookupKey(old(View()), key, fingerprint)
      ensures View() == if r.Existing? then Touched(old(View()), r.id, now) else old(View())
    {
      if key in idem && idem[key] in sessions {
        var id := idem[key];
        if sessions[id].fingerprint != fingerprint {
          return Conflict;
        }
        sessions := sessions[id := sessions[id].(updatedAt := now)];
        return Existing(id);
      }
      r := Absent;
    }

    /**
      Lookup of a committed artifact for a deploy.  Its own sweep never takes the session it looks for, so
      it finds it exactly when that session was live and committed before, and refreshes it.
     */
    method LookupCommitted(id: string, now: nat, pinned: set<string>)
      returns (found: Result<Session, StoreError>, removed: set<string>)
      modifies this
      ensures SweepRemoves(config, old(View()), now, pinned + {id}, removed)
      ensures found.Ok? <==> id in old(sessions) && old(sessions)[id].committed
      ensures found == Err(NotFound) <==> id !in sessions
      ensures found.Ok? ==> found.value == sessions[id] == old(sessions)[id].(updatedAt := now)
      ensures View() == if found.Ok? then Touched(Swept(old(View()), removed), id, now) else Swept(old(View()), removed)
    {
      ghost var st := View();
      removed := CollectSessionCleanup(now, pinned + {id});
      if id in st.sessions {
        SweepTakes(config, st, now, pinned + {id}, removed, id);
      }
      if id !in sessions {
        return Err(NotFound), removed;
      }
      if !sessions[id].committed {
        return Err(Incomplete), removed;
      }
      sessions := sessions[id := sessions[id].(updatedAt := now)];
      found := Ok(sessions[id]);
    }

    /** Removes one session with its key, whatever is in progress on it. */
    method PurgeDeploySession(id: string, now: nat, pinned: set<string>) returns (removed: set<string>)
      modifies this
      ensures SweepRemoves(config, old(View()), now, pinned + {id}, removed)
      ensures View() == Purged(Swept(old(View()), removed), id)
      ensures id !in sessions && sessions.Keys == old(sessions).Keys - removed - {id}
    {
      removed := CollectSessionCleanup(now, pinned + {id});
      PurgedKeys(View(), id);
      RemoveSession(id);
    }

    method Register(id: string, s: Session, now: nat)
      modifies this
      ensures View() == Registered(old(View()), id, s, now)
    {
      idem := idem[s.key := id];
      sessions := sessions[id := s.(updatedAt := now)];
    }

    /**
      The first section of push.  A chunk is let in exactly when its session is live, the token is the
      session's, no commit is under way or done, it lies inside the artifact and the in-flight limit
      leaves room; it is then counted.  A refusal changes nothing and names the first of these that fails.
     */
    method BeginPush(id: string, token: string, end: nat, now: nat) returns (e: Option<StoreError>)
      modifies this`sessions
      ensures e == PushAdmission(config, old(View()), id, token, end)
      ensures e.None? <==>
        && id in old(sessions) && old(sessions)[id].token == token
        && !old(sessions)[id].committing && !old(sessions)[id].committed
        && end <= old(sessions)[id].size && old(sessions)[id].inflight < config.maxInflight
      ensures e == Some(NotFound) <==> id !in old(sessions)
      ensures e == Some(Unauthorized) <==> id in old(sessions) && old(sessions)[id].token != token
      ensures e == Some(TooManyInflight) ==> id in old(sessions) && old(sessions)[id].inflight >= config.maxInflight
      ensures View() == if e.None? then PushAdmitted(old(View()), id, now) else old(View())
      ensures e.None? ==> 0 < sessions[id].inflight <= config.maxInflight
    {
      if id !in sessions {
        return Some(NotFound);
      }
      var s := sessions[id];
      if s.token != token {
        return Some(Unauthorized);
      }
      if s.committing {
        return Some(CommitInProgress);
      }
      if s.committed {
        return Some(AlreadyCommitted);
      }
      if end > s.size {
        return Some(OutsideArtifact);
      }
      if s.inflight >= config.maxInflight {
        return Some(TooManyInflight);
      }
      sessions := sessions[id := s.(inflight := s.inflight + 1, updatedAt := now)];
      e := None;
    }

    method EndPush(id: string, range: ByteRange, ok: bool, now: nat) returns (next: Result<Option<ByteRange>,
                   StoreError>)
      requires id in sessions ==>
                 Within(sessions[id].ranges, sessions[id].size) && Within([range], sessions[id].size)
      modifies this`sessions
      ensures View() == PushSettled(old(View()), id, range, ok, now)
      ensures next == Err(Disappeared) <==> id !in sessions
      ensures id in sessions ==> (next == Err(FileError) <==> !ok)
      ensures next.Ok? ==>
              && id in sessions
              && (next.value.None? <==> forall x | 0 <= x < sessions[id].size :: Covers(sessions[id].ranges, x))
              && (next.value.Some? ==> FirstGap(sessions[id].ranges, sessions[id].size, next.value.value))
    {
      if id !in sessions {
        return Err(Disappeared);
      }
      var s := sessions[id];
      if s.inflight > 0 {
        s := s.(inflight := s.inflight - 1);
      }
      if !ok {
        sessions := sessions[id := s];
        return Err(FileError);
      }
      var merged := MergeRange(s.ranges, range);
      MergeAddsRange(s.ranges, range, s.size);
      sessions := sessions[id := s.(ranges := merged, updatedAt := now)];
      var gap := NextMissingRange(merged, s.size);
      next := Ok(gap);
    }

    /**
      The first section of commit.  It goes ahead exactly when the caller's metadata are the announced
      ones, no other commit or write is under way and every byte was received; it then excludes writes
      and other commits.  A refusal changes nothing.
     */
    method BeginCommit(id: string, artifactDigest: string, size: nat, manifestDigest: string, now: nat)
      returns (e: Option<StoreError>)
      modifies this`sessions
      ensures e == CommitAdmission(old(View()), id, artifactDigest, size, manifestDigest)
      ensures e.None? <==>
        && id in old(sessions) && !old(sessions)[id].committing && old(sessions)[id].inflight == 0
        && artifactDigest == old(sessions)[id].artifactDigest && size == old(sessions)[id].size
        && manifestDigest == old(sessions)[id].manifestDigest && IsComplete(old(sessions)[id].ranges, size)
      ensures e == Some(NotFound) <==> id !in old(sessions)
      ensures id in old(sessions) && Tidy(old(sessions)[id]) ==>
        && (e.None? ==> forall x | 0 <= x < size :: Covers(old(sessions)[id].ranges, x))
        && (e == Some(Incomplete) ==> exists x :: 0 <= x < size && !Covers(old(sessions)[id].ranges, x))
      ensures View() == if e.None? then CommitAdmitted(old(View()), id, now) else old(View())
      ensures e.None? ==> forall token, end :: PushAdmission(config, View(), id, token, end).Some?
    {
      if id !in sessions {
        return Some(NotFound);
      }
      var s := sessions[id];
      if Tidy(s) {
        CompleteIffCovered(s.ranges, s.size);
      }
      if artifactDigest != s.artifactDigest || size != s.size || manifestDigest != s.manifestDigest {
        return Some(MetadataMismatch);
      }
      if s.committing {
        return Some(CommitInProgress);
      }
      if s.inflight > 0 {
        return Some(WritesInFlight);
      }
      if !IsComplete(s.ranges, s.size) {
        return Some(Incomplete);
      }
      sessions := sessions[id := s.(committing := true, updatedAt := now)];
      e := None;
    }

    method EndCommit(id: string, expected: string, digest: Option<string>, now: nat) returns (e: Option<StoreError>)
      modifies this`sessions
      ensures View() == CommitSettled(old(View()), id, expected, digest, now)
      ensures e.None? <==> id in sessions && digest == Some(expected)
      ensures e.None? ==> sessions[id].committed
    {
      if id !in sessions {
        return Some(Disappeared);
      }
      sessions := sessions[id := sessions[id].(committing := false, updatedAt := now)];
      if digest == None {
        return Some(FileError);
      }
      if digest.value != expected {
        return Some(DigestMismatch);
      }
      sessions := sessions[id := sessions[id].(committed := true)];
      e := None;
    }
  }

  /** The `n` least recently updated of `ids`, as sorting by update time and taking a prefix gives. */
  method OldestSessions(sessions: map<string, Session>, ids: set<string>, n: nat) returns (oldest: set<string>)
    requires ids <= sessions.Keys && n <= |ids|
    ensures oldest <= ids && |oldest| == n
    ensures forall a, b | a in oldest && b in ids - oldest :: sessions[a].updatedAt <= sessions[b].updatedAt
  {
    oldest := {};
    while |oldest| < n
      invariant oldest <= ids && |oldest| <= n
      invariant forall a, b | a in oldest && b in ids - oldest :: sessions[a].updatedAt <= sessions[b].updatedAt
      decreases n - |oldest|
    {
      assert |ids - oldest| == |ids| - |oldest|;
      var next := OldestSession(sessions, ids - oldest);
      oldest := oldest + {next};
    }
  }

  method OldestSession(sessions: map<string, Session>, ids: set<string>) returns (oldest: string)
    requires ids <= sessions.Keys && ids != {}
    ensures oldest in ids && forall b | b in ids :: sessions[oldest].updatedAt <= sessions[b].updatedAt
  {
    oldest :| oldest in ids;
    var todo := ids - {oldest};
    while todo != {}
      invariant todo <= ids && oldest in ids
      invariant forall b | b in ids - todo :: sessions[oldest].updatedAt <= sessions[b].updatedAt
      decreases todo
    {
      var id :| id in todo;
      todo := todo - {id};
      if sessions[id].updatedAt < sessions[oldest].updatedAt {
        oldest := id;
      }
    }
  }
}
