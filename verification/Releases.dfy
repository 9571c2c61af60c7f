/**
  Deploying releases of one service.  The command gate lets one deploy at a time touch a service's
  directory, so the state is that directory and the deploy under way, and a step is one file system
  operation, which may fail.  Other requests can look between any two steps.
 */
module Releases {
  import opened Wrappers

  /** Release directories by name with their content, the active release file and the restart policy file. */
  datatype Root = Root(dirs: map<string, string>, active: Option<string>, policy: Option<string>)

  datatype Request = Request(hash: string, content: string, expected: string, policy: string, autoRollback: bool)

  /** The next thing a deploy does. */
  datatype Pc =
    | Promote
    | SwapIn(backup: string)
    | RestoreBackup(backup: string)
    | DropBackup(backup: string)
    | Cleanup
    | BuildLaunch
    | Replace
    | WriteActive
    | WritePolicy
    | RollbackActive
    | RollbackPolicy
    | RollbackStart

  /** A deploy under way: its request and the directory as it found it. */
  datatype Deploy = Deploy(req: Request, found: Root, pc: Pc)

  datatype State = State(root: Root, deploy: Option<Deploy>)

  /** A step with the outcome of its file operation; `left` is what a failed one leaves behind. */
  datatype Event =
    | Begin(req: Request)
    | Io(ok: bool, name: string, left: Option<string>)
    | CleanupDone
    | Abandon
    | Elsewhere

  // ---- Preconditions ----

  predicate SupportedPolicy(policy: string) {
    policy == "never" || policy == "on-failure" || policy == "always" || policy == "unless-stopped"
  }

  /** The compare half of the deploy's compare-and-set. */
  predicate Accepts(req: Request, active: Option<string>) {
    && SupportedPolicy(req.policy)
    && (req.expected == "any" || req.expected == if active.Some? then active.value else "none")
  }

  // ---- File operations ----

  function Renamed(root: Root, from: string, to: string): Root
    requires from in root.dirs
  {
    root.(dirs := (root.dirs - {from})[to := root.dirs[from]])
  }

  /** Removes a directory; a failed removal may leave some of it. */
  function Removed(root: Root, name: string, ok: bool, left: Option<string>): Root {
    root.(dirs := if ok || left.None? then root.dirs - {name} else root.dirs[name := left.value])
  }

  /** Releases that survive a cleanup. */
  function Kept(d: Deploy): set<string> {
    {d.req.hash} + if d.found.active.Some? then {d.found.active.value} else {}
  }

  /** A backup name is new and is nobody's release. */
  predicate NewName(s: State, d: Deploy, name: string) {
    name !in s.root.dirs && name !in Kept(d)
  }

  // ---- Steps ----

  function At(root: Root, d: Deploy, pc: Pc): State {
    State(root, Some(d.(pc := pc)))
  }

  function Ended(root: Root): State {
    State(root, None)
  }

  /** Moving the staged release into place. */
  ghost predicate PromoteStep(s: State, d: Deploy, ok: bool, name: string, left: Option<string>, s': State) {
    var hash := d.req.hash;
    match d.pc
    case Promote =>
      if hash !in s.root.dirs then
        if ok then s' == At(s.root.(dirs := s.root.dirs[hash := d.req.content]), d, Cleanup) else s' == Ended(s.root)
      else if ok then NewName(s, d, name) && s' == At(Renamed(s.root, hash, name), d, SwapIn(name))
      else s' == Ended(s.root)
    case SwapIn(backup) =>
      if ok then s' == At(s.root.(dirs := s.root.dirs[hash := d.req.content]), d, DropBackup(backup))
      else s' == At(s.root, d, RestoreBackup(backup))
    case RestoreBackup(backup) =>
      s' == if ok && backup in s.root.dirs then Ended(Renamed(s.root, backup, hash)) else Ended(s.root)
    case DropBackup(backup) =>
      s' == if ok then At(Removed(s.root, backup, ok, left), d, Cleanup) else Ended(Removed(s.root, backup, ok, left))
    case _ => false
  }

  /** Dropping old releases, then stopping the running service and starting the new one. */
  ghost predicate ReplaceStep(s: State, d: Deploy, ok: bool, name: string, left: Option<string>, s': State) {
    match d.pc
    case Cleanup =>
      && name in s.root.dirs && name !in Kept(d)
      && s' == if ok then At(Removed(s.root, name, ok, left), d, Cleanup) else Ended(Removed(s.root, name, ok, left))
    case BuildLaunch => s' == if ok then At(s.root, d, Replace) else Ended(s.root)
    case Replace =>
      s' == if ok then At(s.root, d, WriteActive)
            else if d.req.autoRollback && d.found.active.Some? then At(s.root, d, RollbackActive)
            else Ended(s.root)
    case _ => false
  }

  /** Recording the outcome; a failed write leaves the file with whatever `left` says. */
  ghost predicate RecordStep(s: State, d: Deploy, ok: bool, left: Option<string>, s': State) {
    match d.pc
    case WriteActive =>
      s' == if ok then At(s.root.(active := Some(d.req.hash)), d, WritePolicy) else Ended(s.root.(active := left))
    case WritePolicy => s' == Ended(s.root.(policy := if ok then Some(d.req.policy) else left))
    case RollbackActive =>
      s' == if ok then At(s.root.(active := d.found.active), d, RollbackPolicy) else Ended(s.root.(active := left))
    case RollbackPolicy =>
      s' == if ok then At(s.root.(policy := d.found.policy), d, RollbackStart) else Ended(s.root.(policy := left))
    case RollbackStart => s' == Ended(s.root)
    case _ => false
  }

  ghost predicate Step(s: State, e: Event, s': State) {
    match e
    case Begin(req) =>
      && s.deploy.None? && Accepts(req, s.root.active) && (s.root.policy.Some? ==> SupportedPolicy(s.root.policy.value))
      && s' == State(s.root, Some(Deploy(req, s.root, Promote)))
    case CleanupDone =>
      && s.deploy.Some? && s.deploy.value.pc.Cleanup? && s.root.dirs.Keys <= Kept(s.deploy.value)
      && s' == At(s.root, s.deploy.value, BuildLaunch)
    case Abandon => s' == Ended(s.root)
    case Elsewhere => s' == s
    case Io(ok, name, left) =>
      && s.deploy.Some?
      && var d := s.deploy.value;
         || PromoteStep(s, d, ok, name, left, s')
         || ReplaceStep(s, d, ok, name, left, s')
         || RecordStep(s, d, ok, left, s')
  }

  predicate Init(s: State) {
    s == State(Root(map[], None, None), None)
  }

  /** `states` is a run of `events` from an empty service directory. */
  ghost predicate Run(states: seq<State>, events: seq<Event>) {
    && |states| == |events| + 1 && Init(states[0])
    && forall k {:trigger StepAt(states, events, k)} | 0 <= k < |events| :: StepAt(states, events, k)
  }

  ghost predicate StepAt(states: seq<State>, events: seq<Event>, k: nat)
    requires k < |events| && |states| == |events| + 1
  {
    Step(states[k], events[k], states[k + 1])
  }

  // ---- What a deploy knows while it runs ----

  predicate Swapping(pc: Pc) {
    pc.SwapIn? || pc.RestoreBackup?
  }

  predicate Promoted(pc: Pc) {
    !pc.Promote? && !Swapping(pc)
  }

  predicate CleanedUp(pc: Pc) {
    Promoted(pc) && !pc.DropBackup? && !pc.Cleanup?
  }

  /** The previous release, when the deploy brings a different one, is still what the deploy found. */
  predicate PreviousKept(root: Root, d: Deploy) {
    d.found.active.Some? && d.found.active.value != d.req.hash && d.found.active.value in d.found.dirs ==>
      d.found.active.value in root.dirs && root.dirs[d.found.active.value] == d.found.dirs[d.found.active.value]
  }

  predicate DeployOk(root: Root, d: Deploy) {
    && Accepts(d.req, d.found.active)
    && root.active == (if d.pc.WritePolicy? then Some(d.req.hash) else d.found.active)
    && (d.pc.Promote? ==> root == d.found)
    && (Swapping(d.pc) ==>
          && d.req.hash in d.found.dirs && d.req.hash !in root.dirs && d.pc.backup !in Kept(d)
          && d.pc.backup in root.dirs && root.dirs[d.pc.backup] == d.found.dirs[d.req.hash])
    && (d.pc.DropBackup? ==> d.pc.backup !in Kept(d))
    && (Promoted(d.pc) ==> d.req.hash in root.dirs && root.dirs[d.req.hash] == d.req.content)
    && (CleanedUp(d.pc) ==> root.dirs.Keys <= Kept(d))
    && (root.policy == d.found.policy)
    && PreviousKept(root, d)
  }

  ghost predicate Inv(s: State) {
    s.deploy.Some? ==> DeployOk(s.root, s.deploy.value)
  }

  lemma PromoteKeeps(s: State, d: Deploy, ok: bool, name: string, left: Option<string>, s': State)
    requires DeployOk(s.root, d) && PromoteStep(s, d, ok, name, left, s')
    ensures Inv(s')
  {}

  lemma ReplaceKeeps(s: State, d: Deploy, ok: bool, name: string, left: Option<string>, s': State)
    requires DeployOk(s.root, d) && ReplaceStep(s, d, ok, name, left, s')
    ensures Inv(s')
  {}

  lemma StepKeeps(s: State, e: Event, s': State)
    requires Inv(s) && Step(s, e, s')
    ensures Inv(s')
  {
    if e.Io? {
      var d := s.deploy.value;
      if PromoteStep(s, d, e.ok, e.name, e.left, s') {
        PromoteKeeps(s, d, e.ok, e.name, e.left, s');
      } else if ReplaceStep(s, d, e.ok, e.name, e.left, s') {
        ReplaceKeeps(s, d, e.ok, e.name, e.left, s');
      }
    }
  }

  lemma {:induction false} RunInv(states: seq<State>, events: seq<Event>, k: nat)
    requires Run(states, events) && k < |states|
    ensures Inv(states[k])
  {
    if k > 0 {
      RunInv(states, events, k - 1);
      assert StepAt(states, events, k - 1);
      StepKeeps(states[k - 1], events[k - 1], states[k]);
    }
  }

  // ---- Compare and set ----

  /** A step that writes the active release file and fails half way. */
  predicate Tears(s: State, e: Event) {
    e.Io? && !e.ok && s.deploy.Some? && (s.deploy.value.pc.WriteActive? || s.deploy.value.pc.RollbackActive?)
  }

  /**
    Compare-and-set: whenever the active release changes, the change is made by the deploy under way,
    which was asked to replace exactly the value it replaces.  A completed change writes that deploy's
    own release, which is in place; the rollback write changes the value only when it is torn.
   */
  lemma CompareAndSet(states: seq<State>, events: seq<Event>, k: nat)
    requires Run(states, events) && k < |events| && states[k + 1].root.active != states[k].root.active
    ensures states[k].deploy.Some?
    ensures var expected := states[k].deploy.value.req.expected;
      expected == "any" || expected == match states[k].root.active case Some(v) => v case None => "none"
    ensures var d, torn := states[k].deploy.value, Tears(states[k], events[k]);
      && (d.pc.WriteActive? || (d.pc.RollbackActive? && torn))
      && (!torn ==> states[k + 1].root.active == Some(d.req.hash) && d.req.hash in states[k + 1].root.dirs)
  {
    RunInv(states, events, k);
    assert StepAt(states, events, k);
  }

  /**
    A deploy is let in exactly when none is under way, it asks for a known restart policy, the recorded
    policy is a known one too, and the active release is the one it expects, if it expects any.
   */
  lemma BeginIff(s: State, req: Request)
    ensures (exists s' :: Step(s, Begin(req), s')) <==>
      && s.deploy == None
      && req.policy in {"never", "on-failure", "always", "unless-stopped"}
      && (s.root.policy.Some? ==> s.root.policy.value in {"never", "on-failure", "always", "unless-stopped"})
      && (req.expected == "any" || req.expected == match s.root.active case Some(v) => v case None => "none")
  {
    if Accepts(req, s.root.active) && s.deploy.None? &&
      (s.root.policy.Some? ==> SupportedPolicy(s.root.policy.value)) {
      assert Step(s, Begin(req), State(s.root, Some(Deploy(req, s.root, Promote))));
    }
  }

  // ---- The outcome of a deploy ----

  /** A deploy that reports success leaves its release active and in place, with at most its predecessor beside it. */
  lemma SuccessfulDeploy(states: seq<State>, events: seq<Event>, k: nat)
    requires Run(states, events) && k < |events| && events[k].Io? && events[k].ok
    requires states[k].deploy.Some? && states[k].deploy.value.pc.WritePolicy?
    ensures var d, root := states[k].deploy.value, states[k + 1].root;
      && root.active == Some(d.req.hash) && root.policy == Some(d.req.policy)
      && d.req.hash in root.dirs && root.dirs[d.req.hash] == d.req.content
      && root.dirs.Keys <= Kept(d) && PreviousKept(root, d)
  {
    RunInv(states, events, k);
    assert StepAt(states, events, k);
  }

  /**
    When a rollback gets to its start, both files are as the deploy found them, and so is the previous
    release, except that a deploy of that very release has replaced its content by its own; whether
    that start succeeds or not, this is what the deploy leaves.
   */
  lemma RollbackRestores(states: seq<State>, events: seq<Event>, k: nat)
    requires Run(states, events) && k < |states|
    requires states[k].deploy.Some? && states[k].deploy.value.pc.RollbackStart?
    ensures var d, root := states[k].deploy.value, states[k].root;
      && root.active == d.found.active && root.policy == d.found.policy && PreviousKept(root, d)
      && (d.found.active == Some(d.req.hash) ==>
            d.req.hash in root.dirs && root.dirs[d.req.hash] == d.req.content)
    ensures k < |events| && events[k].Io? ==> states[k + 1] == Ended(states[k].root)
  {
    RunInv(states, events, k);
    if k < |events| {
      assert StepAt(states, events, k);
    }
  }

  /** A new release that does not start is rolled back exactly when that was asked for and there is a previous one. */
  lemma FailedReplace(states: seq<State>, events: seq<Event>, k: nat)
    requires Run(states, events) && k < |events| && states[k].deploy.Some? && states[k].deploy.value.pc.Replace?
    requires events[k].Io? && !events[k].ok
    ensures states[k + 1].root == states[k].root
    ensures states[k + 1].deploy.Some? <==>
      states[k].deploy.value.req.autoRollback && states[k].deploy.value.found.active.Some?
    ensures states[k + 1].deploy.Some? ==> states[k + 1].deploy.value == states[k].deploy.value.(pc := RollbackActive)
  {
    assert StepAt(states, events, k);
  }

  /**
    After a file operation a deploy goes on exactly in these cases: the operation succeeded and was not
    its last one, the swap failed and is undone, or the new release failed and is rolled back.
   */
  lemma GoesOn(states: seq<State>, events: seq<Event>, k: nat)
    requires Run(states, events) && k < |events| && states[k].deploy.Some? && events[k].Io?
    ensures var d := states[k].deploy.value;
      states[k + 1].deploy.Some? <==>
        if events[k].ok then !d.pc.RestoreBackup? && !d.pc.WritePolicy? && !d.pc.RollbackStart?
        else d.pc.SwapIn? || (d.pc.Replace? && d.req.autoRollback && d.found.active.Some?)
    ensures states[k + 1].deploy.Some? ==>
      states[k + 1].deploy.value.req == states[k].deploy.value.req &&
      states[k + 1].deploy.value.found == states[k].deploy.value.found
  {
    assert StepAt(states, events, k);
  }

  /**
    A deploy that ends has left the active release alone exactly when it had not yet written its own
    or writes the value it found, a torn write being judged by what it left in the file.
   */
  lemma FailedDeploy(states: seq<State>, events: seq<Event>, k: nat)
    requires Run(states, events) && k < |events| && states[k].deploy.Some? && states[k + 1].deploy.None?
    ensures var d := states[k].deploy.value;
      states[k + 1].root.active == d.found.active <==>
        if Tears(states[k], events[k]) then events[k].left == d.found.active
        else !d.pc.WritePolicy? || d.found.active == Some(d.req.hash)
  {
    RunInv(states, events, k);
    assert StepAt(states, events, k);
  }

  // ---- The active release can be launched ----

  predicate Dangling(root: Root) {
    root.active.Some? && root.active.value !in root.dirs
  }

  /** The release being swapped is the active one; its old content waits under the backup name. */
  predicate SwappingActive(s: State) {
    s.deploy.Some? && Swapping(s.deploy.value.pc) && s.root.active == Some(s.deploy.value.req.hash)
  }

  /**
    The failures that lose the active release: a torn write whose remains name no release, a failed
    restore of the active release, and a deploy of it cut off in mid-swap.
   */
  predicate Loses(s: State, e: Event) {
    || (Tears(s, e) && e.left.Some? && e.left.value !in s.root.dirs)
    || (SwappingActive(s) && e.Abandon?)
    || (SwappingActive(s) && s.deploy.value.pc.RestoreBackup? && e.Io? && !e.ok)
  }

  /**
    Each of those failures does lose it, and no other step does: a step after which the file dangles
    outside the swap of that release, when it did not before, is one of them.
   */
  lemma LosesExactly(states: seq<State>, events: seq<Event>, k: nat)
    requires Run(states, events) && k < |events|
    ensures Loses(states[k], events[k]) ==> Dangling(states[k + 1].root) && states[k + 1].deploy.None?
    ensures (Dangling(states[k].root) ==> SwappingActive(states[k])) ==>
      (Loses(states[k], events[k]) <==> Dangling(states[k + 1].root) && !SwappingActive(states[k + 1]))
  {
    RunInv(states, events, k);
    assert StepAt(states, events, k);
  }

  /**
    Unless one of those failures happened, the active release names a directory in every state but
    the swap of that very release, and then its old content is in the backup.
   */
  lemma {:induction false} ActiveResolves(states: seq<State>, events: seq<Event>, k: nat)
    requires Run(states, events) && k < |states| && forall i | 0 <= i < k :: !Loses(states[i], events[i])
    ensures Dangling(states[k].root) ==>
      && SwappingActive(states[k])
      && var d := states[k].deploy.value;
         && d.req.hash in d.found.dirs && d.pc.backup in states[k].root.dirs
         && states[k].root.dirs[d.pc.backup] == d.found.dirs[d.req.hash]
  {
    RunInv(states, events, k);
    if k > 0 {
      ActiveResolves(states, events, k - 1);
      LosesExactly(states, events, k - 1);
    }
  }

  ghost predicate Reachable(s: State) {
    exists states, events :: Run(states, events) && states[|events|] == s
  }

  lemma Reach(s: State, e: Event, s': State)
    requires Reachable(s) && Step(s, e, s')
    ensures Reachable(s')
  {
    var states, events :| Run(states, events) && states[|events|] == s;
    var states', events' := states + [s'], events + [e];
    forall k | 0 <= k < |events'| ensures StepAt(states', events', k) {
      if k < |events| {
        assert StepAt(states, events, k);
      }
    }
    assert Run(states', events') && states'[|events'|] == s';
  }

  /** The service directory after a first deploy of release `hash`. */
  function FirstDeployed(req: Request): State {
    Ended(Root(map[req.hash := req.content], Some(req.hash), Some(req.policy)))
  }

  /** The first deploy of a service with release `req.hash`, up to its policy write. */
  function FirstWritten(req: Request): State {
    var root := Root(map[req.hash := req.content], Some(req.hash), None);
    At(root, Deploy(req, Root(map[], None, None), Promote), WritePolicy)
  }

  lemma FirstWrite(req: Request)
    requires Accepts(req, None)
    ensures Reachable(FirstWritten(req))
  {
    var go, empty := Io(true, "", None), Root(map[], None, None);
    var d := Deploy(req, empty, Promote);
    var s0 := State(empty, None);
    assert Run([s0], []) && [s0][0] == s0;
    var root := empty.(dirs := map[req.hash := req.content]);
    Reach(s0, Begin(req), At(empty, d, Promote));
    Reach(At(empty, d, Promote), go, At(root, d, Cleanup));
    Reach(At(root, d, Cleanup), CleanupDone, At(root, d, BuildLaunch));
    Reach(At(root, d, BuildLaunch), go, At(root, d, Replace));
    Reach(At(root, d, Replace), go, At(root, d, WriteActive));
    var active := root.(active := Some(req.hash));
    Reach(At(root, d, WriteActive), go, At(active, d, WritePolicy));
  }

  lemma FirstDeploy(req: Request)
    requires Accepts(req, None)
    ensures Reachable(FirstDeployed(req))
  {
    FirstWrite(req);
    Reach(FirstWritten(req), Io(true, "", None), FirstDeployed(req));
  }

  /**
    An error can come after the change: the policy write fails, leaving anything in that file, and the
    deploy's release stays active.
   */
  lemma FailedDeployCanChange(req: Request, left: Option<string>) returns (s: State, e: Event, s': State)
    requires Accepts(req, None)
    ensures Reachable(s) && s.deploy.Some? && Step(s, e, s') && s'.deploy.None?
    ensures e.Io? && !e.ok && !Tears(s, e) && s'.root.active != s.deploy.value.found.active
    ensures s'.root.policy == left
  {
    FirstWrite(req);
    s, e := FirstWritten(req), Io(false, "", left);
    s' := Ended(s.root.(policy := left));
  }

  /** Such a loss can happen: deploying the active release again, with the swap and the restore both failing. */
  lemma ActiveCanDangle() returns (s: State)
    ensures Reachable(s) && s.deploy.None? && Dangling(s.root)
  {
    var req := Request("r1", "app", "any", "always", true);
    FirstDeploy(req);
    var s0 := FirstDeployed(req);
    var d := Deploy(req, s0.root, Promote);
    Reach(s0, Begin(req), At(s0.root, d, Promote));
    var swapped := Renamed(s0.root, "r1", "r1.swap-backup-1");
    assert "r1.swap-backup-1" != "r1" by { assert |"r1"| == 2; }
    Reach(At(s0.root, d, Promote), Io(true, "r1.swap-backup-1", None), At(swapped, d, SwapIn("r1.swap-backup-1")));
    Reach(At(swapped, d, SwapIn("r1.swap-backup-1")), Io(false, "", None),
      At(swapped, d, RestoreBackup("r1.swap-backup-1")));
    s := Ended(swapped);
    Reach(At(swapped, d, RestoreBackup("r1.swap-backup-1")), Io(false, "", None), s);
  }

  // ---- The directory work, done in place ----

  /** Some sequence of steps leads from `s` to `s'`. */
  ghost predicate Path(s: State, s': State) {
    exists states, events :: Trail(states, events, s, s')
  }

  ghost predicate Trail(states: seq<State>, events: seq<Event>, s: State, s': State) {
    && |states| == |events| + 1 && states[0] == s && states[|events|] == s'
    && forall k {:trigger StepAt(states, events, k)} | 0 <= k < |events| :: StepAt(states, events, k)
  }

  lemma PathStart(s: State)
    ensures Path(s, s)
  {
    assert Trail([s], [], s, s);
  }

  lemma PathStep(s: State, mid: State, e: Event, s': State)
    requires Path(s, mid) && Step(mid, e, s')
    ensures Path(s, s')
  {
    var states, events :| Trail(states, events, s, mid);
    var states', events' := states + [s'], events + [e];
    forall k | 0 <= k < |events'| ensures StepAt(states', events', k) {
      if k < |events| {
        assert StepAt(states, events, k);
      }
    }
    assert Trail(states', events', s, s');
  }

  /** From a failed replace with rollback, two writes lead to the start of the previous release. */
  lemma RollbackPath(s: State, d: Deploy)
    requires s == At(s.root, d, Replace) && d.req.autoRollback && d.found.active.Some?
    ensures Path(s, At(s.root.(active := d.found.active, policy := d.found.policy), d, RollbackStart))
  {
    var s1 := At(s.root, d, RollbackActive);
    var s2 := At(s.root.(active := d.found.active), d, RollbackPolicy);
    PathStart(s);
    PathStep(s, s, Io(false, "", None), s1);
    PathStep(s, s1, Io(true, "", None), s2);
    PathStep(s, s2, Io(true, "", None),
      At(s.root.(active := d.found.active, policy := d.found.policy), d, RollbackStart));
  }

  function KeptDirs(dirs: map<string, string>, d: Deploy): map<string, string> {
    map n | n in dirs && n in Kept(d) :: dirs[n]
  }

  lemma DropUnkept(dirs: map<string, string>, d: Deploy, name: string)
    requires name in dirs && name !in Kept(d)
    ensures KeptDirs(dirs - {name}, d) == KeptDirs(dirs, d)
    ensures |(dirs - {name}).Keys - Kept(d)| < |dirs.Keys - Kept(d)|
  {
    assert (dirs - {name}).Keys - Kept(d) == dirs.Keys - Kept(d) - {name};
  }

  lemma CleanupStep(s: State, root: Root, d: Deploy, name: string)
    requires Path(s, At(root, d, Cleanup)) && name in root.dirs && name !in Kept(d)
    ensures Path(s, At(root.(dirs := root.dirs - {name}), d, Cleanup))
  {
    PathStep(s, At(root, d, Cleanup), Io(true, name, None), At(root.(dirs := root.dirs - {name}), d, Cleanup));
  }

  lemma CleanupEnd(s: State, root: Root, d: Deploy)
    requires Path(s, At(root, d, Cleanup)) && root.dirs.Keys <= Kept(d)
    ensures KeptDirs(root.dirs, d) == root.dirs && Path(s, At(root, d, BuildLaunch))
  {
    PathStep(s, At(root, d, Cleanup), CleanupDone, At(root, d, BuildLaunch));
  }

  lemma {:induction false} CleanupPath(s: State, root: Root, d: Deploy)
    requires Path(s, At(root, d, Cleanup))
    ensures Path(s, At(root.(dirs := KeptDirs(root.dirs, d)), d, BuildLaunch))
    decreases |root.dirs.Keys - Kept(d)|
  {
    if root.dirs.Keys <= Kept(d) {
      CleanupEnd(s, root, d);
    } else {
      var name :| name in root.dirs && name !in Kept(d);
      CleanupStep(s, root, d, name);
      DropUnkept(root.dirs, d, name);
      CleanupPath(s, root.(dirs := root.dirs - {name}), d);
    }
  }

  lemma PromotePath(s: State, req: Request, backup: string)
    requires s.deploy.None? && (exists s1 :: Step(s, Begin(req), s1))
    requires NewName(s, Deploy(req, s.root, Promote), backup)
    ensures Path(s, At(s.root.(dirs := s.root.dirs[req.hash := req.content]), Deploy(req, s.root, Promote), Cleanup))
  {
    var d, ok := Deploy(req, s.root, Promote), Io(true, backup, None);
    var begun := At(s.root, d, Promote);
    var done := At(s.root.(dirs := s.root.dirs[req.hash := req.content]), d, Cleanup);
    PathStart(s);
    PathStep(s, s, Begin(req), begun);
    if req.hash !in s.root.dirs {
      PathStep(s, begun, ok, done);
    } else {
      var out := At(Renamed(s.root, req.hash, backup), d, SwapIn(backup));
      var swapped := At(out.root.(dirs := out.root.dirs[req.hash := req.content]), d, DropBackup(backup));
      PathStep(s, begun, ok, out);
      PathStep(s, out, ok, swapped);
      assert swapped.root.dirs - {backup} == done.root.dirs;
      PathStep(s, swapped, ok, done);
    }
  }

  /**
    Every deploy that is let in can go through: its release is then active and in place with its
    policy, and of the releases found only the previous one is left beside it.
   */
  lemma DeployCanSucceed(s: State, req: Request, backup: string)
    requires (exists s1 :: Step(s, Begin(req), s1)) && NewName(s, Deploy(req, s.root, Promote), backup)
    ensures var kept := map n | n in s.root.dirs && s.root.active == Some(n) :: s.root.dirs[n];
      Path(s, Ended(Root(kept[req.hash := req.content], Some(req.hash), Some(req.policy))))
  {
    var d, ok := Deploy(req, s.root, Promote), Io(true, backup, None);
    var promoted := s.root.(dirs := s.root.dirs[req.hash := req.content]);
    PromotePath(s, req, backup);
    CleanupPath(s, promoted, d);
    var dirs := KeptDirs(promoted.dirs, d);
    assert dirs == (map n | n in s.root.dirs && s.root.active == Some(n) :: s.root.dirs[n])[req.hash := req.content];
    var root := promoted.(dirs := dirs);
    PathStep(s, At(root, d, BuildLaunch), ok, At(root, d, Replace));
    PathStep(s, At(root, d, Replace), ok, At(root, d, WriteActive));
    var active := root.(active := Some(req.hash));
    PathStep(s, At(root, d, WriteActive), ok, At(active, d, WritePolicy));
    PathStep(s, At(active, d, WritePolicy), ok, Ended(active.(policy := Some(req.policy))));
  }

  class ReleaseDirs {
    var dirs: map<string, string>

    constructor (initial: map<string, string>)
      ensures dirs == initial
    {
      dirs := initial;
    }

    method Rename(from: string, to: string, ok: bool) returns (done: bool)
      modifies this
      ensures done <==> ok && from in old(dirs)
      ensures dirs == if done then (old(dirs) - {from})[to := old(dirs)[from]] else old(dirs)
    {
      done := ok && from in dirs;
      if done {
        dirs := (dirs - {from})[to := dirs[from]];
      }
    }

    /**
      Swaps the staged release in.  `swapOut`, `swapIn`, `restore` and `discard` are the outcomes of
      the four file operations, `left` what a failed discard leaves of the backup.  An existing release
      ends up replaced, untouched, or, when neither swapping in nor restoring works, only under the
      backup name.  The work is a path of the deploy's steps, ending before the cleanup or with the
      deploy ended.
     */
    method PromoteStaging(staged: string, hash: string, backup: string, swapOut: bool, swapIn: bool, restore: bool,
                          discard: bool, left: Option<string>, ghost s: State, ghost d: Deploy)
      returns (ok: bool, ghost s': State)
      requires s == At(s.root, d, Promote) && d.pc.Promote? && s.root.dirs == dirs
      requires hash == d.req.hash && staged == d.req.content && NewName(s, d, backup)
      modifies this
      ensures Path(s, s') && s'.root == s.root.(dirs := dirs)
      ensures s'.deploy == if ok then Some(d.(pc := Cleanup)) else None
      ensures ok <==> swapIn && (hash in old(dirs) ==> swapOut && discard)
      ensures ok ==> dirs == old(dirs)[hash := staged]
      ensures !ok && !swapIn ==>
        dirs == if hash in old(dirs) && swapOut && !restore then (old(dirs) - {hash})[backup := old(dirs)[hash]]
                else old(dirs)
      ensures !ok && swapIn ==>
        dirs == if !swapOut then old(dirs)
                else if left.None? then old(dirs)[hash := staged]
                else old(dirs)[backup := left.value][hash := staged]
    {
      PathStart(s);
      if hash !in dirs {
        ok := swapIn;
        if swapIn {
          dirs := dirs[hash := staged];
        }
        s' := if ok then At(s.root.(dirs := dirs), d, Cleanup) else Ended(s.root);
        PathStep(s, s, Io(swapIn, backup, None), s');
        return;
      }
      ok := Rename(hash, backup, swapOut);
      if !ok {
        s' := Ended(s.root);
        PathStep(s, s, Io(false, backup, None), s');
        return;
      }
      ghost var out := At(s.root.(dirs := dirs), d, SwapIn(backup));
      PathStep(s, s, Io(true, backup, None), out);
      if swapIn {
        dirs := dirs[hash := staged];
        ghost var swapped := At(s.root.(dirs := dirs), d, DropBackup(backup));
        PathStep(s, out, Io(true, "", None), swapped);
        dirs := if discard || left.None? then dirs - {backup} else dirs[backup := left.value];
        ok := discard;
        s' := if ok then At(s.root.(dirs := dirs), d, Cleanup) else Ended(s.root.(dirs := dirs));
        PathStep(s, swapped, Io(discard, "", left), s');
      } else {
        ghost var stuck := At(out.root, d, RestoreBackup(backup));
        PathStep(s, out, Io(false, "", None), stuck);
        var restored := Rename(backup, hash, restore);
        ok := false;
        s' := Ended(s.root.(dirs := dirs));
        PathStep(s, stuck, Io(restore, "", None), s');
      }
    }

    /**
      Removes every release but the new and the previous one, stopping at the first that cannot be
      removed, of which `left` remains: a path of cleanup steps that goes on to the launch or ends the
      deploy.
     */
    method CleanupOldReleases(kept: set<string>, removable: set<string>, left: Option<string>, ghost s: State,
                              ghost d: Deploy)
      returns (ok: bool, ghost s': State, ghost stuck: string)
      requires s == State(s.root, Some(d)) && d.pc.Cleanup? && s.root.dirs == dirs && kept == Kept(d)
      modifies this
      ensures Path(s, s') && s'.root == s.root.(dirs := dirs)
      ensures s'.deploy == if ok then Some(d.(pc := BuildLaunch)) else None
      ensures ok <==> old(dirs).Keys - kept <= removable
      ensures ok ==> dirs == map n | n in old(dirs) && n in kept :: old(dirs)[n]
      ensures dirs.Keys <= old(dirs).Keys && old(dirs).Keys * kept <= dirs.Keys
      ensures !ok ==> stuck in old(dirs) && stuck !in kept && stuck !in removable
      ensures !ok ==> (stuck in dirs <==> left.Some?) && (stuck in dirs ==> dirs[stuck] == left.value)
      ensures forall n | n in dirs && (ok || n != stuck) :: dirs[n] == old(dirs)[n]
    {
      PathStart(s);
      ghost var now := s;
      var entries := dirs.Keys;
      while entries != {}
        invariant entries <= dirs.Keys
        invariant dirs == map n | n in old(dirs) && (n in kept || n in entries) :: old(dirs)[n]
        invariant old(dirs).Keys - kept - entries <= removable
        invariant Path(s, now) && now == At(s.root.(dirs := dirs), d, Cleanup)
        decreases entries
      {
        var name :| name in entries;
        entries := entries - {name};
        if name !in kept {
          if name !in removable {
            ok, stuck := false, name;
            dirs := if left.None? then dirs - {name} else dirs[name := left.value];
            s' := Ended(s.root.(dirs := dirs));
            PathStep(s, now, Io(false, name, left), s');
            return;
          }
          dirs := dirs - {name};
          ghost var next := At(s.root.(dirs := dirs), d, Cleanup);
          PathStep(s, now, Io(true, name, None), next);
          now := next;
        }
      }
      ok, stuck := true, "";
      s' := At(now.root, d, BuildLaunch);
      PathStep(s, now, CleanupDone, s');
    }
  }
}
