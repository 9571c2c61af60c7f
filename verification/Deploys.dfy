/**
  Deploys of many services at once.  Each deploy works on its service's directory while it holds
  that service's command guard, taking a guard for the upload's service first and moving it to the
  service the manifest names.  Seen from any one service, such a run is a run of the
  one-deploy-at-a-time machine of Releases, so everything proved there holds here.
 */
module Deploys {
  import opened Wrappers
  import Releases

  /** A deploy command: the service it works on, its guards, and its progress on the directory. */
  datatype Command = Command(name: string, guards: set<string>, deploy: Option<Releases.Deploy>)

  datatype State = State(roots: map<string, Releases.Root>, gate: set<string>, commands: map<nat, Command>)

  datatype Event =
    | Acquire(t: nat, name: string)
    | RebindAcquire(t: nat, name: string)
    | RebindDrop(t: nat)
    | Work(t: nat, e: Releases.Event)
    | Finish(t: nat)

  predicate Init(s: State) {
    s == State(map[], {}, map[])
  }

  function RootOf(s: State, n: string): Releases.Root {
    if n in s.roots then s.roots[n] else Releases.Root(map[], None, None)
  }

  ghost predicate WorkStep(s: State, t: nat, e: Releases.Event, s': State) {
    && t in s.commands && s.commands[t].name in s.commands[t].guards
    && t in s'.commands
    && var c, c' := s.commands[t], s'.commands[t];
       && Releases.Step(Releases.State(RootOf(s, c.name), c.deploy), e, Releases.State(RootOf(s', c.name), c'.deploy))
       && s' == s.(roots := s.roots[c.name := RootOf(s', c.name)], commands := s.commands[t := c.(deploy := c'.deploy)])
  }

  ghost predicate Step(s: State, e: Event, s': State) {
    match e
    case Acquire(t, n) =>
      && t !in s.commands && n !in s.gate
      && s' == s.(gate := s.gate + {n}, commands := s.commands[t := Command(n, {n}, None)])
    case RebindAcquire(t, n) =>
      && t in s.commands && s.commands[t].deploy.None? && s.commands[t].guards == {s.commands[t].name} && n !in s.gate
      && s' == s.(gate := s.gate + {n}, commands := s.commands[t := Command(n, s.commands[t].guards + {n}, None)])
    case RebindDrop(t) =>
      && t in s.commands && s.commands[t].name in s.commands[t].guards
      && s' == s.(gate := s.gate - (s.commands[t].guards - {s.commands[t].name}),
                  commands := s.commands[t := s.commands[t].(guards := {s.commands[t].name})])
    case Work(t, e) => WorkStep(s, t, e, s')
    case Finish(t) =>
      && t in s.commands && s.commands[t].deploy.None?
      && s' == s.(gate := s.gate - s.commands[t].guards, commands := s.commands - {t})
  }

  ghost predicate Inv(s: State) {
    && (forall t | t in s.commands :: s.commands[t].guards <= s.gate)
    && (forall t, u | t in s.commands && u in s.commands && t != u :: s.commands[t].guards !! s.commands[u].guards)
    && (forall t | t in s.commands && s.commands[t].deploy.Some? :: s.commands[t].name in s.commands[t].guards)
  }

  lemma StepKeeps(s: State, e: Event, s': State)
    requires Inv(s) && Step(s, e, s')
    ensures Inv(s')
  {}

  // ---- One service's view ----

  /** Command `t` is deploying service `n`. */
  predicate Deploying(s: State, n: string, t: nat) {
    t in s.commands && s.commands[t].name == n && s.commands[t].deploy.Some?
  }

  /** The directory of `n` and the deploy under way on it. */
  ghost function View(s: State, n: string): Releases.State {
    Releases.State(RootOf(s, n), if t :| Deploying(s, n, t) then s.commands[t].deploy else None)
  }

  /** At most one deploy works on a service, so it is the one in view. */
  lemma InView(s: State, n: string, t: nat)
    requires Inv(s) && Deploying(s, n, t)
    ensures View(s, n).deploy == s.commands[t].deploy
  {
    assert forall u | Deploying(s, n, u) :: u == t;
  }

  lemma NoneInView(s: State, n: string)
    requires forall t :: !Deploying(s, n, t)
    ensures View(s, n).deploy == None
  {}

  function Seen(s: State, e: Event, n: string): Releases.Event {
    if e.Work? && e.t in s.commands && s.commands[e.t].name == n then e.e else Releases.Elsewhere
  }

  /** The command that works on `n` is the only one that may, and its progress is what `n` shows. */
  lemma WorkerInView(s: State, n: string, t: nat)
    requires Inv(s) && t in s.commands && s.commands[t].name == n && n in s.commands[t].guards
    ensures View(s, n).deploy == s.commands[t].deploy
  {
    if s.commands[t].deploy.Some? {
      InView(s, n, t);
    } else {
      forall u ensures !Deploying(s, n, u) {
        if u in s.commands && u != t {
          assert s.commands[u].guards !! s.commands[t].guards;
        }
      }
    }
  }

  lemma WorkRefines(s: State, t: nat, e: Releases.Event, s': State)
    requires Inv(s) && Inv(s') && WorkStep(s, t, e, s')
    ensures Releases.Step(View(s, s.commands[t].name), e, View(s', s.commands[t].name))
  {
    WorkerInView(s, s.commands[t].name, t);
    WorkerInView(s', s.commands[t].name, t);
  }

  /** A step that neither works on `n` nor starts or ends a deploy of it is not seen there. */
  lemma OutOfView(s: State, s': State, n: string)
    requires Inv(s) && Inv(s') && RootOf(s', n) == RootOf(s, n)
    requires forall u :: Deploying(s, n, u) <==> Deploying(s', n, u)
    requires forall u | Deploying(s, n, u) :: Deploying(s', n, u) && s'.commands[u].deploy == s.commands[u].deploy
    ensures View(s', n) == View(s, n)
  {
    if u :| Deploying(s, n, u) {
      InView(s, n, u);
      InView(s', n, u);
    } else {
      NoneInView(s, n);
      NoneInView(s', n);
    }
  }

  lemma StepRefines(s: State, e: Event, s': State, n: string)
    requires Inv(s) && Inv(s') && Step(s, e, s')
    ensures Releases.Step(View(s, n), Seen(s, e, n), View(s', n))
  {
    if e.Work? && s.commands[e.t].name == n {
      WorkRefines(s, e.t, e.e, s');
    } else {
      OutOfView(s, s', n);
    }
  }

  // ---- Runs ----

  ghost predicate Run(states: seq<State>, events: seq<Event>) {
    && |states| == |events| + 1 && Init(states[0])
    && forall k {:trigger StepAt(states, events, k)} | 0 <= k < |events| :: StepAt(states, events, k)
  }

  ghost predicate StepAt(states: seq<State>, events: seq<Event>, k: nat)
    requires k < |events| && |states| == |events| + 1
  {
    Step(states[k], events[k], states[k + 1])
  }

  lemma {:induction false} RunInv(states: seq<State>, events: seq<Event>, k: nat)
    requires Run(states, events) && k < |states|
    ensures Inv(states[k])
  {
    if k > 0 {
      RunInv(states, events, k - 1);
      assert StepAt(states, events, k - 1);
      StepKeeps(states[k - 1], events[k - 1], states[k]);
    }
  }

  /** In every run a service is gated exactly while some command holds its guard, so a finished one frees it. */
  lemma {:induction false} GateHeld(states: seq<State>, events: seq<Event>, k: nat, n: string)
    requires Run(states, events) && k < |states|
    ensures n in states[k].gate <==> exists t :: Holds(states[k], t, n)
  {
    RunInv(states, events, k);
    if n in states[k].gate && k > 0 {
      GateHeld(states, events, k - 1, n);
      assert StepAt(states, events, k - 1);
      RunInv(states, events, k - 1);
      HolderStep(states[k - 1], events[k - 1], states[k], n);
    }
  }

  predicate Holds(s: State, t: nat, n: string) {
    t in s.commands && n in s.commands[t].guards
  }

  lemma HolderStep(s: State, e: Event, s': State, n: string)
    requires Step(s, e, s') && n in s'.gate && (n in s.gate ==> exists t :: Holds(s, t, n))
    ensures exists t :: Holds(s', t, n)
  {
    if n in s.gate {
      var t :| Holds(s, t, n);
      assert Holds(s', t, n);
    } else {
      assert Holds(s', e.t, n);
    }
  }

  ghost function Views(states: seq<State>, n: string): seq<Releases.State> {
    seq(|states|, k requires 0 <= k < |states| => View(states[k], n))
  }

  function SeenAll(states: seq<State>, events: seq<Event>, n: string): seq<Releases.Event>
    requires |states| == |events| + 1
  {
    seq(|events|, k requires 0 <= k < |events| => Seen(states[k], events[k], n))
  }

  /** Per service, any interleaving of deploys is a run of one deploy at a time. */
  lemma ServiceRun(states: seq<State>, events: seq<Event>, n: string)
    requires Run(states, events)
    ensures Releases.Run(Views(states, n), SeenAll(states, events, n))
  {
    var vs, es := Views(states, n), SeenAll(states, events, n);
    NoneInView(states[0], n);
    forall k | 0 <= k < |es| ensures Releases.StepAt(vs, es, k) {
      RunInv(states, events, k);
      RunInv(states, events, k + 1);
      assert StepAt(states, events, k);
      StepRefines(states[k], events[k], states[k + 1], n);
    }
  }

  /**
    Compare-and-set over all interleavings: when a service's active release changes, the change is
    made by one deploy of that service, which was asked to replace exactly the value it replaces; a
    completed change writes that deploy's own release, which is in place.
   */
  lemma CompareAndSet(states: seq<State>, events: seq<Event>, k: nat, n: string)
    requires Run(states, events) && k < |events|
    requires RootOf(states[k + 1], n).active != RootOf(states[k], n).active
    ensures events[k].Work? && events[k].t in states[k].commands
    ensures states[k].commands[events[k].t].name == n && states[k].commands[events[k].t].deploy.Some?
    ensures var expected := states[k].commands[events[k].t].deploy.value.req.expected;
      expected == "any" || expected == match RootOf(states[k], n).active case Some(v) => v case None => "none"
    ensures var c, root' := states[k].commands[events[k].t], RootOf(states[k + 1], n);
      && (Releases.Tears(View(states[k], n), events[k].e)
          || (root'.active == Some(c.deploy.value.req.hash) && c.deploy.value.req.hash in root'.dirs))
  {
    ServiceRun(states, events, n);
    RunInv(states, events, k);
    assert StepAt(states, events, k);
    var vs, es := Views(states, n), SeenAll(states, events, n);
    Releases.CompareAndSet(vs, es, k);
    WorkerInView(states[k], n, events[k].t);
  }

  /**
    The active release of every service names a directory outside the swap of that very release, unless
    a failure lost it.
   */
  lemma ActiveResolves(states: seq<State>, events: seq<Event>, k: nat, n: string)
    requires Run(states, events) && k < |states|
    requires forall i | 0 <= i < k :: !Releases.Loses(View(states[i], n), Seen(states[i], events[i], n))
    ensures Releases.Dangling(RootOf(states[k], n)) ==>
      && Releases.SwappingActive(View(states[k], n))
      && var d := View(states[k], n).deploy.value;
         && d.req.hash in d.found.dirs && d.pc.backup in RootOf(states[k], n).dirs
         && RootOf(states[k], n).dirs[d.pc.backup] == d.found.dirs[d.req.hash]
  {
    ServiceRun(states, events, n);
    Releases.ActiveResolves(Views(states, n), SeenAll(states, events, n), k);
  }
}
