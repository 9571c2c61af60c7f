/**
  The supervisor's operations and the command gate as they run, on objects updated in place.  Each
  operation takes its locks one after another; its contract says that, from any state of the
  transition system whose shared parts the object holds, its own sections are a path of that system,
  and what the operation has achieved at the end of it.  Outcomes of system calls are parameters.
 */
module ServiceTable {
  import opened Supervisor

  class CommandGate {
    var inflight: set<string>

    ghost predicate Shows(s: State)
      reads this
    {
      s.gate == inflight
    }

    constructor ()
      ensures inflight == {}
    {
      inflight := {};
    }

    /** Hands out the guard of a service, as the start of a command, unless somebody holds it. */
    method Acquire(name: string, ghost s: State, ghost t: nat) returns (ok: bool, ghost s': State)
      requires Shows(s) && t !in s.tasks
      modifies this
      ensures ok <==> name !in old(inflight)
      ensures Shows(s') && if ok then Step(s, Command(t, name), s') else s' == s
    {
      s' := s;
      if name in inflight {
        return false, s';
      }
      inflight := inflight + {name};
      s' := s.(gate := inflight, tasks := s.tasks[t := Task(name, {name}, Ready)]);
      ok := true;
    }

    /** The drop of the guard at the end of a command: the service can be acquired again, no other one is freed. */
    method Release(name: string, ghost s: State, ghost t: nat) returns (ghost s': State)
      requires Shows(s) && t in s.tasks && s.tasks[t] == Task(name, {name}, Ready)
      modifies this
      ensures Shows(s') && Step(s, Leave(t), s')
      ensures name !in inflight
      ensures forall u | u in s.tasks && u != t && s.tasks[u].guards !! {name} && s.tasks[u].guards <= old(inflight) ::
                s.tasks[u].guards <= inflight
    {
      inflight := inflight - {name};
      s' := s.(gate := inflight, tasks := s.tasks - {t});
    }

    /** Moves a deploy's guard to the service its manifest names; on failure it keeps the one it has. */
    method Rebind(current: string, manifest: string, ghost s: State, ghost t: nat)
      returns (held: string, ok: bool, ghost s': State)
      requires Shows(s) && current in inflight && t in s.tasks && s.tasks[t] == Task(current, {current}, Ready)
      modifies this
      ensures ok <==> manifest == current || manifest !in old(inflight)
      ensures held == (if ok then manifest else current) && held in inflight
      ensures Path(s, s') && Shows(s') && s'.tasks == s.tasks[t := Task(held, {held}, Ready)]
    {
      held, ok, s' := current, true, s;
      PathStart(s);
      if current != manifest {
        ok := manifest !in inflight;
        if ok {
          inflight := inflight + {manifest};
          ghost var both := s.(gate := inflight, tasks := s.tasks[t := Task(manifest, {current} + {manifest}, Ready)]);
          PathStep(s, s, RebindAcquire(t, manifest), both);
          inflight := inflight - {current};
          held := manifest;
          s' := both.(gate := inflight, tasks := both.tasks[t := Task(manifest, {manifest}, Ready)]);
          PathStep(s, both, RebindDrop(t), s');
        }
      }
      assert s'.tasks == s.tasks[t := Task(held, {held}, Ready)];
    }
  }

  /** Outcomes of the system calls of one start: the waits, the spawn with its id, the boot and the kill. */
  datatype StartCalls = StartCalls(wait1: bool, wait2: bool, spawn: bool, id: Runner, boot: bool, kill: bool)

  /** Outcomes of one stop: the two waits, the stop itself and the kill of a displaced runner. */
  datatype StopCalls = StopCalls(wait1: bool, stop: bool, wait2: bool, kill: bool)

  datatype StopReply = Stopped | NotRunning | StopError

  lemma EnterTakeOut<K, V>(m: map<K, V>, k: K, v: V)
    ensures m[k := v] - {k} == m - {k} && (m - {k})[k := v] == m[k := v]
    ensures k !in m ==> m - {k} == m
  {}

  /** The running table, the runner index, the starting set, and the processes the system has. */
  class RunningTable {
    var inner: map<string, Runner>
    var index: map<Runner, string>
    var starting: set<string>
    var alive: set<Runner>

    ghost predicate Shows(s: State)
      reads this
    {
      s.inner == inner && s.index == index && s.starting == starting && s.alive == alive
    }

    /** Task `t` of `s` works on `name`, stands at `pc`, and the object holds the shared parts of `s`. */
    ghost predicate Stands(s: State, t: nat, name: string, pc: Pc)
      reads this
    {
      Shows(s) && t in s.tasks && s.tasks[t].name == name && s.tasks[t].pc == pc
    }

    constructor ()
      ensures inner == map[] && index == map[] && starting == {} && alive == {}
    {
      inner, index, starting, alive := map[], map[], {}, {};
    }

    /**
      Takes an exited runner out of the table and then out of the index: the sections of a start
      before it reserves its service, or before its check.
     */
    method ReapFinishedService(name: string, waits: bool, ghost s: State, ghost t: nat) returns (ghost s': State)
      requires Stands(s, t, name, ReapBefore) || Stands(s, t, name, ReapAfter)
      modifies this`inner, this`index
      ensures Path(s, s') && Stands(s', t, name, if s.tasks[t].pc.ReapBefore? then Reserve else Check)
      ensures s'.used == s.used
      ensures inner ==
        if name in old(inner) && waits && old(inner)[name] !in alive then old(inner) - {name} else old(inner)
      ensures index == if name in old(inner) && name !in inner then old(index) - {old(inner)[name]} else old(index)
    {
      PathStart(s);
      s' := AdmissionNext(s, t, waits);
      PathStep(s, s, AdmissionSection(t, waits), s');
      if waits && name in inner && inner[name] !in alive {
        var r := inner[name];
        inner := inner - {name};
        ghost var taken := s';
        index := index - {r};
        s' := AdmissionNext(taken, t, waits);
        PathStep(s, taken, AdmissionSection(t, waits), s');
      }
    }

    /**
      Admits one start per service, and only when the service is not running: from the starting set
      to the spawn, or back with the starting set as it was.
     */
    method ReserveStart(name: string, waits: bool, ghost s: State, ghost t: nat) returns (ok: bool, ghost s': State)
      requires Stands(s, t, name, Reserve)
      modifies this`inner, this`index, this`starting
      ensures Path(s, s') && Stands(s', t, name, if ok then Spawn else Ready)
      ensures ok <==> name !in old(starting) && (name in old(inner) ==> waits && old(inner)[name] !in alive)
      ensures starting == if ok then old(starting) + {name} else old(starting)
      ensures s'.used == s.used
      ensures inner == if ok then old(inner) - {name} else old(inner)
      ensures index == if name in old(inner) && name !in inner then old(index) - {old(inner)[name]} else old(index)
    {
      PathStart(s);
      s' := AdmissionNext(s, t, true);
      PathStep(s, s, AdmissionSection(t, true), s');
      if name in starting {
        return false, s';
      }
      assert starting + {name} - {name} == starting;
      assert name !in inner ==> inner - {name} == inner;
      starting := starting + {name};
      ghost var reserved := s';
      ghost var reaped := ReapFinishedService(name, waits, reserved, t);
      PathTwice(s, reserved, reaped);
      ok, s' := CheckVacant(name, reaped, t);
      PathTwice(s, reaped, s');
    }

    /** The check that the service is not running; the reservation is given back if it is. */
    method CheckVacant(name: string, ghost s: State, ghost t: nat) returns (ok: bool, ghost s': State)
      requires Stands(s, t, name, Check)
      modifies this`starting
      ensures Path(s, s') && Stands(s', t, name, if ok then Spawn else Ready) && s'.used == s.used
      ensures ok <==> name !in inner
      ensures starting == if ok then old(starting) else old(starting) - {name}
    {
      PathStart(s);
      s' := AdmissionNext(s, t, true);
      PathStep(s, s, AdmissionSection(t, true), s');
      ok := name !in inner;
      if !ok {
        ghost var refused := s';
        s' := ReleaseStart(name, refused, t);
        PathStep(s, refused, LaunchSection(t, Choice(true, 0)), s');
      }
    }

    /**
      A whole start.  It succeeds exactly when the service is not being started, whatever ran under its
      name has exited and was found out, and the new runner is spawned and boots; that runner is then the
      service's entry, indexed and alive.  In every case the reservation is given back.  A start that
      fails after its spawn takes its runner out again and kills it, and one that is refused leaves what
      runs where it is.
     */
    method Start(name: string, o: StartCalls, ghost s: State, ghost t: nat)
      returns (ok: bool, ghost admitted: bool, ghost s': State)
      requires Stands(s, t, name, Ready) && o.id !in s.used && s.alive <= s.used
      modifies this
      ensures Path(s, s') && Stands(s', t, name, Ready) && starting == old(starting)
      ensures admitted <==>
        name !in old(starting) && (name in old(inner) ==> (o.wait1 || o.wait2) && old(inner)[name] !in old(alive))
      ensures ok <==> admitted && o.spawn && o.boot
      ensures ok ==> inner == old(inner)[name := o.id] && o.id in index && index[o.id] == name
      ensures admitted && !ok ==> inner == old(inner) - {name} && (o.spawn ==> o.id !in index)
      ensures admitted ||
        inner == old(inner) || (inner == old(inner) - {name} && name in old(inner) && old(inner)[name] !in alive)
      ensures alive == if admitted && o.spawn && (o.boot || !o.kill) then old(alive) + {o.id} else old(alive)
    {
      var reserved: bool;
      ghost var s1: State;
      reserved, s1 := Admit(name, o.wait1, o.wait2, s, t);
      admitted := reserved;
      if !reserved {
        return false, admitted, s1;
      }
      EnterTakeOut(old(inner), name, o.id);
      ok, s' := LaunchReserved(name, o, s1, t);
      PathTwice(s, s1, s');
      assert old(starting) + {name} - {name} == old(starting);
    }

    /** An admitted start: the launch, after which the reservation is given back. */
    method LaunchReserved(name: string, o: StartCalls, ghost s: State, ghost t: nat)
      returns (ok: bool, ghost s': State)
      requires Stands(s, t, name, Spawn) && name !in inner && o.id !in s.used && o.id !in alive
      modifies this
      ensures Path(s, s') && Stands(s', t, name, Ready) && starting == old(starting) - {name}
      ensures ok <==> o.spawn && o.boot
      ensures inner == if ok then old(inner)[name := o.id] else old(inner)
      ensures ok ==> o.id in index && index[o.id] == name
      ensures !ok && o.spawn ==> o.id !in index
      ensures alive == if o.spawn && (o.boot || !o.kill) then old(alive) + {o.id} else old(alive)
    {
      ghost var launched: State;
      ok, launched := Launch(name, o, s, t);
      s' := ReleaseStart(name, launched, t);
      PathStep(s, launched, LaunchSection(t, Choice(true, 0)), s');
    }

    /** A start up to its spawn: reap, reserve, reap again and check. */
    method Admit(name: string, wait1: bool, wait2: bool, ghost s: State, ghost t: nat)
      returns (ok: bool, ghost s': State)
      requires Stands(s, t, name, Ready)
      modifies this`inner, this`index, this`starting
      ensures Path(s, s') && Stands(s', t, name, if ok then Spawn else Ready) && s'.used == s.used
      ensures ok <==>
        name !in old(starting) && (name in old(inner) ==> (wait1 || wait2) && old(inner)[name] !in alive)
      ensures starting == if ok then old(starting) + {name} else old(starting)
      ensures ok ==> inner == old(inner) - {name}
      ensures inner == old(inner) ||
        (inner == old(inner) - {name} && name in old(inner) && old(inner)[name] !in alive)
    {
      PathStart(s);
      ghost var s1 := Move(s, t, ReapBefore);
      PathStep(s, s, BeginStart(t), s1);
      ghost var s2 := ReapFinishedService(name, wait1, s1, t);
      PathTwice(s, s1, s2);
      ok, s' := ReserveStart(name, wait2, s2, t);
      PathTwice(s, s2, s');
    }

    method ReleaseStart(name: string, ghost s: State, ghost t: nat) returns (ghost s': State)
      requires Stands(s, t, name, Release)
      modifies this`starting
      ensures Step(s, LaunchSection(t, Choice(true, 0)), s') && Stands(s', t, name, Ready) && s'.used == s.used
      ensures starting == old(starting) - {name}
    {
      starting := starting - {name};
      s' := LaunchNext(s, t, Choice(true, 0));
    }

    /** A start from its spawn to its release. */
    method Launch(name: string, o: StartCalls, ghost s: State, ghost t: nat) returns (ok: bool, ghost s': State)
      requires Stands(s, t, name, Spawn) && name !in inner && o.id !in s.used && o.id !in alive
      modifies this`inner, this`index, this`alive
      ensures Path(s, s') && Stands(s', t, name, Release)
      ensures ok <==> o.spawn && o.boot
      ensures inner == if ok then old(inner)[name := o.id] else old(inner)
      ensures index == if ok then old(index)[o.id := name] else if o.spawn then old(index) - {o.id} else old(index)
      ensures alive == if o.spawn && (o.boot || !o.kill) then old(alive) + {o.id} else old(alive)
    {
      if !o.spawn {
        PathStart(s);
        s' := LaunchNext(s, t, Choice(false, o.id));
        PathStep(s, s, LaunchSection(t, Choice(false, o.id)), s');
        return false, s';
      }
      ghost var entered := EnterRunner(name, o.id, s, t);
      EnterTakeOut(old(inner), name, o.id);
      EnterTakeOut(old(index), o.id, name);
      assert old(alive) + {o.id} - {o.id} == old(alive);
      assert inner[name] == o.id;
      ok, s' := AwaitBoot(name, o.boot, o.kill, entered, t);
      PathTwice(s, entered, s');
    }

    /** Spawns the runner and enters it in the table and then in the index. */
    method EnterRunner(name: string, id: Runner, ghost s: State, ghost t: nat) returns (ghost s': State)
      requires Stands(s, t, name, Spawn) && id !in s.used
      modifies this`inner, this`index, this`alive
      ensures Path(s, s') && Stands(s', t, name, Boot)
      ensures inner == old(inner)[name := id] && index == old(index)[id := name] && alive == old(alive) + {id}
    {
      PathStart(s);
      ghost var c := Choice(true, id);
      alive := alive + {id};
      ghost var s1 := LaunchNext(s, t, c);
      PathStep(s, s, LaunchSection(t, c), s1);
      inner := inner[name := id];
      ghost var s2 := LaunchNext(s1, t, c);
      PathStep(s, s1, LaunchSection(t, c), s2);
      index := index[id := name];
      s' := LaunchNext(s2, t, c);
      PathStep(s, s2, LaunchSection(t, c), s');
    }

    /** Waits for the runner to boot and cleans up if it does not. */
    method AwaitBoot(name: string, boot: bool, kill: bool, ghost s: State, ghost t: nat)
      returns (ok: bool, ghost s': State)
      requires Stands(s, t, name, Boot) && name in inner
      modifies this`inner, this`index, this`alive
      ensures Path(s, s') && Stands(s', t, name, Release)
      ensures ok <==> boot
      ensures ok ==> inner == old(inner) && index == old(index) && alive == old(alive)
      ensures !ok ==>
        && inner == old(inner) - {name} && index == old(index) - {old(inner)[name]}
        && alive == if kill then old(alive) - {old(inner)[name]} else old(alive)
    {
      PathStart(s);
      ok := boot;
      s' := LaunchNext(s, t, Choice(boot, 0));
      PathStep(s, s, LaunchSection(t, Choice(boot, 0)), s');
      if !ok {
        ghost var failed := s';
        s' := CleanupStartFailure(name, kill, failed, t);
        PathTwice(s, failed, s');
      }
    }

    /** Takes the failed start's entry out of table and index and kills its process. */
    method CleanupStartFailure(name: string, kill: bool, ghost s: State, ghost t: nat) returns (ghost s': State)
      requires Stands(s, t, name, Fail)
      modifies this`inner, this`index, this`alive
      ensures Path(s, s') && Stands(s', t, name, Release)
      ensures inner == old(inner) - {name}
      ensures index == if name in old(inner) then old(index) - {old(inner)[name]} else old(index)
      ensures alive == if name in old(inner) && kill then old(alive) - {old(inner)[name]} else old(alive)
    {
      PathStart(s);
      ghost var c := Choice(kill, 0);
      s' := LaunchNext(s, t, c);
      PathStep(s, s, LaunchSection(t, c), s');
      if name in inner {
        var r := inner[name];
        inner := inner - {name};
        ghost var s1 := s';
        index := index - {r};
        ghost var s2 := LaunchNext(s1, t, c);
        PathStep(s, s1, LaunchSection(t, c), s2);
        if kill {
          alive := alive - {r};
        }
        s' := LaunchNext(s2, t, c);
        PathStep(s, s2, LaunchSection(t, c), s');
      }
    }

    /**
      A whole stop.  There is nothing to stop exactly when the service is not in the table or its runner
      turns out to have exited; otherwise the stop succeeds exactly when the system call does.  A stopped
      or exited runner is gone from table, index and system; a stop that fails leaves its runner alone,
      in the table and in the index, unless it has exited meanwhile.
     */
    method Stop(name: string, o: StopCalls, ghost s: State, ghost t: nat) returns (reply: StopReply, ghost s': State)
      requires Stands(s, t, name, Ready)
      modifies this`inner, this`index, this`alive
      ensures Path(s, s') && Stands(s', t, name, Ready)
      ensures reply.NotRunning? <==> name in old(inner) ==> o.wait1 && old(inner)[name] !in old(alive)
      ensures reply.Stopped? ==> o.stop
      ensures reply.StopError? ==> !o.stop
      ensures !reply.StopError? ==> inner == old(inner) - {name}
      ensures name in old(inner) && !reply.StopError? ==>
        index == old(index) - {old(inner)[name]} && alive == old(alive) - {old(inner)[name]}
      ensures name !in old(inner) ==> index == old(index) && alive == old(alive)
      ensures reply.StopError? ==> name in old(inner) && alive == old(alive)
      ensures reply.StopError? ==>
        if o.wait2 && old(inner)[name] !in alive
        then inner == old(inner) - {name} && index == old(index) - {old(inner)[name]}
        else inner == old(inner) && index == old(index)[old(inner)[name] := name]
    {
      PathStart(s);
      s' := StopTaken(s, t);
      PathStep(s, s, BeginStop(t), s');
      if name !in inner {
        return NotRunning, s';
      }
      var r := inner[name];
      inner := inner - {name};
      ghost var s1 := s';
      index := index - {r};
      ghost var s2 := StopNext(s1, t, true);
      PathStep(s, s1, StopSection(t, true), s2);
      assert old(inner) == (old(inner) - {name})[name := r];
      reply, s' := StopTakenRunner(name, r, o, s2, t);
      PathTwice(s, s2, s');
    }

    /** A stop once it holds the runner alone. */
    method StopTakenRunner(name: string, r: Runner, o: StopCalls, ghost s: State, ghost t: nat)
      returns (reply: StopReply, ghost s': State)
      requires Stands(s, t, name, StopWait(r)) && name !in inner && r !in index
      modifies this`inner, this`index, this`alive
      ensures Path(s, s') && Stands(s', t, name, Ready)
      ensures reply.NotRunning? <==> o.wait1 && r !in old(alive)
      ensures reply.Stopped? ==> o.stop
      ensures reply.StopError? ==> !o.stop
      ensures !reply.StopError? ==> inner == old(inner) && index == old(index) && alive == old(alive) - {r}
      ensures reply.StopError? ==> alive == old(alive)
      ensures reply.StopError? ==>
        if o.wait2 && r !in alive then inner == old(inner) && index == old(index)
        else inner == old(inner)[name := r] && index == old(index)[r := name]
    {
      PathStart(s);
      s' := StopNext(s, t, o.wait1);
      PathStep(s, s, StopSection(t, o.wait1), s');
      if o.wait1 && r !in alive {
        assert index - {r} == index;
        return NotRunning, s';
      }
      ghost var s1 := s';
      s' := StopNext(s1, t, o.stop);
      PathStep(s, s1, StopSection(t, o.stop), s');
      if o.stop {
        alive := alive - {r};
        return Stopped, s';
      }
      ghost var s2 := s';
      s' := RestoreAfterStopError(name, r, o.wait2, o.kill, s2, t);
      PathTwice(s, s2, s');
      reply := StopError;
    }

    /** Puts a runner that could not be stopped back, unless it has exited or its name is taken. */
    method RestoreAfterStopError(name: string, r: Runner, waits: bool, kill: bool, ghost s: State, ghost t: nat)
      returns (ghost s': State)
      requires Stands(s, t, name, StopFailed(r))
      modifies this`inner, this`index, this`alive
      ensures Path(s, s') && Stands(s', t, name, Ready)
      ensures (waits && r !in old(alive)) || name in old(inner) ==> inner == old(inner) && index == old(index)
      ensures !(waits && r !in old(alive)) && name !in old(inner) ==>
        inner == old(inner)[name := r] && index == old(index)[r := name]
      ensures alive ==
        if !(waits && r !in old(alive)) && name in old(inner) && kill then old(alive) - {r} else old(alive)
    {
      PathStart(s);
      s' := StopNext(s, t, waits);
      PathStep(s, s, StopSection(t, waits), s');
      if waits && r !in alive {
        return;
      }
      ghost var s1 := s';
      s' := StopNext(s1, t, true);
      PathStep(s, s1, StopSection(t, true), s');
      ghost var s2 := s';
      if name in inner {
        s' := StopNext(s2, t, kill);
        if kill {
          alive := alive - {r};
        }
        PathStep(s, s2, StopSection(t, kill), s');
        return;
      }
      inner := inner[name := r];
      index := index[r := name];
      s' := StopNext(s2, t, true);
      PathStep(s, s2, StopSection(t, true), s');
    }

    /** Drops every entry whose process has exited, and then their index entries one by one. */
    method ReapFinished(ghost s: State, ghost t: nat) returns (ghost s': State)
      requires Shows(s) && t !in s.tasks
      modifies this`inner, this`index
      ensures Path(s, s') && Shows(s') && s'.tasks == s.tasks
      ensures inner == map n | n in old(inner) && old(inner)[n] in alive :: old(inner)[n]
      ensures index == old(index) - (old(inner).Values - alive)
    {
      var names := inner.Keys;
      var finished: set<Runner> := {};
      ghost var exited := set n | n in inner && inner[n] !in alive;
      while names != {}
        invariant names <= old(inner).Keys
        invariant inner == map n | n in old(inner) && (n in names || old(inner)[n] in alive) :: old(inner)[n]
        invariant finished == set n | n in old(inner) && n !in names && old(inner)[n] !in alive :: old(inner)[n]
        invariant index == old(index)
        decreases names
      {
        var name :| name in names;
        names := names - {name};
        if inner[name] !in alive {
          finished := finished + {inner[name]};
          inner := inner - {name};
        }
      }
      assert inner == old(inner) - exited && finished == (set n | n in exited :: old(inner)[n]);
      assert finished == old(inner).Values - alive;
      s' := ReapIndex(finished, exited, s, t);
    }

    /** The second half of a reap: the index, runner by runner. */
    method ReapIndex(finished: set<Runner>, ghost exited: set<string>, ghost s: State, ghost t: nat)
      returns (ghost s': State)
      requires t !in s.tasks && exited <= s.inner.Keys && (forall n | n in exited :: s.inner[n] !in s.alive)
      requires finished == (set n | n in exited :: s.inner[n])
      requires Shows(s.(inner := s.inner - exited))
      modifies this`index
      ensures Path(s, s') && Shows(s') && s'.tasks == s.tasks
      ensures index == old(index) - finished
    {
      PathStart(s);
      ghost var now := s.(inner := s.inner - exited, tasks := s.tasks[t := Task("", {}, Sweep(finished))]);
      PathStep(s, s, Collect(t, exited), now);
      var todo := finished;
      while todo != {}
        invariant todo <= finished && index == old(index) - (finished - todo)
        invariant Path(s, now) && Shows(now) && now.tasks == s.tasks[t := Task("", {}, Sweep(todo))]
        decreases todo
      {
        var r :| r in todo;
        todo := todo - {r};
        index := index - {r};
        ghost var next := Move(now.(index := now.index - {r}), t, Sweep(todo));
        PathStep(s, now, CollectNext(t, r), next);
        now := next;
      }
      s' := now.(gate := now.gate - {}, tasks := now.tasks - {t});
      PathStep(s, now, Leave(t), s');
      assert s'.tasks == s.tasks;
    }
  }
}
