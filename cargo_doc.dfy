/** Running `cargo doc`, and the two message loops that turn file-change
    notifications into debounced rebuilds and stop on request.

    The two loops run on their own threads and talk over two unbounded
    channels. Here each channel is a queue, each loop iteration is one step
    that runs to completion before any other step, and the 10 ms debounce
    sleep is "whatever is already queued when draining starts". */
module CargoDoc {
  import opened Docserve

  /** What the operating system reports for a `cargo` process: it could not be
      started, or it exited with a code (`None` when a signal ended it). */
  datatype Spawn = SpawnFailed(cause: string) | Exited(code: Option<int>)

  predicate Succeeded(s: Spawn) {
    s.Exited? && s.code == Some(0)
  }

  datatype BuildError = SpawnError(cause: string) | NonZeroExit(code: Option<int>)

  datatype BuildResult = Built | Failed(error: BuildError)

  /** Runs `cargo doc` once: returns the arguments given to `cargo` and how
      the build went, given what the operating system reports for it. */
  method RunDoc(config: Config, outcome: Spawn) returns (argv: seq<string>, r: BuildResult)
    ensures |argv| == 1 + (if config.manifest.Some? then 2 else 0) + |config.cargoArgs|
    ensures argv[0] == "doc"
    ensures config.manifest.Some? ==> argv[1..3] == ["--manifest-path", config.manifest.value]
    ensures argv[|argv| - |config.cargoArgs|..] == config.cargoArgs
    ensures r.Built? <==> Succeeded(outcome)
    ensures outcome.SpawnFailed? ==> r == Failed(SpawnError(outcome.cause))
    ensures outcome.Exited? && !Succeeded(outcome) ==> r == Failed(NonZeroExit(outcome.code))
  {
    argv := [];
    argv := argv + ["doc"];
    if config.manifest.Some? {
      argv := argv + ["--manifest-path", config.manifest.value];
    }
    argv := argv + config.cargoArgs;
    match outcome
    case SpawnFailed(cause) =>
      r := Failed(SpawnError(cause));
    case Exited(code) =>
      if code == Some(0) {
        r := Built;
      } else {
        r := Failed(NonZeroExit(code));
      }
  }

  /** Messages to the notify loop: a watcher event (`ok` is false when the
      watcher reported an error instead of an event), or a request to stop. */
  datatype NotifyMsg = Event(ok: bool) | Shutdown

  /** Messages to the cargo loop. */
  datatype CargoMsg = Run | Shutdown

  /** An unbounded channel as seen by its receiver. `disconnected` holds once
      every sender is gone; a receive on an empty disconnected channel fails. */
  datatype Channel<T> = Channel(queue: seq<T>, disconnected: bool)

  datatype LoopState = Running | Stopped

  /** The whole coordinator: both channels, both loops, and how many rebuilds
      the cargo loop has started. */
  datatype Machine = Machine(
    notify: Channel<NotifyMsg>,
    run: Channel<CargoMsg>,
    notifyLoop: LoopState,
    cargoLoop: LoopState,
    rebuilds: nat)

  const Start := Machine(Channel([], false), Channel([], false), Running, Running, 0)

  /** A send succeeds only while the receiving loop is alive; once it has
      stopped, its receiver is dropped and the message is lost. */
  function Send<T>(ch: Channel<T>, msg: T, receiverAlive: bool): (r: Channel<T>)
    ensures r.disconnected == ch.disconnected
    ensures receiverAlive ==> r.queue == ch.queue + [msg]
    ensures !receiverAlive ==> r.queue == ch.queue
  {
    if receiverAlive then ch.(queue := ch.queue + [msg]) else ch
  }

  /** The watcher's callback: forward one event (or watcher error) to the notify loop. */
  function Deliver(m: Machine, ok: bool): (r: Machine)
    ensures r == m.(notify := r.notify) && r.notify.disconnected == m.notify.disconnected
    ensures r.notify.queue == if m.notifyLoop == Running then m.notify.queue + [Event(ok)] else m.notify.queue
  {
    m.(notify := Send(m.notify, Event(ok), m.notifyLoop == Running))
  }

  /** One iteration of the notify loop. A blocked receive changes nothing. */
  function NotifyNext(m: Machine): (r: Machine)
    // the notify loop touches only its own queue and state and the cargo queue
    ensures r.cargoLoop == m.cargoLoop && r.rebuilds == m.rebuilds
    ensures r.notify.disconnected == m.notify.disconnected && r.run.disconnected == m.run.disconnected
    // it consumes at most one message, and only from the front
    ensures r.notify.queue == m.notify.queue || (m.notify.queue != [] && r.notify.queue == m.notify.queue[1..])
    // it sends at most one `Run`, and only while the cargo loop is alive
    ensures r.run.queue == m.run.queue || (m.cargoLoop == Running && r.run.queue == m.run.queue + [CargoMsg.Run])
    ensures m.notifyLoop == Stopped ==> r == m
  {
    if m.notifyLoop == Stopped then m
    else if m.notify.queue == [] then
      if m.notify.disconnected then m.(notifyLoop := Stopped) else m
    else
      var m1 := m.(notify := m.notify.(queue := m.notify.queue[1..]));
      match m.notify.queue[0]
      case Event(ok) =>
        if ok then m1.(run := Send(m1.run, CargoMsg.Run, m1.cargoLoop == Running)) else m1
      case Shutdown => m1.(notifyLoop := Stopped)
  }

  datatype Drained = Drained(shutdownSeen: bool, rest: seq<CargoMsg>)

  /** Takes messages off `q` until it is empty or a `Shutdown` has been taken. */
  function Drain(q: seq<CargoMsg>): (d: Drained)
    ensures d.shutdownSeen <==> CargoMsg.Shutdown in q
    ensures !d.shutdownSeen ==> d.rest == []
    ensures d.shutdownSeen ==>
      exists i :: 0 <= i < |q| && q[i] == CargoMsg.Shutdown && CargoMsg.Shutdown !in q[..i] && d.rest == q[i + 1..]
  {
    if q == [] then Drained(false, [])
    else if q[0] == CargoMsg.Shutdown then
      assert q[..0] == [];
      Drained(true, q[1..])
    else
      var d := Drain(q[1..]);
      assert q == [q[0]] + q[1..];
      if d.shutdownSeen then
        var i :| 0 <= i < |q[1..]| && q[1..][i] == CargoMsg.Shutdown &&
          CargoMsg.Shutdown !in q[1..][..i] && d.rest == q[1..][i + 1..];
        assert q[..i + 1] == [q[0]] + q[1..][..i];
        d
      else d
  }

  /** One iteration of the cargo loop: wait for a message; on `Run`, drain the
      queue and rebuild once unless a `Shutdown` was among the drained messages. */
  function CargoNext(m: Machine): (r: Machine)
    // the cargo loop touches only its own queue and state and the counter
    ensures r.notify == m.notify && r.notifyLoop == m.notifyLoop && r.run.disconnected == m.run.disconnected
    // at most one rebuild per step; a rebuild leaves the loop running with nothing queued
    ensures r.rebuilds == m.rebuilds || r.rebuilds == m.rebuilds + 1
    ensures r.rebuilds == m.rebuilds + 1 ==> r.cargoLoop == Running && r.run.queue == [] && CargoMsg.Shutdown !in m.run.queue
    // what stays queued is a suffix of what was queued
    ensures |r.run.queue| <= |m.run.queue| && r.run.queue == m.run.queue[|m.run.queue| - |r.run.queue|..]
    ensures m.cargoLoop == Stopped ==> r == m
  {
    if m.cargoLoop == Stopped then m
    else if m.run.queue == [] then
      if m.run.disconnected then m.(cargoLoop := Stopped) else m
    else
      match m.run.queue[0]
      case Shutdown => m.(run := m.run.(queue := m.run.queue[1..]), cargoLoop := Stopped)
      case Run =>
        assert m.run.queue == [m.run.queue[0]] + m.run.queue[1..];
        var d := Drain(m.run.queue[1..]);
        if d.shutdownSeen then m.(run := m.run.(queue := d.rest), cargoLoop := Stopped)
        else
          assert CargoMsg.Shutdown !in m.run.queue[1..] && m.run.queue[0] == CargoMsg.Run;
          assert CargoMsg.Shutdown !in m.run.queue;
          assert m.cargoLoop == Running && d.rest == [];
          m.(run := m.run.(queue := d.rest), rebuilds := m.rebuilds + 1)
  }

  /** The first half of the shutdown closure: ask each loop that is still alive to stop, notify loop first. */
  function ShutdownSend(m: Machine): (r: Machine)
    ensures r.notifyLoop == m.notifyLoop && r.cargoLoop == m.cargoLoop && r.rebuilds == m.rebuilds
    ensures r.notify.disconnected == m.notify.disconnected && r.run.disconnected == m.run.disconnected
    ensures r.notify.queue == if m.notifyLoop == Running then m.notify.queue + [NotifyMsg.Shutdown] else m.notify.queue
    ensures r.run.queue == if m.cargoLoop == Running then m.run.queue + [CargoMsg.Shutdown] else m.run.queue
  {
    var m1 := m.(notify := Send(m.notify, NotifyMsg.Shutdown, m.notifyLoop == Running));
    m1.(run := Send(m1.run, CargoMsg.Shutdown, m1.cargoLoop == Running))
  }

  /** Everything that can happen next, in any interleaving: a step of either
      loop, a watcher callback, or every sender of one channel going away. */
  datatype Action = NotifyTurn | CargoTurn | WatcherEvent(ok: bool) | NotifySendersGone | RunSendersGone

  function Apply(m: Machine, a: Action): Machine {
    match a
    case NotifyTurn => NotifyNext(m)
    case CargoTurn => CargoNext(m)
    case WatcherEvent(ok) => Deliver(m, ok)
    case NotifySendersGone => m.(notify := m.notify.(disconnected := true))
    case RunSendersGone => m.(run := m.run.(disconnected := true))
  }

  function Exec(m: Machine, schedule: seq<Action>): Machine
    decreases |schedule|
  {
    if schedule == [] then m else Exec(Apply(m, schedule[0]), schedule[1..])
  }

  /** `k` iterations of the notify loop with nothing else happening. */
  function NotifyTurns(m: Machine, k: nat): Machine
    decreases k
  {
    if k == 0 then m else NotifyTurns(NotifyNext(m), k - 1)
  }

  /** The `Run` messages the notify loop sends for the messages `q`: one per
      successful event, in order, up to the first `Shutdown`. */
  function Forwarded(q: seq<NotifyMsg>): (runs: seq<CargoMsg>)
    ensures forall i :: 0 <= i < |runs| ==> runs[i] == CargoMsg.Run
    ensures NotifyMsg.Shutdown !in q ==> |runs| == multiset(q)[Event(true)]
  {
    if q == [] then []
    else
      assert q == [q[0]] + q[1..];
      match q[0]
      case Event(ok) => (if ok then [CargoMsg.Run] else []) + Forwarded(q[1..])
      case Shutdown => []
  }

  // ---- Properties of the cargo loop ----

  /** Debouncing: a `Run` followed by any number of queued `Run`s, and no
      `Shutdown`, empties the queue and starts exactly one rebuild. */
  lemma RunsCoalesce(m: Machine)
    requires m.cargoLoop == Running
    requires |m.run.queue| > 0 && m.run.queue[0] == CargoMsg.Run
    requires CargoMsg.Shutdown !in m.run.queue
    ensures CargoNext(m) == m.(run := m.run.(queue := []), rebuilds := m.rebuilds + 1)
  {
  }

  /** Once a `Shutdown` is queued for a running cargo loop, its next step stops
      it, whatever precedes the `Shutdown`, and starts no rebuild. */
  lemma ShutdownQueuedStopsCargo(m: Machine)
    requires m.cargoLoop == Running
    requires CargoMsg.Shutdown in m.run.queue
    ensures CargoNext(m).cargoLoop == Stopped
    ensures CargoNext(m).rebuilds == m.rebuilds
  {
  }

  /** While idle, a disconnected empty channel stops the cargo loop without a rebuild. */
  lemma DisconnectStopsIdleCargo(m: Machine)
    requires m.cargoLoop == Running && m.run.queue == [] && m.run.disconnected
    ensures CargoNext(m) == m.(cargoLoop := Stopped)
  {
  }

  /** While idle, a disconnected empty channel stops the notify loop, and nothing else changes. */
  lemma DisconnectStopsIdleNotify(m: Machine)
    requires m.notifyLoop == Running && m.notify.queue == [] && m.notify.disconnected
    ensures NotifyNext(m) == m.(notifyLoop := Stopped)
  {
  }

  /** A stopped loop never runs again. */
  lemma {:induction false} StoppedStaysStopped(m: Machine, schedule: seq<Action>)
    ensures m.cargoLoop == Stopped ==> Exec(m, schedule).cargoLoop == Stopped
    ensures m.cargoLoop == Stopped ==> Exec(m, schedule).rebuilds == m.rebuilds
    ensures m.notifyLoop == Stopped ==> Exec(m, schedule).notifyLoop == Stopped
    decreases |schedule|
  {
    if schedule != [] {
      StoppedStaysStopped(Apply(m, schedule[0]), schedule[1..]);
    }
  }

  // ---- Properties of the notify loop ----

  /** Run to the end of its queue, the notify loop sends one `Run` per
      successful event, in arrival order, ignores watcher errors, and stops at
      the first `Shutdown` without looking at what follows it. */
  lemma {:induction false} NotifyForwards(m: Machine)
    requires m.notifyLoop == Running && m.cargoLoop == Running
    ensures NotifyTurns(m, |m.notify.queue|).run == m.run.(queue := m.run.queue + Forwarded(m.notify.queue))
    ensures NotifyTurns(m, |m.notify.queue|).notifyLoop == Stopped <==> NotifyMsg.Shutdown in m.notify.queue
    ensures NotifyTurns(m, |m.notify.queue|).cargoLoop == Running
    ensures NotifyTurns(m, |m.notify.queue|).rebuilds == m.rebuilds
    decreases |m.notify.queue|
  {
    var q := m.notify.queue;
    if q != [] {
      var m1 := NotifyNext(m);
      assert q == [q[0]] + q[1..];
      match q[0]
      case Event(ok) =>
        assert m1.notify.queue == q[1..];
        NotifyForwards(m1);
        assert m1.run.queue == m.run.queue + (if ok then [CargoMsg.Run] else []);
        assert Forwarded(q) == (if ok then [CargoMsg.Run] else []) + Forwarded(q[1..]);
      case Shutdown =>
        StoppedNotifyTurns(m1, |q| - 1);
    }
  }

  lemma {:induction false} NotifyTurnsSucc(m: Machine, k: nat)
    ensures NotifyTurns(m, k + 1) == NotifyNext(NotifyTurns(m, k))
    decreases k
  {
    if k > 0 {
      NotifyTurnsSucc(NotifyNext(m), k - 1);
    }
  }

  lemma {:induction false} NotifyTurnsAdd(m: Machine, a: nat, b: nat)
    ensures NotifyTurns(m, a + b) == NotifyTurns(NotifyTurns(m, a), b)
    decreases a
  {
    if a > 0 {
      NotifyTurnsAdd(NotifyNext(m), a - 1, b);
    }
  }

  lemma {:induction false} StoppedNotifyTurns(m: Machine, k: nat)
    requires m.notifyLoop == Stopped
    ensures NotifyTurns(m, k) == m
    decreases k
  {
    if k > 0 {
      StoppedNotifyTurns(NotifyNext(m), k - 1);
    }
  }

  /** A burst: any number (at least one) of successful events queued for the
      notify loop, no `Shutdown`, and an empty cargo queue. After the notify
      loop has forwarded them all, one step of the cargo loop starts exactly
      one rebuild and leaves nothing queued. */
  lemma BurstRebuildsOnce(m: Machine)
    requires m.notifyLoop == Running && m.cargoLoop == Running && m.run.queue == []
    requires Event(true) in m.notify.queue && NotifyMsg.Shutdown !in m.notify.queue
    ensures var m1 := CargoNext(NotifyTurns(m, |m.notify.queue|));
      m1.rebuilds == m.rebuilds + 1 && m1.run.queue == [] && m1.cargoLoop == Running
  {
    NotifyForwards(m);
    var runs := Forwarded(m.notify.queue);
    assert multiset(m.notify.queue)[Event(true)] > 0;
    assert CargoMsg.Shutdown !in runs;
    RunsCoalesce(NotifyTurns(m, |m.notify.queue|));
  }

  // ---- Shutdown ----

  /** Shutdown is pending: a running cargo loop has a `Shutdown` waiting. */
  predicate ShutdownPending(m: Machine) {
    m.cargoLoop == Running ==> CargoMsg.Shutdown in m.run.queue
  }

  lemma ShutdownPendingStep(m: Machine, a: Action)
    requires ShutdownPending(m)
    ensures ShutdownPending(Apply(m, a))
    ensures Apply(m, a).rebuilds == m.rebuilds
  {
  }

  /** No rebuild starts once the shutdown closure has sent its messages, in
      any interleaving of the loops, the watcher and disconnections. */
  lemma {:induction false} NoRebuildAfterShutdown(m: Machine, schedule: seq<Action>)
    ensures Exec(ShutdownSend(m), schedule).rebuilds == m.rebuilds
  {
    ShutdownPendingExec(ShutdownSend(m), schedule);
  }

  lemma {:induction false} ShutdownPendingExec(m: Machine, schedule: seq<Action>)
    requires ShutdownPending(m)
    ensures ShutdownPending(Exec(m, schedule))
    ensures Exec(m, schedule).rebuilds == m.rebuilds
    decreases |schedule|
  {
    if schedule != [] {
      ShutdownPendingStep(m, schedule[0]);
      ShutdownPendingExec(Apply(m, schedule[0]), schedule[1..]);
    }
  }

  /** The shutdown closure ends both loops: after its messages are sent, the
      notify loop stops within as many steps as it has queued messages, and the
      next step of the cargo loop stops it, with no rebuild started. */
  lemma ShutdownStopsBoth(m: Machine)
    ensures var m1 := ShutdownSend(m);
      var m2 := NotifyTurns(m1, |m1.notify.queue|);
      m2.notifyLoop == Stopped && CargoNext(m2).cargoLoop == Stopped && CargoNext(m2).rebuilds == m.rebuilds
  {
    var m1 := ShutdownSend(m);
    var m2 := NotifyTurns(m1, |m1.notify.queue|);
    if m1.notifyLoop == Running {
      NotifyStopsAtShutdown(m1);
    } else {
      StoppedNotifyTurns(m1, |m1.notify.queue|);
    }
    NotifyTurnsKeepPending(m1, |m1.notify.queue|);
    if m2.cargoLoop == Running {
      ShutdownQueuedStopsCargo(m2);
    }
  }

  lemma {:induction false} NotifyStopsAtShutdown(m: Machine)
    requires m.notifyLoop == Running && NotifyMsg.Shutdown in m.notify.queue
    ensures NotifyTurns(m, |m.notify.queue|).notifyLoop == Stopped
    decreases |m.notify.queue|
  {
    var q := m.notify.queue;
    var m1 := NotifyNext(m);
    if q[0] == NotifyMsg.Shutdown {
      StoppedNotifyTurns(m1, |q| - 1);
    } else {
      assert q == [q[0]] + q[1..];
      assert m1.notify.queue == q[1..] && m1.notifyLoop == Running;
      NotifyStopsAtShutdown(m1);
    }
  }

  lemma {:induction false} NotifyTurnsKeepPending(m: Machine, k: nat)
    requires ShutdownPending(m)
    ensures ShutdownPending(NotifyTurns(m, k)) && NotifyTurns(m, k).rebuilds == m.rebuilds
    decreases k
  {
    if k > 0 {
      ShutdownPendingStep(m, NotifyTurn);
      NotifyTurnsKeepPending(NotifyNext(m), k - 1);
    }
  }

  /** The state `watch` sets up: the two channels and the two loops, with
      each loop iteration as a step method. */
  class WatchSession {
    const config: Config
    var notifyQueue: seq<NotifyMsg>
    var notifyDisconnected: bool
    var runQueue: seq<CargoMsg>
    var runDisconnected: bool
    var notifyLoop: LoopState
    var cargoLoop: LoopState
    ghost var rebuilds: nat

    ghost function State(): Machine
      reads this
    {
      Machine(Channel(notifyQueue, notifyDisconnected), Channel(runQueue, runDisconnected),
              notifyLoop, cargoLoop, rebuilds)
    }

    constructor (config: Config)
      ensures this.config == config && State() == Start
    {
      this.config := config;
      notifyQueue, notifyDisconnected := [], false;
      runQueue, runDisconnected := [], false;
      notifyLoop, cargoLoop := Running, Running;
      rebuilds := 0;
    }

    /** The watcher's callback. */
    method WatcherEvent(ok: bool)
      modifies this
      ensures State() == Deliver(old(State()), ok)
    {
      if notifyLoop == Running {
        notifyQueue := notifyQueue + [Event(ok)];
      }
    }

    method SendersGone(notifyChannel: bool)
      modifies this
      ensures State() == Apply(old(State()), if notifyChannel then NotifySendersGone else RunSendersGone)
    {
      if notifyChannel {
        notifyDisconnected := true;
      } else {
        runDisconnected := true;
      }
    }

    /** One iteration of the notify loop. */
    method NotifyStep()
      modifies this
      ensures State() == NotifyNext(old(State()))
    {
      if notifyLoop == Stopped {
        return;
      }
      if notifyQueue == [] {
        if notifyDisconnected {
          notifyLoop := Stopped;
        }
        return;
      }
      var msg := notifyQueue[0];
      notifyQueue := notifyQueue[1..];
      match msg
      case Event(ok) =>
        if ok && cargoLoop == Running {
          runQueue := runQueue + [CargoMsg.Run];
        }
      case Shutdown =>
        notifyLoop := Stopped;
    }

    /** The receiving half of one cargo-loop iteration: wait for a message,
        and on `Run` drain the queue. `rebuild` says whether this iteration
        goes on to run `cargo doc`; the ghost counter counts those decisions. */
    method Receive() returns (rebuild: bool)
      modifies this
      ensures State() == CargoNext(old(State()))
      ensures rebuild <==> rebuilds == old(rebuilds) + 1
      ensures rebuild ==> cargoLoop == Running
    {
      rebuild := false;
      if cargoLoop == Stopped {
        return;
      }
      if runQueue == [] {
        if runDisconnected {
          cargoLoop := Stopped;
        }
        return;
      }
      var msg := runQueue[0];
      runQueue := runQueue[1..];
      if msg == CargoMsg.Shutdown {
        cargoLoop := Stopped;
        return;
      }
      assert old(runQueue) != [] && old(runQueue)[0] == CargoMsg.Run;
      ghost var drained := Drain(old(runQueue)[1..]);
      while runQueue != []
        invariant Drain(runQueue) == drained
        invariant State() == old(State()).(run := old(State()).run.(queue := runQueue))
        decreases |runQueue|
      {
        var next := runQueue[0];
        runQueue := runQueue[1..];
        if next == CargoMsg.Shutdown {
          cargoLoop := Stopped;
          return;
        }
      }
      rebuild := true;
      rebuilds := rebuilds + 1;
    }

    /** One iteration of the cargo loop. A failed build is only reported: the
        loop keeps running. */
    method CargoStep(outcome: Spawn) returns (built: Option<BuildResult>)
      modifies this
      ensures State() == CargoNext(old(State()))
      ensures built.Some? <==> rebuilds == old(rebuilds) + 1
      ensures built.Some? ==> cargoLoop == Running && (built.value.Built? <==> Succeeded(outcome))
    {
      var rebuild := Receive();
      if rebuild {
        var _, r := RunDoc(config, outcome);
        built := Some(r);
      } else {
        built := None;
      }
    }

    /** The shutdown closure: send `Shutdown` to the notify loop and then to
        the cargo loop, and wait until both loops have ended. No rebuild is
        started on the way. */
    method ShutdownAndJoin()
      modifies this
      ensures var m1 := ShutdownSend(old(State())); State() == CargoNext(NotifyTurns(m1, |m1.notify.queue|))
      ensures notifyLoop == Stopped && cargoLoop == Stopped
      ensures rebuilds == old(rebuilds)
    {
      if notifyLoop == Running {
        notifyQueue := notifyQueue + [NotifyMsg.Shutdown];
      }
      if cargoLoop == Running {
        runQueue := runQueue + [CargoMsg.Shutdown];
      }
      JoinNotify();
      // join the cargo thread
      ghost var before := State();
      ShutdownStopsBoth(old(State()));
      var rebuild := Receive();
      if rebuild {
        assert false;
      }
    }

    /** Waits for the notify loop to end: it runs until it has taken the
        `Shutdown` that is queued for it. */
    method JoinNotify()
      requires notifyLoop == Running ==> NotifyMsg.Shutdown in notifyQueue
      modifies this
      ensures State() == NotifyTurns(old(State()), |old(notifyQueue)|)
      ensures notifyLoop == Stopped
    {
      ghost var m0 := State();
      ghost var k: nat := 0;
      while notifyLoop == Running
        invariant k <= |m0.notify.queue| && State() == NotifyTurns(m0, k)
        invariant notifyLoop == Running ==> k + |notifyQueue| == |m0.notify.queue|
        invariant notifyLoop == Running ==> NotifyMsg.Shutdown in notifyQueue
        decreases |notifyQueue|
      {
        assert notifyQueue == [notifyQueue[0]] + notifyQueue[1..];
        NotifyStep();
        NotifyTurnsSucc(m0, k);
        k := k + 1;
      }
      NotifyTurnsAdd(m0, k, |m0.notify.queue| - k);
      StoppedNotifyTurns(State(), |m0.notify.queue| - k);
    }
  }
}
