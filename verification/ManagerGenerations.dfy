/** One manager, many sing-box processes: the fields that start, stop, the waiting
    goroutines and the readiness poll share, and what Health may conclude. */
module ManagerGenerations {
  import opened Wrappers

  datatype Mode = Off | ProxyMode | TunnelMode

  /** Who holds the lifecycle lock, and how far it has come. */
  datatype Op =
    | Free
    | Stopping(again: bool)   // StopAndWait; a proxy start follows or not
    | Starting(mode: Mode)    // about to enter startLocked
    | Polling(g: nat)         // the proxy readiness loop
    | Confirming(g: nat)      // it has seen the process and the listener
    | Proving(g: nat)         // Agent Tunnel readiness and activation

  /** Health reads the mode, then the process, then the readiness flag, each in a
      critical section of its own. The generations are provenance. */
  datatype Health =
    | Unread
    | SawMode(mode: Mode, started: nat)
    | SawProcess(mode: Mode, started: nat, process: Option<nat>)
    | SawFlag(mode: Mode, started: nat, process: Option<nat>, ready: bool, latest: nat)

  /** Generation g is the g-th process started. */
  datatype State = State(
    cmd: Option<nat>,
    mode: Mode,
    ready: bool,          // proxyReadinessConfirmed
    kinds: seq<Mode>,     // the mode each generation was started in
    alive: set<nat>,      // processes the OS still runs
    waiting: set<nat>,    // goroutines that have not passed their clearing section
    confirmed: set<nat>,  // generations a readiness poll has confirmed
    op: Op,
    health: Health)

  // -------------------------------------------------------------------- steps

  /** Any process may exit at any time, told to or not. */
  predicate Exits(s: State, t: State) {
    t == s.(alive := t.alive) && t.alive <= s.alive
  }

  function Cleared(s: State, g: nat): State {
    if s.cmd == Some(g) then s.(cmd := None, mode := Off, waiting := s.waiting - {g})
    else s.(waiting := s.waiting - {g})
  }

  predicate Clears(s: State, t: State, g: nat) {
    g in s.waiting && g !in s.alive && t == Cleared(s, g)
  }

  predicate Environment(s: State, t: State) {
    Exits(s, t) || exists g | g in s.waiting :: Clears(s, t, g)
  }

  predicate CallsStop(s: State, t: State) {
    s.op.Free? && t == s.(op := Stopping(false))
  }

  predicate CallsProxyStart(s: State, t: State) {
    s.op.Free? && t == s.(op := if s.cmd.Some? then Stopping(true) else Starting(ProxyMode))
  }

  predicate CallsTunnelStart(s: State, t: State) {
    s.op.Free? && s.cmd.None? && t == s.(op := Starting(TunnelMode))
  }

  predicate Stops(s: State, t: State) {
    s.op.Stopping? && s.cmd.None? && t == s.(op := if s.op.again then Starting(ProxyMode) else Free)
  }

  /** Any operation may give up; a failed start is rolled back by stopping. */
  predicate GivesUp(s: State, t: State) {
    && (s.op.Stopping? || s.op.Starting? || s.op.Polling? || s.op.Proving?)
    && (t == s.(op := Free) || ((s.op.Polling? || s.op.Proving?) && t == s.(op := Stopping(false))))
  }

  function Started(s: State, mode: Mode): State {
    var g := |s.kinds|;
    s.(cmd := Some(g), mode := mode, ready := false, kinds := s.kinds + [mode],
       alive := s.alive + {g}, waiting := s.waiting + {g},
       op := if mode == ProxyMode then Polling(g) else Proving(g))
  }

  predicate Starts(s: State, t: State) {
    s.op.Starting? && s.cmd.None? && t == Started(s, s.op.mode)
  }

  predicate SeesListener(s: State, t: State) {
    s.op.Polling? && s.cmd.Some? && t == s.(op := Confirming(s.op.g))
  }

  predicate Confirms(s: State, t: State) {
    s.op.Confirming? && t == s.(ready := true, confirmed := s.confirmed + {s.op.g}, op := Free)
  }

  predicate Activates(s: State, t: State) {
    s.op.Proving? && t == s.(op := Free)
  }

  function NextRead(s: State): Health {
    match s.health
    case Unread => SawMode(s.mode, |s.kinds|)
    case SawMode(m, n) => SawProcess(m, n, s.cmd)
    case SawProcess(m, n, p) => SawFlag(m, n, p, s.ready, |s.kinds|)
    case SawFlag(_, _, _, _, _) => Unread
  }

  predicate Reads(s: State, t: State) {
    t == s.(health := NextRead(s))
  }

  predicate Lifecycle(s: State, t: State) {
    || CallsStop(s, t) || CallsProxyStart(s, t) || CallsTunnelStart(s, t) || Stops(s, t) || GivesUp(s, t)
    || Starts(s, t) || SeesListener(s, t) || Confirms(s, t) || Activates(s, t)
  }

  predicate Next(s: State, t: State) {
    Environment(s, t) || Lifecycle(s, t) || Reads(s, t)
  }

  predicate Init(s: State) {
    s == State(None, Off, false, [], {}, {}, {}, Free, Unread)
  }

  predicate StepAt(run: seq<State>, i: nat)
    requires i + 1 < |run|
  {
    Next(run[i], run[i + 1])
  }

  ghost predicate IsRun(run: seq<State>) {
    && run != [] && Init(run[0])
    && forall i: nat {:trigger StepAt(run, i)} :: i + 1 < |run| ==> StepAt(run, i)
  }

  // ---------------------------------------------------------------- invariant

  predicate ManagerInv(s: State) {
    && (s.cmd.Some? <==> s.mode != Off)
    && (s.cmd.Some? ==> s.cmd.value + 1 == |s.kinds| && s.kinds[s.cmd.value] == s.mode)
    && s.waiting == (if s.cmd.Some? then {s.cmd.value} else {})
    && s.alive <= s.waiting
    && (s.ready ==> ConfirmedProxy(s, |s.kinds| - 1))
  }

  predicate ConfirmedProxy(s: State, g: int) {
    0 <= g < |s.kinds| && g in s.confirmed && s.kinds[g] == ProxyMode
  }

  predicate OpInv(s: State) {
    match s.op
    case Starting(m) => s.cmd.None? && m != Off
    case Polling(g) => g + 1 == |s.kinds| && s.kinds[g] == ProxyMode
    case Confirming(g) => g + 1 == |s.kinds| && s.kinds[g] == ProxyMode
    case Proving(g) => g + 1 == |s.kinds|
    case _ => true
  }

  /** What the reads so far say about the generations started by now. */
  predicate HealthInv(s: State) {
    match s.health
    case Unread => true
    case SawMode(m, n) => SoundMode(s, m, n)
    case SawProcess(m, n, p) => SoundMode(s, m, n) && SoundProcess(s, n, p)
    case SawFlag(m, n, p, ready, latest) =>
      && SoundMode(s, m, n) && SoundProcess(s, n, p)
      && n <= latest <= |s.kinds| && (p.Some? ==> p.value < latest)
      && (ready ==> ConfirmedProxy(s, latest - 1))
  }

  predicate SoundMode(s: State, m: Mode, n: nat) {
    n <= |s.kinds| && (m != Off ==> n > 0 && s.kinds[n - 1] == m)
  }

  predicate SoundProcess(s: State, n: nat, p: Option<nat>) {
    p.Some? ==> n <= p.value + 1 <= |s.kinds|
  }

  predicate Inv(s: State) {
    ManagerInv(s) && OpInv(s) && HealthInv(s)
  }

  lemma EnvironmentKeeps(s: State, t: State)
    requires Inv(s) && Environment(s, t)
    ensures Inv(t)
  {
  }

  lemma StartKeeps(s: State, t: State)
    requires Inv(s) && Starts(s, t)
    ensures Inv(t)
  {
    assert forall g | 0 <= g < |s.kinds| :: t.kinds[g] == s.kinds[g];
  }

  lemma LifecycleKeeps(s: State, t: State)
    requires Inv(s) && Lifecycle(s, t)
    ensures Inv(t)
  {
    if Starts(s, t) {
      StartKeeps(s, t);
    }
  }

  lemma ReadKeeps(s: State, t: State)
    requires Inv(s) && Reads(s, t)
    ensures Inv(t)
  {
  }

  lemma NextKeeps(s: State, t: State)
    requires Inv(s) && Next(s, t)
    ensures Inv(t)
  {
    if Environment(s, t) {
      EnvironmentKeeps(s, t);
    } else if Lifecycle(s, t) {
      LifecycleKeeps(s, t);
    } else {
      ReadKeeps(s, t);
    }
  }

  lemma {:induction false} Reachable(run: seq<State>, i: nat)
    requires IsRun(run) && i < |run|
    ensures Inv(run[i])
  {
    if i > 0 {
      Reachable(run, i - 1);
      assert StepAt(run, i - 1);
      NextKeeps(run[i - 1], run[i]);
    }
  }

  // ----------------------------------------------------------------- theorems

  /** A process is managed exactly when the mode is not off; it is the latest one
      started, nothing else still runs, and only its own goroutine is waiting. */
  lemma OneProcessOneWaiter(run: seq<State>, i: nat)
    requires IsRun(run) && i < |run|
    ensures var s := run[i];
            && (s.cmd.Some? <==> s.mode != Off)
            && (s.cmd.Some? ==> s.cmd.value + 1 == |s.kinds| && s.kinds[s.cmd.value] == s.mode)
            && (forall g | g in s.waiting :: s.cmd == Some(g))
            && (forall g | g in s.alive :: s.cmd == Some(g))
  {
    Reachable(run, i);
  }

  /** A goroutine's clearing section never removes a process it did not wait for. */
  lemma NoWaiterClearsANewerProcess(run: seq<State>, i: nat, g: nat)
    requires IsRun(run) && i + 1 < |run| && Clears(run[i], run[i + 1], g)
    ensures run[i].cmd == Some(g) && g + 1 == |run[i].kinds| && run[i + 1].cmd.None? && run[i + 1].waiting == {}
  {
    Reachable(run, i);
  }

  /** A raised readiness flag goes back to a confirmation after the latest start. */
  lemma {:induction false} ReadyWasConfirmedInThisGeneration(run: seq<State>, i: nat)
    requires IsRun(run) && i < |run| && run[i].ready
    ensures exists m: nat :: m < i && ConfirmedAt(run, m) && |run[m].kinds| == |run[i].kinds|
  {
    if i > 0 {
      assert StepAt(run, i - 1);
      Reachable(run, i - 1);
      if Confirms(run[i - 1], run[i]) {
        assert ConfirmedAt(run, i - 1);
      } else {
        FlagIsKept(run[i - 1], run[i]);
        ReadyWasConfirmedInThisGeneration(run, i - 1);
      }
    }
  }

  /** The poll that confirms belongs to the process started last. */
  predicate ConfirmedAt(run: seq<State>, m: nat)
    requires m + 1 < |run|
  {
    Confirms(run[m], run[m + 1]) && run[m].op.g + 1 == |run[m].kinds| && run[m].kinds[run[m].op.g] == ProxyMode
  }

  lemma FlagIsKept(s: State, t: State)
    requires Next(s, t) && t.ready && !Confirms(s, t)
    ensures s.ready && t.kinds == s.kinds
  {
  }

  /** Health says Healthy in proxy mode only with the flag up and a process seen:
      the flag is then that of the latest generation, confirmed in its own run, and
      it is the very process and mode that were read when nothing was started
      between the reads. */
  lemma ProxyHealthRestsOnTheLatestRun(run: seq<State>, i: nat)
    requires IsRun(run) && i < |run| && run[i].health.SawFlag?
    requires var h := run[i].health; h.mode == ProxyMode && h.process.Some? && h.ready
    ensures var h := run[i].health;
            && ConfirmedProxy(run[i], h.latest - 1)
            && h.started <= h.process.value + 1 <= h.latest
            && (h.started == h.latest ==> h.process.value == h.latest - 1)
  {
    Reachable(run, i);
  }

  // ------------------------------------------------------------------ manager

  datatype Verdict = Idle | Healthy | Degraded

  class Manager {
    var cmd: Option<nat>
    var mode: Mode
    var proxyReadinessConfirmed: bool

    var kinds: seq<Mode>
    var alive: set<nat>
    var waiting: set<nat>
    ghost var confirmed: set<nat>
    ghost var op: Op
    ghost var health: Health
    ghost var trace: seq<State>

    ghost function View(): State
      reads this
    {
      State(cmd, mode, proxyReadinessConfirmed, kinds, alive, waiting, confirmed, op, health)
    }

    /** The states so far form a run of the machine above. */
    ghost predicate Valid()
      reads this
    {
      IsRun(trace) && trace[|trace| - 1] == View()
    }

    constructor ()
      ensures Valid() && Init(View())
    {
      cmd, mode, proxyReadinessConfirmed := None, Off, false;
      kinds, alive, waiting, confirmed := [], {}, {}, {};
      op, health := Free, Unread;
      trace := [State(None, Off, false, [], {}, {}, {}, Free, Unread)];
    }

    ghost method Record()
      requires IsRun(trace) && Next(trace[|trace| - 1], View())
      modifies this`trace
      ensures Valid() && trace == old(trace) + [View()]
    {
      var longer := trace + [View()];
      forall i: nat | i + 1 < |longer| ensures StepAt(longer, i) {
        if i + 1 < |trace| {
          assert StepAt(trace, i);
        }
      }
      trace := longer;
    }

    lemma Known()
      requires Valid()
      ensures Inv(View())
    {
      Reachable(trace, |trace| - 1);
    }

    /** What the goroutine does when Wait returns. */
    method WaitReturned(g: nat)
      requires Valid() && g in waiting && g !in alive
      modifies this
      ensures Valid() && View() == Cleared(old(View()), g)
    {
      if cmd == Some(g) {
        cmd, mode := None, Off;
      }
      waiting := waiting - {g};
      assert Clears(trace[|trace| - 1], View(), g);
      Record();
    }

    /** Whatever happens meanwhile without the lifecycle lock. */
    method Interfere()
      requires Valid()
      modifies this
      ensures Valid() && View() == old(View()).(cmd := cmd, mode := mode, alive := alive, waiting := waiting)
      ensures (cmd == old(cmd) && mode == old(mode)) || (cmd.None? && mode == Off)
    {
      var keep: set<nat> := *;
      alive := alive * keep;
      Record();
      if cmd.Some? && cmd.value in waiting && cmd.value !in alive {
        var now: bool := *;
        if now {
          WaitReturned(cmd.value);
        }
      }
    }

    ghost method Becomes(next: Op)
      requires Valid() && Lifecycle(View(), View().(op := next))
      modifies this`op, this`trace
      ensures Valid() && op == next
    {
      op := next;
      Record();
    }

    /** startLocked: `fails` is everything from the missing binary to exec. */
    method StartLocked(m: Mode) returns (ok: bool)
      requires Valid() && op == Starting(m)
      modifies this
      ensures Valid()
      ensures ok ==> old(cmd).None? && View() == Started(old(View()), m)
      ensures !ok ==> View() == old(View()).(op := Free)
    {
      if cmd.Some? {
        Becomes(Free);
        return false;
      }
      var fails: bool := *;
      if fails {
        Becomes(Free);
        return false;
      }
      var g := |kinds|;
      cmd, mode, proxyReadinessConfirmed := Some(g), m, false;
      kinds, alive, waiting := kinds + [m], alive + {g}, waiting + {g};
      op := if m == ProxyMode then Polling(g) else Proving(g);
      Record();
      return true;
    }

    method MarkProxyReadinessConfirmed()
      requires Valid() && op.Confirming?
      modifies this
      ensures Valid() && View() == old(View()).(ready := true, confirmed := old(confirmed) + {old(op).g}, op := Free)
    {
      proxyReadinessConfirmed := true;
      confirmed := confirmed + {op.g};
      op := Free;
      Record();
    }

    /** Success means that no process is managed any more. */
    method StopAndWait(polls: nat) returns (ok: bool)
      requires Valid() && op.Stopping?
      modifies this
      ensures Valid() && kinds == old(kinds) && proxyReadinessConfirmed == old(proxyReadinessConfirmed) && health == old(health)
      ensures ok ==> cmd.None? && mode == Off && op == if old(op).again then Starting(ProxyMode) else Free
      ensures !ok ==> op.Free?
    {
      var unstoppable: bool := *;
      if cmd.Some? && unstoppable {
        Becomes(Free); // the signal could not be sent
        return false;
      }
      for i := 0 to polls
        invariant Valid() && op == old(op) && kinds == old(kinds) && health == old(health)
        invariant proxyReadinessConfirmed == old(proxyReadinessConfirmed)
      {
        Interfere();
        if cmd.None? {
          Known();
          Becomes(if op.again then Starting(ProxyMode) else Free);
          return true;
        }
      }
      Becomes(Free);
      return false;
    }

    ghost method Read()
      requires Valid()
      modifies this`health, this`trace
      ensures Valid() && health == NextRead(old(View()))
    {
      health := NextRead(View());
      Record();
    }

    /** Health as a lifecycle operation calls it. `tunnelProof` is the ownership,
        TUN, VPN and journal evidence the other mode asks for. */
    method Health(reachable: bool, journalOpen: bool, tunnelProof: bool) returns (verdict: Verdict, m: Mode)
      requires Valid() && health.Unread?
      modifies this
      ensures Valid() && health.Unread? && op == old(op) && kinds == old(kinds)
      ensures m == old(mode) && (mode == m || mode == Off)
      ensures proxyReadinessConfirmed == old(proxyReadinessConfirmed)
      ensures verdict.Healthy? && m == ProxyMode ==>
                reachable && !journalOpen && proxyReadinessConfirmed && ConfirmedProxy(View(), |kinds| - 1) && old(cmd) == Some(|kinds| - 1)
      ensures verdict.Idle? ==> !journalOpen
      ensures old(mode) == Off ==> verdict == if journalOpen then Degraded else Idle
    {
      Known();
      m := mode;
      Read();
      Interfere();
      var managed := cmd.Some?;
      Read();
      Interfere();
      var ready := proxyReadinessConfirmed;
      Read();
      Known();
      Read();
      if m == Off || !managed {
        verdict := if journalOpen then Degraded else Idle;
      } else if m == ProxyMode {
        verdict := if reachable && ready && !journalOpen then Healthy else Degraded;
      } else {
        verdict := if tunnelProof then Healthy else Degraded;
      }
    }

    /** startSafeProxy: success means that the latest process was started as a
        proxy and confirmed ready in its own generation. */
    method StartSafeProxy(polls: nat) returns (ok: bool)
      requires Valid() && op.Free? && health.Unread?
      modifies this
      ensures Valid() && op.Free?
      ensures ok ==> proxyReadinessConfirmed && ConfirmedProxy(View(), |kinds| - 1)
      ensures |old(kinds)| <= |kinds| <= |old(kinds)| + 1
    {
      var reachable: bool, journalOpen: bool, tunnelProof: bool := *, *, *;
      var verdict, m := Health(reachable, journalOpen, tunnelProof);
      Interfere();
      if mode == ProxyMode && verdict.Healthy? {
        return true;
      }
      if cmd.Some? {
        Becomes(Stopping(true));
        var stopped := StopAndWait(polls);
        if !stopped {
          return false;
        }
      } else {
        Becomes(Starting(ProxyMode));
      }
      var started := StartLocked(ProxyMode);
      if !started {
        return false;
      }
      ok := PollUntilReady(polls);
    }

    method PollUntilReady(polls: nat) returns (ok: bool)
      requires Valid() && op.Polling?
      modifies this
      ensures Valid() && op.Free? && kinds == old(kinds)
      ensures ok ==> proxyReadinessConfirmed && ConfirmedProxy(View(), |kinds| - 1)
    {
      for i := 0 to polls
        invariant Valid() && op == old(op) && kinds == old(kinds)
      {
        Interfere();
        if cmd.None? {
          Becomes(Free);
          return false;
        }
        var listening: bool := *;
        if listening {
          Becomes(Confirming(op.g));
          Interfere();
          MarkProxyReadinessConfirmed();
          Known();
          return true;
        }
      }
      Becomes(Stopping(false));
      var stopped := StopAndWait(polls);
      return false;
    }
  }
}
