/**
  Model of the provisioning coordinator of the AVS Java sample client (class AuthSetup).

  The coordinator keeps a set of access-token listeners and hands every token it receives to each
  of them, and it starts one of two provisioning methods: the companion app (a local server is
  started once) or the companion service (a java.util.Timer task retries the remote provisioning
  attempt every 30 seconds until one succeeds).

  Threads and the timer thread are replaced by sequential events: a firing of the timer task is
  `Tick(attempt)`, where `attempt` is how the foreign `startRemoteProvisioning()` call ends.
*/
module Auth {
  import opened Wrappers

  /** Identity of an AccessTokenListener object; the registry compares listeners by identity. */
  type ListenerId = nat

  type Token = string

  datatype ProvisioningMethod = CompanionApp | CompanionService

  /** How one call of the companion-service auth manager's `startRemoteProvisioning()` ends:
      normally, or with an exception whose message may be null. */
  datatype Attempt = Succeeded | Failed(message: Option<string>)

  /** The java.util.Timer owned by the coordinator: running, stopped by `cancel()`, or stopped
      because an exception escaped a task (the timer thread ends and its queue is discarded). */
  datatype TimerState = Running | Cancelled | Dead

  /** One `scheduleAtFixedRate` registration: first run after `delayMs`, then every `periodMs`. */
  datatype TimerTask = TimerTask(delayMs: nat, periodMs: nat)

  const FirstRunDelayMs: nat := 0
  const RetryPeriodMs: nat := 30 * 1000

  /** Failure messages with this prefix earn an extra "did you sign in" log line, nothing more. */
  const InvalidSessionPrefix: string := "InvalidSessionId"

  /** The provisioning part of an AuthSetup object, as a value. */
  datatype Coordinator = Coordinator(
    provisioningMethod: ProvisioningMethod,
    serverStarts: nat,          // calls of the companion-app server's startServer()
    tasks: seq<TimerTask>,      // tasks scheduled on the timer
    timer: TimerState,
    provisioningSuccess: bool,
    attempts: nat)              // calls of startRemoteProvisioning()

  /** Raised by `scheduleAtFixedRate` on a timer that is no longer running. */
  datatype StartError = TimerAlreadyCancelled

  /** What one firing of the timer task did. */
  datatype TickReport =
    | NotRun                      // the timer is stopped or holds no task: nothing ran
    | AlreadyProvisioned          // the task ran, saw provisioningSuccess and did nothing
    | Provisioned                 // the attempt succeeded; the flag is set, the timer cancelled
    | Retrying(signInHint: bool)  // the attempt failed; signInHint: the "sign in first" log line
    | TimerKilled                 // the attempt failed with a null message; the timer thread died

  /** A freshly constructed AuthSetup: flag false, timer created and running, nothing scheduled. */
  function Init(m: ProvisioningMethod): Coordinator
  {
    Coordinator(m, 0, [], Running, false, 0)
  }

  /** The coordinator's invariant: success was reached by an attempt and stopped the timer, and
      only the configured method has left any trace. */
  predicate Consistent(c: Coordinator)
  {
    && (c.provisioningSuccess ==> c.timer == Cancelled && c.attempts > 0)
    && (c.attempts > 0 ==> c.tasks != [])
    && (c.provisioningMethod == CompanionApp ==> c.tasks == [])
    && (c.provisioningMethod == CompanionService ==> c.serverStarts == 0)
  }

  /** The timer task runs on the next tick only if the timer still runs and holds a task. */
  predicate Fires(c: Coordinator)
  {
    c.timer == Running && c.tasks != []
  }

  /** Whether a tick made a call of startRemoteProvisioning(). */
  predicate Attempted(report: TickReport)
  {
    report.Provisioned? || report.Retrying? || report.TimerKilled?
  }

  /** `startProvisioningThread()`: the companion-app branch starts a thread that starts the server
      once; the companion-service branch builds a thread that is never started and schedules the
      retry task at a fixed rate. */
  function Start(c: Coordinator): (r: Result<Coordinator, StartError>)
    ensures r.Ok? ==> && r.value.attempts == c.attempts
                      && r.value.provisioningSuccess == c.provisioningSuccess
                      && r.value.timer == c.timer
                      && r.value.provisioningMethod == c.provisioningMethod
    ensures c.provisioningMethod == CompanionApp ==>
              r.Ok? && r.value.serverStarts == c.serverStarts + 1 && r.value.tasks == c.tasks
    ensures c.provisioningMethod == CompanionService ==>
              (r.Ok? <==> c.timer == Running) &&
              (r.Ok? ==> r.value.serverStarts == c.serverStarts &&
                         r.value.tasks == c.tasks + [TimerTask(FirstRunDelayMs, RetryPeriodMs)])
    ensures Consistent(c) && r.Ok? ==> Consistent(r.value)
  {
    match c.provisioningMethod
    case CompanionApp =>
      Ok(c.(serverStarts := c.serverStarts + 1))
    case CompanionService =>
      if c.timer == Running then Ok(c.(tasks := c.tasks + [TimerTask(0, 30 * 1000)]))
      else Err(TimerAlreadyCancelled)
  }

  /** One firing of the retry timer task, given how the attempt it makes would end. */
  function TickStep(c: Coordinator, a: Attempt): (r: (Coordinator, TickReport))
    ensures !Fires(c) ==> r == (c, NotRun)
    ensures c.provisioningSuccess ==> r.0 == c && !Attempted(r.1)
    ensures r.0.provisioningMethod == c.provisioningMethod && r.0.serverStarts == c.serverStarts
    ensures r.0.tasks == c.tasks
    ensures Attempted(r.1) <==> Fires(c) && !c.provisioningSuccess
    ensures r.0.attempts == if Attempted(r.1) then c.attempts + 1 else c.attempts
    ensures r.0.provisioningSuccess <==> c.provisioningSuccess || (Attempted(r.1) && a.Succeeded?)
    ensures Attempted(r.1) && a.Succeeded? ==> r.1 == Provisioned && r.0.timer == Cancelled
    ensures Attempted(r.1) && a.Failed? && a.message.Some? ==>
              r.0.timer == Running && r.1 == Retrying(InvalidSessionPrefix <= a.message.value)
    ensures Attempted(r.1) && a == Failed(None) ==> r.0.timer == Dead && r.1 == TimerKilled
    ensures Consistent(c) ==> Consistent(r.0)
  {
    if !Fires(c) then (c, NotRun)
    else if c.provisioningSuccess then (c, AlreadyProvisioned)
    else
      var tried := c.(attempts := c.attempts + 1);
      match a
      case Succeeded => (tried.(provisioningSuccess := true, timer := Cancelled), Provisioned)
      case Failed(Some(m)) => (tried, Retrying(InvalidSessionPrefix <= m))
      case Failed(None) => (tried.(timer := Dead), TimerKilled)
  }

  /** A run of consecutive timer firings; the attempts' outcomes are given in order. */
  function RunTicks(c: Coordinator, attempts: seq<Attempt>): (r: (Coordinator, seq<TickReport>))
    ensures |r.1| == |attempts|
    decreases |attempts|
  {
    if attempts == [] then (c, [])
    else
      var (next, report) := TickStep(c, attempts[0]);
      var (last, reports) := RunTicks(next, attempts[1..]);
      (last, [report] + reports)
  }

  /** Number of ticks in `reports` that made a provisioning attempt. */
  function AttemptCount(reports: seq<TickReport>): nat
  {
    if reports == [] then 0
    else (if Attempted(reports[0]) then 1 else 0) + AttemptCount(reports[1..])
  }

  /** Number of ticks in `reports` whose attempt succeeded. */
  function SuccessCount(reports: seq<TickReport>): nat
  {
    if reports == [] then 0
    else (if reports[0] == Provisioned then 1 else 0) + SuccessCount(reports[1..])
  }

  /** Every failure in `attempts` carries a (non-null) message. */
  predicate FailedWithMessages(attempts: seq<Attempt>)
  {
    forall i :: 0 <= i < |attempts| ==> attempts[i].Failed? && attempts[i].message.Some?
  }

  lemma {:induction false} RunTicksKeepsConsistent(c: Coordinator, attempts: seq<Attempt>)
    requires Consistent(c)
    ensures Consistent(RunTicks(c, attempts).0)
    decreases |attempts|
  {
    if attempts != [] {
      RunTicksKeepsConsistent(TickStep(c, attempts[0]).0, attempts[1..]);
    }
  }

  /** Ticks of a stopped timer, or of one that holds no task, change nothing. */
  lemma {:induction false} StoppedTimerIgnoresTicks(c: Coordinator, attempts: seq<Attempt>)
    requires !Fires(c)
    ensures RunTicks(c, attempts).0 == c
    ensures forall i :: 0 <= i < |attempts| ==> RunTicks(c, attempts).1[i] == NotRun
    decreases |attempts|
  {
    if attempts != [] {
      StoppedTimerIgnoresTicks(c, attempts[1..]);
    }
  }

  /** Once provisioningSuccess is set it is never reset, and no later tick makes an attempt. */
  lemma {:induction false} SuccessIsFinal(c: Coordinator, attempts: seq<Attempt>)
    requires c.provisioningSuccess
    ensures RunTicks(c, attempts).0 == c
    ensures AttemptCount(RunTicks(c, attempts).1) == 0
    decreases |attempts|
  {
    if attempts != [] {
      SuccessIsFinal(c, attempts[1..]);
    }
  }

  /** Every call of startRemoteProvisioning() is made by a tick of the timer task. */
  lemma {:induction false} AttemptsComeFromTicks(c: Coordinator, attempts: seq<Attempt>)
    ensures RunTicks(c, attempts).0.attempts == c.attempts + AttemptCount(RunTicks(c, attempts).1)
    decreases |attempts|
  {
    if attempts != [] {
      AttemptsComeFromTicks(TickStep(c, attempts[0]).0, attempts[1..]);
    }
  }

  /** However many ticks run, at most one of them provisions the device, and none does once
      provisioningSuccess is set. */
  lemma {:induction false} AtMostOneSuccess(c: Coordinator, attempts: seq<Attempt>)
    ensures SuccessCount(RunTicks(c, attempts).1) <= if c.provisioningSuccess then 0 else 1
    decreases |attempts|
  {
    if attempts != [] {
      var (next, report) := TickStep(c, attempts[0]);
      AtMostOneSuccess(next, attempts[1..]);
      if report == Provisioned {
        SuccessIsFinal(next, attempts[1..]);
        AttemptedCoversSuccess(RunTicks(next, attempts[1..]).1);
      }
    }
  }

  /** A tick that provisions is a tick that attempted. */
  lemma {:induction false} AttemptedCoversSuccess(reports: seq<TickReport>)
    ensures SuccessCount(reports) <= AttemptCount(reports)
    decreases |reports|
  {
    if reports != [] {
      AttemptedCoversSuccess(reports[1..]);
    }
  }

  /** Failures with a message, with or without the InvalidSessionId prefix, leave the flag false
      and the timer running, so every tick retries. */
  lemma {:induction false} FailuresKeepRetrying(c: Coordinator, attempts: seq<Attempt>)
    requires Fires(c) && !c.provisioningSuccess
    requires FailedWithMessages(attempts)
    ensures var (last, reports) := RunTicks(c, attempts);
            && Fires(last) && !last.provisioningSuccess
            && last.attempts == c.attempts + |attempts|
            && forall i :: 0 <= i < |attempts| ==>
                 reports[i] == Retrying(InvalidSessionPrefix <= attempts[i].message.value)
    decreases |attempts|
  {
    if attempts != [] {
      FailuresKeepRetrying(TickStep(c, attempts[0]).0, attempts[1..]);
    }
  }

  /** After failures with a message, the first successful attempt sets the flag and cancels the
      timer; the attempt count is exactly the number of ticks up to it, and later ticks do not run. */
  lemma {:induction false} ProvisionedAtFirstSuccess(c: Coordinator, attempts: seq<Attempt>, k: nat)
    requires Fires(c) && !c.provisioningSuccess
    requires k < |attempts| && attempts[k] == Succeeded && FailedWithMessages(attempts[..k])
    ensures var (last, reports) := RunTicks(c, attempts);
            && last.provisioningSuccess && last.timer == Cancelled
            && last.attempts == c.attempts + k + 1
            && reports[k] == Provisioned
            && forall i :: k < i < |attempts| ==> reports[i] == NotRun
    decreases k
  {
    if k == 0 {
      StoppedTimerIgnoresTicks(TickStep(c, attempts[0]).0, attempts[1..]);
    } else {
      assert attempts[0] == attempts[..k][0];
      assert attempts[1..][..k - 1] == attempts[..k][1..];
      ProvisionedAtFirstSuccess(TickStep(c, attempts[0]).0, attempts[1..], k - 1);
    }
  }

  /** A failure whose message is null makes `e.getMessage().startsWith(...)` throw inside the timer
      task; the exception ends the timer thread, so retries stop with the flag still false. */
  lemma {:induction false} NullMessageEndsRetries(c: Coordinator, attempts: seq<Attempt>, k: nat)
    requires Fires(c) && !c.provisioningSuccess
    requires k < |attempts| && attempts[k] == Failed(None) && FailedWithMessages(attempts[..k])
    ensures var (last, reports) := RunTicks(c, attempts);
            && !last.provisioningSuccess && last.timer == Dead
            && last.attempts == c.attempts + k + 1
            && reports[k] == TimerKilled
            && forall i :: k < i < |attempts| ==> reports[i] == NotRun
    decreases k
  {
    if k == 0 {
      StoppedTimerIgnoresTicks(TickStep(c, attempts[0]).0, attempts[1..]);
    } else {
      assert attempts[0] == attempts[..k][0];
      assert attempts[1..][..k - 1] == attempts[..k][1..];
      NullMessageEndsRetries(TickStep(c, attempts[0]).0, attempts[1..], k - 1);
    }
  }

  /** The failure message changes only the log line, never the coordinator's state. */
  lemma MessageOnlyChangesTheHint(c: Coordinator, m1: string, m2: string)
    ensures TickStep(c, Failed(Some(m1))).0 == TickStep(c, Failed(Some(m2))).0
  {
  }

  /** Companion-app mode: the server is started once, nothing is scheduled, and no later tick
      makes an attempt, whatever the attempts would return. */
  lemma {:induction false} CompanionAppStartsServerOnce(attempts: seq<Attempt>)
    ensures var started := Start(Init(CompanionApp));
            && started.Ok?
            && started.value.serverStarts == 1 && started.value.tasks == []
            && RunTicks(started.value, attempts).0 == started.value
            && AttemptCount(RunTicks(started.value, attempts).1) == 0
  {
    var started := Start(Init(CompanionApp)).value;
    StoppedTimerIgnoresTicks(started, attempts);
    NoAttemptsWhenNotRun(RunTicks(started, attempts).1);
  }

  lemma {:induction false} NoAttemptsWhenNotRun(reports: seq<TickReport>)
    requires forall i :: 0 <= i < |reports| ==> reports[i] == NotRun
    ensures AttemptCount(reports) == 0
    decreases |reports|
  {
    if reports != [] {
      NoAttemptsWhenNotRun(reports[1..]);
    }
  }

  /** Companion-service mode: starting schedules one task with delay 0 and period 30000 ms and
      makes no attempt itself (the thread built for it is never started); the first tick then
      makes the first attempt. */
  lemma CompanionServiceFirstAttemptIsATick(a: Attempt)
    ensures var started := Start(Init(CompanionService));
            && started.Ok?
            && started.value.tasks == [TimerTask(0, 30000)]
            && started.value.attempts == 0 && started.value.serverStarts == 0
            && TickStep(started.value, a).0.attempts == 1
  {
  }

  /** A delivery of a token to one listener, in the order the broadcast made them. */
  datatype Delivery = Delivery(listener: ListenerId, token: Token)

  function Recipients(batch: seq<Delivery>): (r: seq<ListenerId>)
    ensures |r| == |batch| && forall i :: 0 <= i < |batch| ==> r[i] == batch[i].listener
  {
    seq(|batch|, i requires 0 <= i < |batch| => batch[i].listener)
  }

  /** `batch` hands `token` to every listener of `listeners` exactly once and to no one else, in
      some order (a HashSet's iteration order is unspecified). */
  predicate IsBroadcast(batch: seq<Delivery>, listeners: set<ListenerId>, token: Token)
  {
    && (forall i :: 0 <= i < |batch| ==> batch[i].token == token)
    && multiset(Recipients(batch)) == multiset(listeners)
  }

  /** `batch` hands `token` to listeners of `listeners` only, each at most once: what a broadcast
      has done when a listener's exception cuts it short. */
  predicate PartOfBroadcast(batch: seq<Delivery>, listeners: set<ListenerId>, token: Token)
  {
    && (forall i :: 0 <= i < |batch| ==> batch[i].token == token)
    && multiset(Recipients(batch)) <= multiset(listeners)
  }

  /** In a broadcast, each registered listener is reached once with the token and an unregistered
      one is not reached; so there are exactly as many deliveries as listeners. */
  lemma BroadcastReachesEachOnce(batch: seq<Delivery>, listeners: set<ListenerId>, token: Token, l: ListenerId)
    requires IsBroadcast(batch, listeners, token)
    ensures multiset(Recipients(batch))[l] == if l in listeners then 1 else 0
    ensures l in listeners <==> Delivery(l, token) in batch
    ensures |batch| == |listeners|
  {
  }

  /** A broadcast cut short by `thrower`: it was reached last, after listeners that do not throw. */
  predicate StoppedBy(batch: seq<Delivery>, thrower: ListenerId, listeners: set<ListenerId>, failing: set<ListenerId>)
  {
    && thrower in listeners && thrower in failing
    && batch != [] && batch[|batch| - 1].listener == thrower
    && forall i :: 0 <= i < |batch| - 1 ==> batch[i].listener !in failing
  }

  /** One more delivery to a listener still to be reached keeps the broadcast's bookkeeping. */
  lemma DeliverOne(batch: seq<Delivery>, remaining: set<ListenerId>, listeners: set<ListenerId>, d: Delivery)
    requires d.listener in remaining
    requires multiset(Recipients(batch)) + multiset(remaining) == multiset(listeners)
    ensures multiset(Recipients(batch + [d])) + multiset(remaining - {d.listener}) == multiset(listeners)
    ensures d.listener in listeners
  {
    assert Recipients(batch + [d]) == Recipients(batch) + [d.listener];
    assert multiset(remaining) == multiset(remaining - {d.listener}) + multiset{d.listener};
    assert d.listener in multiset(listeners);
  }

  /** A broadcast that reached every listener without an exception met no failing listener. */
  lemma CompleteBroadcastAvoidsFailing(batch: seq<Delivery>, listeners: set<ListenerId>, failing: set<ListenerId>)
    requires multiset(Recipients(batch)) == multiset(listeners)
    requires forall i :: 0 <= i < |batch| ==> batch[i].listener !in failing
    ensures listeners !! failing
  {
    forall l | l in listeners
      ensures l !in failing
    {
      assert l in multiset(listeners);
      assert l in Recipients(batch);
    }
  }

  /**
    An AuthSetup object. Its provisioning fields are `State()`; `listeners` is the HashSet of
    access-token listeners; `deliveries` logs every `listener.onAccessTokenReceived(token)` call the
    coordinator has made, in order.
  */
  class AuthSetup {
    const provisioningMethod: ProvisioningMethod
    var listeners: set<ListenerId>
    var deliveries: seq<Delivery>
    var provisioningSuccess: bool
    var timer: TimerState
    var tasks: seq<TimerTask>
    var serverStarts: nat
    var attempts: nat

    function State(): Coordinator
      reads this
    {
      Coordinator(provisioningMethod, serverStarts, tasks, timer, provisioningSuccess, attempts)
    }

    ghost predicate Valid()
      reads this
    {
      Consistent(State())
    }

    constructor (m: ProvisioningMethod)
      ensures Valid() && State() == Init(m)
      ensures listeners == {} && deliveries == []
    {
      provisioningMethod := m;
      listeners, deliveries := {}, [];
      provisioningSuccess, timer, tasks := false, Running, [];
      serverStarts, attempts := 0, 0;
    }

    /** `addAccessTokenListener`: HashSet.add, which ignores a listener already present. */
    method AddAccessTokenListener(l: ListenerId)
      modifies this`listeners
      ensures l in old(listeners) ==> listeners == old(listeners)
      ensures l !in old(listeners) ==> listeners == old(listeners) + {l} && |listeners| == |old(listeners)| + 1
    {
      listeners := listeners + {l};
    }

    /** `onAccessTokenReceived`: calls every registered listener with the token, one after the
        other, on the live set. A listener of `failing` throws from its callback; the exception
        is not caught, so it ends the broadcast and is passed on to the caller as `thrown`. */
    method OnAccessTokenReceived(token: Token, failing: set<ListenerId>) returns (thrown: Option<ListenerId>)
      modifies this`deliveries
      ensures |deliveries| >= |old(deliveries)| && deliveries[..|old(deliveries)|] == old(deliveries)
      ensures PartOfBroadcast(deliveries[|old(deliveries)|..], listeners, token)
      ensures thrown == None <==> listeners !! failing
      ensures thrown == None ==> IsBroadcast(deliveries[|old(deliveries)|..], listeners, token)
      ensures thrown.Some? ==> StoppedBy(deliveries[|old(deliveries)|..], thrown.value, listeners, failing)
    {
      var remaining := listeners;
      var batch: seq<Delivery> := [];
      thrown := None;
      while remaining != {} && thrown == None
        invariant remaining <= listeners
        invariant deliveries == old(deliveries) + batch
        invariant forall i :: 0 <= i < |batch| ==> batch[i].token == token
        invariant multiset(Recipients(batch)) + multiset(remaining) == multiset(listeners)
        invariant thrown == None ==> forall i :: 0 <= i < |batch| ==> batch[i].listener !in failing
        invariant thrown.Some? ==> StoppedBy(batch, thrown.value, listeners, failing)
        decreases remaining
      {
        var l :| l in remaining;
        DeliverOne(batch, remaining, listeners, Delivery(l, token));
        deliveries := deliveries + [Delivery(l, token)];
        batch := batch + [Delivery(l, token)];
        remaining := remaining - {l};
        if l in failing {
          thrown := Some(l);
        }
      }
      assert deliveries[|old(deliveries)|..] == batch;
      assert multiset(Recipients(batch)) <= multiset(listeners);
      if thrown == None {
        CompleteBroadcastAvoidsFailing(batch, listeners, failing);
      }
    }

    /** `startProvisioningThread`: see `Start`; an Err means scheduleAtFixedRate threw. */
    method StartProvisioningThread() returns (error: Option<StartError>)
      requires Valid()
      modifies this
      ensures Valid()
      ensures Start(old(State())).Ok? ==> error == None && State() == Start(old(State())).value
      ensures Start(old(State())).Err? ==> error == Some(Start(old(State())).error) && State() == old(State())
      ensures listeners == old(listeners) && deliveries == old(deliveries)
    {
      if provisioningMethod == CompanionApp {
        serverStarts := serverStarts + 1;
        error := None;
      } else if timer == Running {
        tasks := tasks + [TimerTask(FirstRunDelayMs, RetryPeriodMs)];
        error := None;
      } else {
        error := Some(TimerAlreadyCancelled);
      }
    }

    /** One firing of the timer task; `a` is how its startRemoteProvisioning() call would end. */
    method Tick(a: Attempt) returns (report: TickReport)
      requires Valid()
      modifies this
      ensures Valid()
      ensures (State(), report) == TickStep(old(State()), a)
      ensures listeners == old(listeners) && deliveries == old(deliveries)
    {
      if timer != Running || tasks == [] {
        report := NotRun;
      } else if provisioningSuccess {
        report := AlreadyProvisioned;
      } else {
        attempts := attempts + 1;
        match a {
          case Succeeded =>
            provisioningSuccess := true;
            timer := Cancelled;
            report := Provisioned;
          case Failed(Some(m)) =>
            report := Retrying(InvalidSessionPrefix <= m);
          case Failed(None) =>
            timer := Dead;
            report := TimerKilled;
        }
      }
    }
  }
}
