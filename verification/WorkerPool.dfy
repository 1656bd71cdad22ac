/** WorkerPool: a bounded queue, worker threads sleeping on a condition variable, and
    wait_idle. */
module WorkerPool {
  import opened Sequences

  /** The fields guarded by mutex_. */
  datatype Fields<T> = Fields(tasks: seq<T>, maxQueue: nat, stopping: bool, accepting: bool, active: nat)

  /** The predicate wait_idle waits for. */
  predicate Idle<T>(f: Fields<T>) { |f.tasks| == 0 && f.active == 0 }

  // ---- the critical sections ----

  function SubmitSection<T>(f: Fields<T>, task: T): (Fields<T>, bool) {
    if f.stopping || !f.accepting || |f.tasks| >= f.maxQueue then (f, false)
    else (f.(tasks := f.tasks + [task]), true)
  }

  /** What a worker does when it evaluates the wait predicate under the lock. */
  datatype Decision<T> = GoToSleep | Return | Work(task: T)

  function LockSection<T>(f: Fields<T>): (Fields<T>, Decision<T>) {
    if !f.stopping && |f.tasks| == 0 then (f, GoToSleep)
    else if f.stopping && |f.tasks| == 0 then (f, Return)
    else (f.(tasks := f.tasks[1..], active := f.active + 1), Work(f.tasks[0]))
  }

  /** After the task; the bool says that cv_idle_ is notified. */
  function FinishSection<T>(f: Fields<T>): (Fields<T>, bool)
    requires f.active > 0
  {
    (f.(active := f.active - 1), f.active == 1 && |f.tasks| == 0)
  }

  class WorkerPool<T> {
    var tasks: seq<T>
    const maxQueue: nat
    var stopping: bool
    var accepting: bool
    var active: nat

    function View(): Fields<T>
      reads this
    {
      Fields(tasks, maxQueue, stopping, accepting, active)
    }

    constructor (maxQueue: nat)
      ensures View() == Fields([], maxQueue, false, true, 0)
    {
      this.maxQueue := maxQueue;
      tasks, stopping, accepting, active := [], false, true, 0;
    }

    method TrySubmit(task: T) returns (ok: bool)
      modifies this
      ensures (View(), ok) == SubmitSection(old(View()), task)
      ensures ok <==> !old(stopping) && old(accepting) && |old(tasks)| < maxQueue
      ensures tasks == if ok then old(tasks) + [task] else old(tasks)
      ensures stopping == old(stopping) && accepting == old(accepting) && active == old(active)
    {
      if stopping || !accepting { return false; }
      if |tasks| >= maxQueue { return false; }
      tasks := tasks + [task];
      return true;
    }

    method StopAccepting()
      modifies this
      ensures View() == old(View()).(accepting := false)
    {
      accepting := false;
    }

    method BeginDestruction()
      modifies this
      ensures View() == old(View()).(stopping := true, accepting := false)
    {
      stopping := true;
      accepting := false;
    }

    method NextTask() returns (d: Decision<T>)
      modifies this
      ensures (View(), d) == LockSection(old(View()))
      ensures d.GoToSleep? <==> old(tasks) == [] && !old(stopping)
      ensures d.Return? <==> old(tasks) == [] && old(stopping)
      ensures if d.Work? then old(tasks) == [d.task] + tasks && active == old(active) + 1
              else tasks == old(tasks) && active == old(active)
      ensures stopping == old(stopping) && accepting == old(accepting)
    {
      if !(stopping || |tasks| > 0) { return GoToSleep; }
      if stopping && |tasks| == 0 { return Return; }
      d := Work(tasks[0]);
      tasks := tasks[1..];
      active := active + 1;
    }

    method TaskDone() returns (notifyIdle: bool)
      requires active > 0
      modifies this
      ensures (View(), notifyIdle) == FinishSection(old(View()))
      ensures active == old(active) - 1 && (notifyIdle <==> active == 0 && tasks == [])
      ensures tasks == old(tasks) && stopping == old(stopping) && accepting == old(accepting)
    {
      var before := active;
      active := active - 1;
      notifyIdle := before == 1 && |tasks| == 0;
    }
  }

  // ---- the protocol ----

  /** Awake: about to take the lock and evaluate the wait predicate.  Running names the
      task by its position among the accepted ones. */
  datatype Worker = Awake | Asleep | Running(task: nat) | Exited

  datatype Waiter = Checking | WaitAsleep | Returned(idle: bool)

  /** submitNotices: try_submit calls between unlock and notify_one.  stopNotice: the
      destructor between unlock and notify_all.  accepted, claimed and finished are history
      variables. */
  datatype System<T> = System(fields: Fields<T>, workers: seq<Worker>, waiters: seq<Waiter>,
                              submitNotices: nat, stopNotice: bool,
                              accepted: seq<T>, claimed: nat, finished: set<nat>)

  datatype Event<T> =
    | Submit(task: T)
    | NotifyOne(w: nat)
    | NotifyNobody
    | Spurious(w: nat)
    | Lock(w: nat)
    | Finish(w: nat)
    | StopAccepting
    | Destroy
    | NotifyAll
    | WaitIdle
    | WaiterWakes(i: nat)
    | WaiterChecks(i: nat, timedOut: bool)

  ghost predicate Init<T>(s: System<T>) {
    && s.fields.tasks == [] && s.fields.active == 0 && !s.fields.stopping && s.fields.accepting
    && (forall w :: 0 <= w < |s.workers| ==> s.workers[w] == Awake)
    && s.waiters == [] && s.submitNotices == 0 && !s.stopNotice
    && s.accepted == [] && s.claimed == 0 && s.finished == {}
  }

  ghost predicate SomeoneSleeps(ws: seq<Worker>) {
    exists w :: 0 <= w < |ws| && ws[w] == Asleep
  }

  ghost predicate Enabled<T>(s: System<T>, e: Event<T>) {
    match e
    case Submit(_) => true
    case NotifyOne(w) => s.submitNotices > 0 && w < |s.workers| && s.workers[w] == Asleep
    case NotifyNobody => s.submitNotices > 0 && !SomeoneSleeps(s.workers)
    case Spurious(w) => w < |s.workers| && s.workers[w] == Asleep
    case Lock(w) => w < |s.workers| && s.workers[w] == Awake
    case Finish(w) => w < |s.workers| && s.workers[w].Running? && s.fields.active > 0
    case StopAccepting => true
    case Destroy => !s.fields.stopping
    case NotifyAll => s.stopNotice
    case WaitIdle => true
    case WaiterWakes(i) => i < |s.waiters| && s.waiters[i] == WaitAsleep
    case WaiterChecks(i, _) => i < |s.waiters| && s.waiters[i] == Checking
  }

  function WakeAll(ws: seq<Worker>): (r: seq<Worker>)
    ensures |r| == |ws|
    ensures forall i :: 0 <= i < |ws| ==> r[i] == if ws[i] == Asleep then Awake else ws[i]
  {
    if ws == [] then [] else [if ws[0] == Asleep then Awake else ws[0]] + WakeAll(ws[1..])
  }

  function WakeWaiters(ws: seq<Waiter>): (r: seq<Waiter>)
    ensures |r| == |ws|
    ensures forall i :: 0 <= i < |ws| ==> r[i] == if ws[i] == WaitAsleep then Checking else ws[i]
  {
    seq(|ws|, i requires 0 <= i < |ws| => if ws[i] == WaitAsleep then Checking else ws[i])
  }

  ghost function Step<T>(s: System<T>, e: Event<T>): System<T>
    requires Enabled(s, e)
  {
    match e
    case Submit(task) =>
      var (f, ok) := SubmitSection(s.fields, task);
      if ok then s.(fields := f, submitNotices := s.submitNotices + 1, accepted := s.accepted + [task]) else s
    case NotifyOne(w) =>
      s.(submitNotices := s.submitNotices - 1, workers := s.workers[w := Awake])
    case NotifyNobody =>
      s.(submitNotices := s.submitNotices - 1)
    case Spurious(w) =>
      s.(workers := s.workers[w := Awake])
    case Lock(w) =>
      var (f, d) := LockSection(s.fields);
      (match d
       case GoToSleep => s.(workers := s.workers[w := Asleep])
       case Return => s.(workers := s.workers[w := Exited])
       case Work(_) => s.(fields := f, workers := s.workers[w := Running(s.claimed)], claimed := s.claimed + 1))
    case Finish(w) =>
      var (f, notify) := FinishSection(s.fields);
      s.(fields := f, workers := s.workers[w := Awake], finished := s.finished + {s.workers[w].task},
         waiters := if notify then WakeWaiters(s.waiters) else s.waiters)
    case StopAccepting =>
      s.(fields := s.fields.(accepting := false))
    case Destroy =>
      s.(fields := s.fields.(stopping := true, accepting := false), stopNotice := true)
    case NotifyAll =>
      s.(workers := WakeAll(s.workers), stopNotice := false)
    case WaitIdle =>
      s.(waiters := s.waiters + [Checking])
    case WaiterWakes(i) =>
      s.(waiters := s.waiters[i := Checking])
    case WaiterChecks(i, timedOut) =>
      s.(waiters := s.waiters[i := if Idle(s.fields) then Returned(true) else if timedOut then Returned(false) else WaitAsleep])
  }

  // ---- counting workers ----

  predicate IsAwake(w: Worker) { w == Awake }
  predicate IsRunning(w: Worker) { w.Running? }

  function Count(ws: seq<Worker>, p: Worker -> bool): nat {
    if ws == [] then 0 else (if p(ws[0]) then 1 else 0) + Count(ws[1..], p)
  }

  lemma {:induction false} CountUpdate(ws: seq<Worker>, i: nat, w: Worker, p: Worker -> bool)
    requires i < |ws|
    ensures Count(ws[i := w], p) + (if p(ws[i]) then 1 else 0) == Count(ws, p) + (if p(w) then 1 else 0)
  {
    if i > 0 {
      CountUpdate(ws[1..], i - 1, w, p);
      assert ws[i := w][1..] == ws[1..][i - 1 := w];
    } else {
      assert ws[i := w][1..] == ws[1..];
    }
  }

  lemma {:induction false} CountAll(ws: seq<Worker>, p: Worker -> bool)
    ensures Count(ws, p) == 0 <==> forall i :: 0 <= i < |ws| ==> !p(ws[i])
  {
    if ws != [] { CountAll(ws[1..], p); }
  }

  lemma {:induction false} CountRunningWakeAll(ws: seq<Worker>)
    ensures Count(WakeAll(ws), IsRunning) == Count(ws, IsRunning)
  {
    if ws != [] {
      CountRunningWakeAll(ws[1..]);
      assert WakeAll(ws)[1..] == WakeAll(ws[1..]);
    }
  }

  // ---- what every state keeps ----

  /** Accepted tasks are claimed in order; the claimed ones are running or finished. */
  ghost predicate TasksOk<T>(s: System<T>) {
    && s.claimed <= |s.accepted|
    && s.fields.tasks == s.accepted[s.claimed..]
    && |s.fields.tasks| <= s.fields.maxQueue
    && s.fields.active == Count(s.workers, IsRunning)
    && |s.finished| + s.fields.active == s.claimed
    && (forall i :: i in s.finished ==> i < s.claimed)
    && RunsDistinct(s.workers, s.claimed, s.finished)
  }

  /** Enough workers are awake, running or about to be notified for the queued tasks. */
  ghost predicate WakeOk<T>(s: System<T>) {
    && (SomeoneSleeps(s.workers) ==>
          |s.fields.tasks| <= Count(s.workers, IsAwake) + Count(s.workers, IsRunning) + s.submitNotices)
    && (s.fields.stopping && SomeoneSleeps(s.workers) ==> s.stopNotice)
    && (s.fields.stopping ==> !s.fields.accepting)
    && (forall w :: 0 <= w < |s.workers| && s.workers[w] == Exited ==> s.fields.stopping && |s.fields.tasks| == 0)
    && (Idle(s.fields) ==> forall i :: 0 <= i < |s.waiters| ==> s.waiters[i] != WaitAsleep)
  }

  ghost predicate Inv<T>(s: System<T>) { TasksOk(s) && WakeOk(s) }

  /** No two running workers share a task, and none runs a finished one. */
  ghost predicate RunsDistinct(ws: seq<Worker>, claimed: nat, finished: set<nat>) {
    && (forall w :: 0 <= w < |ws| && ws[w].Running? ==> ws[w].task < claimed && ws[w].task !in finished)
    && (forall v, w :: 0 <= v < w < |ws| && ws[v].Running? && ws[w].Running? ==> ws[v].task != ws[w].task)
  }

  lemma {:induction false} DistinctUpdate(ws: seq<Worker>, claimed: nat, finished: set<nat>, i: nat, w: Worker)
    requires i < |ws| && RunsDistinct(ws, claimed, finished)
    ensures !w.Running? ==> RunsDistinct(ws[i := w], claimed, finished)
    ensures !w.Running? && ws[i].Running? ==> RunsDistinct(ws[i := w], claimed, finished + {ws[i].task})
    ensures w == Running(claimed) && claimed !in finished ==> RunsDistinct(ws[i := w], claimed + 1, finished)
  {
  }

  lemma {:induction false} LockKeepsTasks<T>(s: System<T>, w: nat)
    requires TasksOk(s) && Enabled(s, Lock(w))
    ensures TasksOk(Step(s, Lock(w)))
  {
    var v := Step(s, Lock(w)).workers[w];
    CountUpdate(s.workers, w, v, IsRunning);
    DistinctUpdate(s.workers, s.claimed, s.finished, w, v);
    hide RunsDistinct, Count;
  }

  lemma {:induction false} FinishKeepsTasks<T>(s: System<T>, w: nat)
    requires TasksOk(s) && Enabled(s, Finish(w))
    ensures TasksOk(Step(s, Finish(w)))
  {
    CountUpdate(s.workers, w, Awake, IsRunning);
    DistinctUpdate(s.workers, s.claimed, s.finished, w, Awake);
    assert s.workers[w].task !in s.finished && s.workers[w].task < s.claimed;
    hide RunsDistinct, Count;
  }

  lemma {:induction false} WakeKeepsTasks<T>(s: System<T>, w: nat)
    requires TasksOk(s) && w < |s.workers| && s.workers[w] == Asleep
    ensures TasksOk(s.(workers := s.workers[w := Awake]))
  {
    CountUpdate(s.workers, w, Awake, IsRunning);
    DistinctUpdate(s.workers, s.claimed, s.finished, w, Awake);
    hide RunsDistinct, Count;
  }

  lemma {:induction false} SubmitKeepsTasks<T>(s: System<T>, task: T)
    requires TasksOk(s)
    ensures TasksOk(Step(s, Submit(task)))
  {
    assert s.accepted[s.claimed..] + [task] == (s.accepted + [task])[s.claimed..];
    hide RunsDistinct, Count;
  }

  lemma {:induction false} NotifyAllKeepsTasks<T>(s: System<T>)
    requires TasksOk(s)
    ensures TasksOk(s.(workers := WakeAll(s.workers)))
  {
    CountRunningWakeAll(s.workers);
    hide Count, WakeAll;
  }

  lemma {:induction false} StepKeepsTasks<T>(s: System<T>, e: Event<T>)
    requires TasksOk(s) && Enabled(s, e)
    ensures TasksOk(Step(s, e))
  {
    match e {
      case Submit(task) => SubmitKeepsTasks(s, task);
      case NotifyOne(w) => WakeKeepsTasks(s, w);
      case Spurious(w) => WakeKeepsTasks(s, w);
      case Lock(w) => LockKeepsTasks(s, w);
      case Finish(w) => FinishKeepsTasks(s, w);
      case NotifyAll => NotifyAllKeepsTasks(s);
      case NotifyNobody =>
      case StopAccepting =>
      case Destroy =>
      case WaitIdle =>
      case WaiterWakes(i) =>
      case WaiterChecks(i, timedOut) =>
    }
    hide RunsDistinct, Count, WakeAll, WakeWaiters, SomeoneSleeps;
  }

  lemma {:induction false} LockKeepsWake<T>(s: System<T>, w: nat)
    requires TasksOk(s) && WakeOk(s) && Enabled(s, Lock(w))
    ensures WakeOk(Step(s, Lock(w)))
  {
    WorkerMoves(s, Step(s, Lock(w)), w);
    hide Count;
  }

  lemma {:induction false} FinishKeepsWake<T>(s: System<T>, w: nat)
    requires TasksOk(s) && WakeOk(s) && Enabled(s, Finish(w))
    ensures WakeOk(Step(s, Finish(w)))
  {
    WorkerMoves(s, Step(s, Finish(w)), w);
    hide Count;
  }

  lemma {:induction false} WakeKeepsWake<T>(s: System<T>, w: nat, notices: nat)
    requires WakeOk(s) && w < |s.workers| && s.workers[w] == Asleep && notices <= s.submitNotices <= notices + 1
    ensures WakeOk(s.(workers := s.workers[w := Awake], submitNotices := notices))
  {
    assert SomeoneSleeps(s.workers);
    WorkerMoves(s, s.(workers := s.workers[w := Awake], submitNotices := notices), w);
    hide Count;
  }

  lemma {:induction false} StepKeepsWake<T>(s: System<T>, e: Event<T>)
    requires TasksOk(s) && WakeOk(s) && Enabled(s, e)
    ensures WakeOk(Step(s, e))
  {
    match e {
      case NotifyOne(w) => WakeKeepsWake(s, w, s.submitNotices - 1);
      case Spurious(w) => WakeKeepsWake(s, w, s.submitNotices);
      case Lock(w) => LockKeepsWake(s, w);
      case Finish(w) => FinishKeepsWake(s, w);
      case NotifyAll => assert !SomeoneSleeps(WakeAll(s.workers));
      case Submit(task) =>
      case NotifyNobody =>
      case StopAccepting =>
      case Destroy =>
      case WaitIdle =>
      case WaiterWakes(i) =>
      case WaiterChecks(i, timedOut) =>
    }
    hide Count, SomeoneSleeps, TasksOk;
  }

  lemma {:induction false} WorkerMoves<T>(s: System<T>, t: System<T>, w: nat)
    requires w < |s.workers| && |t.workers| == |s.workers| && t.workers == s.workers[w := t.workers[w]]
    ensures Count(t.workers, IsAwake) + (if IsAwake(s.workers[w]) then 1 else 0) == Count(s.workers, IsAwake) + (if IsAwake(t.workers[w]) then 1 else 0)
    ensures Count(t.workers, IsRunning) + (if IsRunning(s.workers[w]) then 1 else 0) == Count(s.workers, IsRunning) + (if IsRunning(t.workers[w]) then 1 else 0)
    ensures t.workers[w] != Asleep && SomeoneSleeps(t.workers) ==> SomeoneSleeps(s.workers)
  {
    CountUpdate(s.workers, w, t.workers[w], IsAwake);
    CountUpdate(s.workers, w, t.workers[w], IsRunning);
    if t.workers[w] != Asleep && SomeoneSleeps(t.workers) {
      var v :| 0 <= v < |t.workers| && t.workers[v] == Asleep;
      assert s.workers[v] == Asleep;
    }
  }

  ghost predicate Runs<T>(s: System<T>, events: seq<Event<T>>, t: System<T>)
    decreases |events|
  {
    if events == [] then s == t
    else Enabled(s, events[0]) && Runs(Step(s, events[0]), events[1..], t)
  }

  lemma {:induction false} InitInv<T>(s: System<T>)
    requires Init(s)
    ensures Inv(s)
  {
    CountAll(s.workers, IsRunning);
  }

  lemma {:induction false} RunsKeepInv<T>(s: System<T>, events: seq<Event<T>>, t: System<T>)
    requires Inv(s) && Runs(s, events, t)
    ensures Inv(t)
    decreases |events|
  {
    hide Step, Enabled, TasksOk, WakeOk;
    if events != [] {
      StepKeepsTasks(s, events[0]);
      StepKeepsWake(s, events[0]);
      RunsKeepInv(Step(s, events[0]), events[1..], t);
    }
  }

  // ---- the promises ----

  /** Nothing is stranded: while a worker sleeps there are at most as many queued tasks as
      workers awake or running plus notifications under way; so with every worker asleep
      and no notification under way the queue is empty. */
  lemma {:induction false} NoStrandedTask<T>(s0: System<T>, events: seq<Event<T>>, s: System<T>)
    requires Init(s0) && Runs(s0, events, s)
    ensures SomeoneSleeps(s.workers) ==>
      |s.fields.tasks| <= Count(s.workers, IsAwake) + Count(s.workers, IsRunning) + s.submitNotices
    ensures |s.workers| > 0 && (forall w :: 0 <= w < |s.workers| ==> s.workers[w] == Asleep) && s.submitNotices == 0
      ==> s.fields.tasks == []
  {
    InitInv(s0);
    RunsKeepInv(s0, events, s);
    if |s.workers| > 0 && forall w :: 0 <= w < |s.workers| ==> s.workers[w] == Asleep {
      assert s.workers[0] == Asleep;
      CountAll(s.workers, IsAwake);
      CountAll(s.workers, IsRunning);
    }
  }

  /** Conservation: every accepted task is exactly one of finished, running or queued, the
      queue is the accepted tasks not claimed yet in order of acceptance, it never exceeds
      its bound, and active_ is the number of running workers. */
  lemma {:induction false} Conservation<T>(s0: System<T>, events: seq<Event<T>>, s: System<T>)
    requires Init(s0) && Runs(s0, events, s)
    ensures |s.accepted| == |s.finished| + Count(s.workers, IsRunning) + |s.fields.tasks|
    ensures s.claimed <= |s.accepted| && s.fields.tasks == s.accepted[s.claimed..]
    ensures |s.fields.tasks| <= s.fields.maxQueue
    ensures s.fields.active == Count(s.workers, IsRunning)
    ensures forall w :: 0 <= w < |s.workers| && s.workers[w].Running? ==> s.workers[w].task < s.claimed && s.workers[w].task !in s.finished
  {
    InitInv(s0);
    RunsKeepInv(s0, events, s);
  }

  /** The pool becomes idle only in the section that notifies, and then no waiter is left
      asleep: wait_idle misses no transition. */
  lemma {:induction false} IdleIsNotified<T>(s0: System<T>, events: seq<Event<T>>, s: System<T>, e: Event<T>)
    requires Init(s0) && Runs(s0, events, s) && Enabled(s, e)
    requires !Idle(s.fields) && Idle(Step(s, e).fields)
    ensures e.Finish? && FinishSection(s.fields).1
    ensures forall i :: 0 <= i < |s.waiters| ==> Step(s, e).waiters[i] != WaitAsleep
  {
    InitInv(s0);
    RunsKeepInv(s0, events, s);
  }

  ghost predicate AllFinished<T>(s: System<T>) {
    forall i :: i in s.finished <==> 0 <= i < |s.accepted|
  }

  function Below(n: nat): (r: set<nat>)
    ensures |r| == n
    ensures forall i: nat :: i in r <==> i < n
  {
    if n == 0 then {} else Below(n - 1) + {n - 1}
  }

  lemma {:induction false} FullSet(n: nat, xs: set<nat>)
    requires |xs| == n && forall i :: i in xs ==> i < n
    ensures forall i: nat :: i < n ==> i in xs
  {
    assert xs <= Below(n);
    if j: nat :| j < n && j !in xs {
      SubsetSize(xs, Below(n) - {j});
    }
  }

  lemma {:induction false} IdleMeansAllFinished<T>(s: System<T>)
    requires Inv(s) && Idle(s.fields)
    ensures AllFinished(s)
  {
    assert s.claimed == |s.accepted| by { assert |s.accepted[s.claimed..]| == 0; }
    FullSet(s.claimed, s.finished);
  }

  lemma {:induction false} IdleStays<T>(s: System<T>, e: Event<T>)
    requires Inv(s) && !s.fields.accepting && Idle(s.fields) && Enabled(s, e)
    ensures var u := Step(s, e); Inv(u) && !u.fields.accepting && Idle(u.fields) && u.accepted == s.accepted
  {
    StepKeepsTasks(s, e);
    StepKeepsWake(s, e);
    CountAll(s.workers, IsRunning);
    hide TasksOk, WakeOk, SomeoneSleeps, Count;
  }

  lemma {:induction false} IdleForGood<T>(s: System<T>, events: seq<Event<T>>, t: System<T>)
    requires Inv(s) && !s.fields.accepting && Idle(s.fields) && Runs(s, events, t)
    ensures Inv(t) && !t.fields.accepting && Idle(t.fields) && t.accepted == s.accepted
    decreases |events|
  {
    hide Inv, Idle, Enabled, Step;
    if events != [] {
      IdleStays(s, events[0]);
      IdleForGood(Step(s, events[0]), events[1..], t);
    }
  }

  /** After stop_accepting, a wait_idle that returns true means that every accepted task
      has finished, now and in every later state. */
  lemma {:induction false} TrueWaitIsFinal<T>(s0: System<T>, events: seq<Event<T>>, s: System<T>, i: nat, timedOut: bool, later: seq<Event<T>>, t: System<T>)
    requires Init(s0) && Runs(s0, events, s) && !s.fields.accepting
    requires Enabled(s, WaiterChecks(i, timedOut)) && Step(s, WaiterChecks(i, timedOut)).waiters[i] == Returned(true)
    requires Runs(Step(s, WaiterChecks(i, timedOut)), later, t)
    ensures AllFinished(t) && t.accepted == s.accepted && t.fields.tasks == []
  {
    InitInv(s0);
    RunsKeepInv(s0, events, s);
    var u := Step(s, WaiterChecks(i, timedOut));
    assert Idle(s.fields) && u.fields == s.fields;
    StepKeepsTasks(s, WaiterChecks(i, timedOut));
    StepKeepsWake(s, WaiterChecks(i, timedOut));
    IdleForGood(u, later, t);
    IdleMeansAllFinished(t);
  }

  // ---- what is accepted, and who runs it ----

  /** The pool takes no more work: stop_accepting or the destructor has come. */
  predicate Closes<T>(e: Event<T>) { e.StopAccepting? || e.Destroy? }

  lemma {:induction false} StepAccepting<T>(s: System<T>, e: Event<T>)
    requires Enabled(s, e)
    ensures var t := Step(s, e);
      && t.fields.maxQueue == s.fields.maxQueue
      && (t.fields.accepting <==> s.fields.accepting && !Closes(e))
      && (t.fields.stopping ==> s.fields.stopping || Closes(e))
  {
    hide WakeAll, WakeWaiters, SomeoneSleeps;
  }

  lemma {:induction false} RunAccepting<T>(s: System<T>, events: seq<Event<T>>, t: System<T>)
    requires Runs(s, events, t)
    ensures t.fields.maxQueue == s.fields.maxQueue
    ensures t.fields.accepting <==> s.fields.accepting && forall i :: 0 <= i < |events| ==> !Closes(events[i])
    ensures t.fields.stopping ==> s.fields.stopping || exists i :: 0 <= i < |events| && Closes(events[i])
    decreases |events|
  {
    hide Enabled, Step, Closes;
    if events != [] {
      StepAccepting(s, events[0]);
      RunAccepting(Step(s, events[0]), events[1..], t);
      assert forall i :: 0 < i < |events| ==> events[i] == events[1..][i - 1];
    }
  }

  /** Which submissions are accepted: over every run, a task is accepted exactly when neither
      stop_accepting nor the destructor has come and fewer tasks than the bound are accepted
      and not claimed yet; then it is queued last and nothing else changes, and otherwise
      nothing at all. */
  lemma {:induction false} AcceptedExactly<T>(s0: System<T>, events: seq<Event<T>>, s: System<T>, task: T)
    requires Init(s0) && Runs(s0, events, s)
    ensures var t := Step(s, Submit(task));
      if (forall i :: 0 <= i < |events| ==> !Closes(events[i])) && |s.accepted| - s.claimed < s0.fields.maxQueue then
        && t.accepted == s.accepted + [task] && t.fields.tasks == s.fields.tasks + [task]
        && t.submitNotices == s.submitNotices + 1 && t.workers == s.workers && t.claimed == s.claimed
      else t == s
  {
    InitInv(s0);
    RunsKeepInv(s0, events, s);
    RunAccepting(s0, events, s);
    hide Runs, RunsDistinct, Count, WakeOk, Closes;
  }

  /** A worker that finds work takes the oldest task nobody has claimed; it goes to sleep only
      over an empty queue and returns only from an empty queue of a stopping pool. */
  lemma {:induction false} ClaimsTheOldest<T>(s0: System<T>, events: seq<Event<T>>, s: System<T>, w: nat)
    requires Init(s0) && Runs(s0, events, s) && Enabled(s, Lock(w))
    ensures var t, d := Step(s, Lock(w)), LockSection(s.fields).1;
      if s.claimed < |s.accepted| then
        d == Work(s.accepted[s.claimed]) && t.workers[w] == Running(s.claimed) && t.claimed == s.claimed + 1
      else
        t.workers[w] == (if s.fields.stopping then Exited else Asleep) && t.claimed == s.claimed && t.fields == s.fields
  {
    InitInv(s0);
    RunsKeepInv(s0, events, s);
    hide Runs, RunsDistinct, Count, WakeOk, SomeoneSleeps;
  }

  // ---- the destructor ----

  /** What a worker can still do once the pool is stopping. */
  function Effort(w: Worker): nat {
    match w
    case Exited => 0
    case Awake => 1
    case Asleep => 2
    case Running(_) => 2
  }

  function Efforts(ws: seq<Worker>): nat {
    if ws == [] then 0 else Effort(ws[0]) + Efforts(ws[1..])
  }

  lemma {:induction false} EffortsUpdate(ws: seq<Worker>, i: nat, w: Worker)
    requires i < |ws|
    ensures Efforts(ws[i := w]) + Effort(ws[i]) == Efforts(ws) + Effort(w)
  {
    if i > 0 {
      EffortsUpdate(ws[1..], i - 1, w);
      assert ws[i := w][1..] == ws[1..][i - 1 := w];
    } else {
      assert ws[i := w][1..] == ws[1..];
    }
  }

  lemma {:induction false} EffortsWakeAll(ws: seq<Worker>)
    ensures Efforts(WakeAll(ws)) <= Efforts(ws)
  {
    if ws != [] {
      EffortsWakeAll(ws[1..]);
      assert WakeAll(ws)[1..] == WakeAll(ws[1..]);
    }
  }

  /** The steps left to a stopping pool: a queued task costs a claim and a finish. */
  function DrainWork<T>(s: System<T>): nat {
    2 * |s.fields.tasks| + Efforts(s.workers) + s.submitNotices + (if s.stopNotice then 1 else 0)
  }

  /** The steps of the workers and of the notifications under way; the others are new
      submissions, which are refused, and waiters. */
  predicate Drains<T>(e: Event<T>) {
    e.Lock? || e.Finish? || e.NotifyAll? || e.NotifyOne? || e.NotifyNobody? || e.Spurious?
  }

  /** Once the pool is stopping it stays so, no step adds work, and every step of a worker or
      a notification uses some up. */
  lemma {:induction false} StoppingDrains<T>(s: System<T>, e: Event<T>)
    requires s.fields.stopping && Enabled(s, e)
    ensures Step(s, e).fields.stopping && |Step(s, e).workers| == |s.workers|
    ensures DrainWork(Step(s, e)) <= DrainWork(s)
    ensures Drains(e) ==> DrainWork(Step(s, e)) < DrainWork(s)
  {
    match e {
      case NotifyOne(w) => EffortsUpdate(s.workers, w, Awake);
      case Spurious(w) => EffortsUpdate(s.workers, w, Awake);
      case Lock(w) => EffortsUpdate(s.workers, w, Step(s, e).workers[w]);
      case Finish(w) => EffortsUpdate(s.workers, w, Awake);
      case NotifyAll => EffortsWakeAll(s.workers);
      case NotifyNobody =>
      case Submit(task) =>
      case StopAccepting =>
      case Destroy =>
      case WaitIdle =>
      case WaiterWakes(i) =>
      case WaiterChecks(i, timedOut) =>
    }
    hide Efforts, WakeAll, WakeWaiters, SomeoneSleeps;
  }

  function DrainSteps<T>(events: seq<Event<T>>): nat {
    if events == [] then 0 else (if Drains(events[0]) then 1 else 0) + DrainSteps(events[1..])
  }

  lemma {:induction false} DrainStepsBounded<T>(s: System<T>, events: seq<Event<T>>, t: System<T>)
    requires s.fields.stopping && Runs(s, events, t)
    ensures t.fields.stopping && DrainWork(t) + DrainSteps(events) <= DrainWork(s)
    decreases |events|
  {
    hide Enabled, Step, DrainWork, Drains;
    if events != [] {
      StoppingDrains(s, events[0]);
      DrainStepsBounded(Step(s, events[0]), events[1..], t);
    }
  }

  lemma {:induction false} SomeoneCanGoOn<T>(s: System<T>, w: nat) returns (e: Event<T>)
    requires Inv(s) && s.fields.stopping && w < |s.workers| && s.workers[w] != Exited
    ensures Drains(e) && Enabled(s, e)
  {
    match s.workers[w] {
      case Awake => e := Lock(w);
      case Asleep =>
        assert SomeoneSleeps(s.workers);
        e := NotifyAll;
      case Running(k) =>
        CountAll(s.workers, IsRunning);
        e := Finish(w);
    }
  }

  lemma {:induction false} AllExitedAllFinished<T>(s: System<T>)
    requires Inv(s) && |s.workers| > 0 && forall w :: 0 <= w < |s.workers| ==> s.workers[w] == Exited
    ensures AllFinished(s)
  {
    assert s.workers[0] == Exited;
    CountAll(s.workers, IsRunning);
    IdleMeansAllFinished(s);
  }

  /** The destructor drains the queue: from any state in which it has announced the stop, the
      workers and notifications take at most DrainWork steps whatever else happens; until
      every worker has returned one of them can go on; and then every accepted task has
      finished.  So the joins return if running tasks do. */
  lemma {:induction false} DestructorDrains<T(!new)>(s0: System<T>, events: seq<Event<T>>, s: System<T>, later: seq<Event<T>>, t: System<T>)
    requires Init(s0) && Runs(s0, events, s) && s.fields.stopping && Runs(s, later, t)
    ensures DrainSteps(later) <= DrainWork(s)
    ensures (exists w :: 0 <= w < |t.workers| && t.workers[w] != Exited) ==> exists e: Event<T> :: Drains(e) && Enabled(t, e)
    ensures |t.workers| > 0 && (forall w :: 0 <= w < |t.workers| ==> t.workers[w] == Exited) ==> AllFinished(t)
  {
    InitInv(s0);
    RunsKeepInv(s0, events, s);
    RunsKeepInv(s, later, t);
    DrainStepsBounded(s, later, t);
    hide Inv, Runs, Init, Enabled, Drains, DrainWork, DrainSteps, AllFinished;
    if w: nat :| w < |t.workers| && t.workers[w] != Exited {
      var e := SomeoneCanGoOn(t, w);
    }
    if |t.workers| > 0 && forall w :: 0 <= w < |t.workers| ==> t.workers[w] == Exited {
      AllExitedAllFinished(t);
    }
  }
}
