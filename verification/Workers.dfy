/** What the daemon's workers come to: whether the queue drains, whether a job has one worker, and whether an
    active job has any. */
module Workers {
  import opened Bytes
  import opened Daemon

  /** What is left to do when no request arrives: an enqueue takes seven steps, an entry six, and so on. */
  function Work(s: State): nat {
    7 * |s.pending| + 6 * |s.heap| + 5 * (if s.hand.Some? then 1 else 0) + 4 * (if s.waiting.Some? then 1 else 0)
    + 3 * |s.tokens| + 2 * |s.running| + s.leaving + |s.signals|
  }

  ghost predicate Stuck(s: State) { forall s' :: !Internal(s, s') }

  ghost predicate Quiet(s: State) {
    && s.pending == multiset{} && s.signals == multiset{} && s.heap == multiset{} && s.hand == None && s.waiting == None
    && s.tokens == s.running == multiset{} && s.leaving == 0
  }

  ghost predicate NoneQueued(s: State) { forall id :: id in s.jobs ==> s.jobs[id].status != Queued }

  lemma HandlerWorks(s: State, id: nat, priority: nat, found: bool)
    ensures (id, priority) in s.pending ==> Work(Enqueue(s, id, priority)) < Work(s)
    ensures id in s.signals ==> Work(Signal(s, id, found)) < Work(s)
  {
    hide Clamp;
    if (id, priority) in s.pending { OneLess(s.pending, (id, priority)); }
    if id in s.signals { OneLess(s.signals, id); }
  }

  lemma SchedulerWorks(s: State, e: Entry)
    ensures s.hand == None && e in s.heap ==> Work(Pop(s, e)) < Work(s)
    ensures s.hand.Some? ==> Work(Check(s)) < Work(s)
    ensures s.waiting.Some? && s.permits > 0 ==> Work(Acquire(s)) < Work(s)
  {
    hide Live;
    if e in s.heap { OneLess(s.heap, e); }
  }

  lemma StartWorks(s: State, id: nat)
    requires id in s.tokens
    ensures Work(StartJob(s, id)) < Work(s)
  {
    hide Started, WasCancelled;
    OneLess(s.tokens, id);
  }

  lemma FinishWorks(s: State, id: nat, end: End)
    requires id in s.running
    ensures Work(FinishJob(s, id, end)) < Work(s)
  {
    hide Ended;
    OneLess(s.running, id);
  }

  lemma LeaveWorks(s: State)
    requires s.leaving > 0
    ensures Work(Leave(s)) < Work(s)
  {}

  lemma DoWorks(s: State, a: Action)
    requires Can(s, a) && !IsRequest(a)
    ensures Work(Do(s, a)) < Work(s)
  {
    hide IsTop, Work, Enqueue, Signal, Pop, Check, Acquire, StartJob, FinishJob, Leave;
    match a
    case DoEnqueue(id, priority) => HandlerWorks(s, id, priority, true);
    case DoSignal(id, found) => HandlerWorks(s, id, 0, found);
    case DoPop(e) =>
      TopIn(s.heap, e);
      SchedulerWorks(s, e);
    case DoCheck => SchedulerWorks(s, s.hand.value);
    case DoAcquire => SchedulerWorks(s, Entry(0, 0, 0));
    case DoStart(id) => StartWorks(s, id);
    case DoFinish(id, end) => FinishWorks(s, id, end);
    case DoLeave => LeaveWorks(s);
  }

  lemma TopIn(heap: multiset<Entry>, e: Entry)
    requires IsTop(heap, e)
    ensures e in heap
  {}

  /** While there is work and a permit in the house, some step can be taken. */
  lemma InternalGoesOn(s: State) returns (a: Action)
    requires !Quiet(s) && Capacity(s) > 0
    ensures !IsRequest(a) && Can(s, a)
  {
    if x :| x in s.pending {
      a := DoEnqueue(x.0, x.1);
    } else if id :| id in s.signals {
      a := DoSignal(id, true);
    } else if id :| id in s.tokens {
      a := DoStart(id);
    } else if id :| id in s.running {
      a := DoFinish(id, Success);
    } else if s.leaving > 0 {
      a := DoLeave;
    } else if s.hand.Some? {
      a := DoCheck;
    } else if s.waiting.Some? {
      assert |s.tokens| == |s.running| == 0;
      a := DoAcquire;
    } else {
      var e := TopExists(s.heap);
      a := DoPop(e);
    }
  }

  /** Without any permit no record changes unless a request changes it. */
  lemma NoPermitNoChange(s: State, a: Action)
    requires Can(s, a) && !IsRequest(a) && Capacity(s) == 0
    ensures Do(s, a).jobs == s.jobs
  {
    hide IsTop, Started, Live, Clamp, Ended;
    assert s.tokens == multiset{} && s.running == multiset{};
  }

  ghost predicate InternalRun(run: seq<State>) {
    run != [] && forall j :: 0 <= j < |run| - 1 ==> Internal(run[j], run[j + 1])
  }

  /** Once requests stop, the daemon is done after a bounded number of steps. */
  lemma {:induction false} WorkRunsOut(run: seq<State>, i: nat)
    requires InternalRun(run) && i < |run|
    ensures i + Work(run[i]) <= Work(run[0]) && Capacity(run[i]) == Capacity(run[0])
    ensures Capacity(run[0]) == 0 ==> run[i].jobs == run[0].jobs
    ensures Inv(run[0]) ==> Inv(run[i])
    decreases i
  {
    hide Can, Do, Work, Capacity, Inv, IsRequest;
    if i > 0 {
      WorkRunsOut(run, i - 1);
      var s := run[i - 1];
      assert Internal(run[i - 1], run[i - 1 + 1]);
      var a :| !IsRequest(a) && Can(s, a) && run[i] == Do(s, a);
      DoWorks(s, a);
      DoKeepsCapacity(s, a);
      if Capacity(s) == 0 { NoPermitNoChange(s, a); }
      if Inv(s) { DoKeepsInv(s, a); }
    }
  }

  lemma StuckNot(s: State, a: Action)
    requires !IsRequest(a) && Can(s, a)
    ensures !Stuck(s)
  {
    hide Can, Do, IsRequest;
    assert Internal(s, Do(s, a));
  }

  /** A run without requests that cannot be continued leaves no job queued if and only if there is a permit or no
      job was queued in the first place. The end of a worker is one of its steps. */
  lemma {:induction false} QueueDrains(run: seq<State>)
    requires InternalRun(run) && Inv(run[0]) && Stuck(run[|run| - 1])
    ensures |run| - 1 <= Work(run[0])
    ensures NoneQueued(run[|run| - 1]) <==> Capacity(run[0]) > 0 || NoneQueued(run[0])
  {
    hide Can, Do, Internal, Inv, Work, Capacity, IsRequest;
    var last := |run| - 1;
    WorkRunsOut(run, last);
    if Capacity(run[0]) > 0 {
      if !Quiet(run[last]) {
        var a := InternalGoesOn(run[last]);
        StuckNot(run[last], a);
      }
      forall id | id in run[last].jobs ensures run[last].jobs[id].status != Queued {
        EmptyHeapMeansIdle(run[last], id);
      }
    }
  }

  lemma Fire(run: seq<State>, a: Action) returns (r: seq<State>)
    requires IsRun(run) && Can(run[|run| - 1], a)
    ensures |r| > 0 && IsRun(r) && r[0] == run[0] && r[|r| - 1] == Do(run[|run| - 1], a)
  {
    hide Can, Do;
    r := run + [Do(run[|run| - 1], a)];
  }

  /** The actions on a daemon that has one job, number 1 with priority 5, and one of each thing. */
  lemma SubmitOne(permits: nat)
    ensures Can(Idle(permits), DoSubmit(1, 5))
    ensures Do(Idle(permits), DoSubmit(1, 5))
         == Idle(permits).(jobs := map[1 := Job(5, Queued, 0)], pending := multiset{(1, 5)})
  {}

  lemma RequeueOne(s: State)
    requires 1 in s.jobs && s.jobs[1].status != Active && s.jobs[1].priority == 5 && s.pending == multiset{}
    ensures Can(s, DoReprioritise(1, 5))
    ensures Do(s, DoReprioritise(1, 5))
         == s.(jobs := s.jobs[1 := s.jobs[1].(status := Queued)], pending := multiset{(1, 5)})
  {}

  lemma EnqueueOne(s: State)
    requires s.pending == multiset{(1, 5)} && s.heap == multiset{}
    ensures Can(s, DoEnqueue(1, 5))
    ensures Do(s, DoEnqueue(1, 5))
         == s.(heap := multiset{Entry(5, s.sequence + 1, 1)}, sequence := s.sequence + 1, pending := multiset{})
  {}

  lemma PopOne(s: State, e: Entry)
    requires s.heap == multiset{e} && s.hand == None && s.waiting == None
    ensures Can(s, DoPop(e)) && Do(s, DoPop(e)) == s.(heap := multiset{}, hand := Some(e))
  {}

  lemma CheckOne(s: State, e: Entry)
    requires s.hand == Some(e) && Live(s.jobs, e)
    ensures Can(s, DoCheck) && Do(s, DoCheck) == s.(hand := None, waiting := Some(e.id))
  {}

  lemma AcquireOne(s: State)
    requires s.waiting == Some(1) && s.permits > 0
    ensures Can(s, DoAcquire)
    ensures Do(s, DoAcquire) == s.(waiting := None, permits := s.permits - 1, tokens := s.tokens + multiset{1})
  {}

  lemma StartOne(s: State)
    requires 1 in s.tokens && 1 in s.jobs && s.jobs[1].status != Cancelled && s.jobs[1].attempts < 10
    ensures Can(s, DoStart(1))
    ensures Do(s, DoStart(1))
         == s.(tokens := s.tokens - multiset{1}, running := s.running + multiset{1},
               jobs := s.jobs[1 := s.jobs[1].(status := Active, attempts := s.jobs[1].attempts + 1)])
  {}

  lemma StopOne(s: State)
    requires s.running == multiset{1} && 1 in s.stopped
    ensures Can(s, DoFinish(1, Stop)) && Do(s, DoFinish(1, Stop)) == s.(running := multiset{}, leaving := s.leaving + 1)
  {}

  lemma LeaveOne(s: State)
    requires s.leaving == 1
    ensures Can(s, DoLeave) && Do(s, DoLeave) == s.(leaving := 0, permits := s.permits + 1)
  {}

  lemma CancelOne(s: State)
    requires 1 in s.jobs && s.signals == multiset{}
    ensures Can(s, DoCancel(1))
    ensures Do(s, DoCancel(1)) == s.(jobs := s.jobs[1 := s.jobs[1].(status := Cancelled)], signals := multiset{1})
  {}

  lemma SignalOne(s: State)
    requires s.signals == multiset{1}
    ensures Can(s, DoSignal(1, true)) && Do(s, DoSignal(1, true)) == s.(signals := multiset{}, stopped := s.stopped + {1})
  {}

  lemma AddRemove(x: nat)
    ensures multiset{} + multiset{x} == multiset{x} && multiset{x} - multiset{x} == multiset{}
    ensures multiset{x} + multiset{x} == multiset{x, x} && multiset{x, x} - multiset{x} == multiset{x}
  {}

  /** A queued job goes from its pending enqueue to the wait for a permit. */
  lemma Queue(run: seq<State>, s: State) returns (r: seq<State>)
    requires |run| > 0 && IsRun(run) && run[|run| - 1] == s.(pending := multiset{(1, 5)})
    requires s.pending == multiset{} && s.heap == multiset{} && s.hand == None && s.waiting == None
    requires Live(s.jobs, Entry(5, s.sequence + 1, 1))
    ensures |r| > 0 && IsRun(r) && r[0] == run[0] && r[|r| - 1] == s.(sequence := s.sequence + 1, waiting := Some(1))
  {
    hide *;
    var e := Entry(5, s.sequence + 1, 1);
    var s1 := s.(pending := multiset{(1, 5)});
    EnqueueOne(s1);
    r := Fire(run, DoEnqueue(1, 5));
    var s2 := s.(heap := multiset{e}, sequence := s.sequence + 1);
    PopOne(s2, e);
    r := Fire(r, DoPop(e));
    var s3 := s.(sequence := s.sequence + 1, hand := Some(e));
    CheckOne(s3, e);
    r := Fire(r, DoCheck);
  }

  /** The state of a daemon with one job that waits for a permit. */
  function Waits(permits: nat, job: Job, sequence: nat): State {
    Idle(permits).(jobs := map[1 := job], sequence := sequence, waiting := Some(1))
  }

  lemma SubmitAndQueue(permits: nat) returns (r: seq<State>)
    ensures |r| > 0 && IsRun(r) && r[0] == Idle(permits) && r[|r| - 1] == Waits(permits, Job(5, Queued, 0), 1)
  {
    hide Can, Do, Next;
    SubmitOne(permits);
    r := Fire([Idle(permits)], DoSubmit(1, 5));
    r := Queue(r, Idle(permits).(jobs := map[1 := Job(5, Queued, 0)]));
  }

  /** Without a permit, a job that is submitted stays queued for good. */
  lemma ZeroPermitsStall() returns (r: seq<State>)
    ensures |r| > 0 && IsRun(r) && r[0] == Idle(0)
    ensures var last := r[|r| - 1]; Stuck(last) && 1 in last.jobs && last.jobs[1].status == Queued
  {
    r := SubmitAndQueue(0);
    hide Do, IsRun;
  }

  /** A worker under way: a start that waits for its permit, one that has it, or a job that runs. */
  function Engaged(s: State, id: nat): nat {
    (if s.waiting == Some(id) then 1 else 0) + s.tokens[id] + s.running[id]
  }

  ghost predicate AtMostOne(s: State) { forall id :: Engaged(s, id) <= 1 }

  /** The check of an entry passes although its job has a worker under way: the job was queued twice, and not
      started in between, or it was queued again while its worker ran. */
  predicate SecondCheck(s: State) {
    s.hand.Some? && Live(s.jobs, s.hand.value) && Engaged(s, s.hand.value.id) > 0
  }

  /** The action is such a check. */
  ghost predicate SecondStart(s: State, s': State) { SecondCheck(s) && s' == Check(s) }

  lemma StartEngaged(s: State, id: nat, x: nat)
    requires id in s.tokens
    ensures Engaged(StartJob(s, id), x) <= Engaged(s, x)
  {
    hide Started, WasCancelled;
  }

  lemma FinishEngaged(s: State, id: nat, end: End, x: nat)
    requires id in s.running
    ensures Engaged(FinishJob(s, id, end), x) <= Engaged(s, x)
  {
    hide Ended;
  }

  lemma OtherEngaged(s: State, a: Action, x: nat)
    requires Can(s, a) && !a.DoStart? && !a.DoFinish? && !a.DoCheck?
    ensures Engaged(Do(s, a), x) <= Engaged(s, x)
  {
    hide IsTop, Clamp, StartJob, FinishJob, Check;
  }

  /** Only a check that passes engages anything more. */
  lemma EngagedStep(s: State, a: Action, x: nat)
    requires Can(s, a) && (s.hand == None || s.waiting == None)
    ensures a != DoCheck ==> Engaged(Do(s, a), x) <= Engaged(s, x)
    ensures a == DoCheck ==>
              Engaged(Do(s, a), x) == Engaged(s, x) + (if Live(s.jobs, s.hand.value) && s.hand.value.id == x then 1 else 0)
  {
    if a.DoCheck? {
      hide IsTop, Clamp, StartJob, FinishJob, Submit, Cancel, Reprioritise, Enqueue, Signal, Pop, Acquire, Leave, Live;
    } else {
      hide Engaged, StartJob, FinishJob, IsTop, Clamp, Submit, Cancel, Reprioritise, Enqueue, Signal, Pop, Acquire, Leave;
      match a
      case DoStart(id) => StartEngaged(s, id, x);
      case DoFinish(id, end) => FinishEngaged(s, id, end, x);
      case _ => OtherEngaged(s, a, x);
    }
  }

  lemma SecondWorker(s: State, s': State)
    requires Next(s, s') && AtMostOne(s) && (s.hand == None || s.waiting == None)
    ensures AtMostOne(s') <==> !SecondStart(s, s')
  {
    hide Engaged, Live;
    var a :| Can(s, a) && s' == Do(s, a);
    if SecondStart(s, s') {
      EngagedStep(s, DoCheck, s.hand.value.id);
    } else {
      forall id ensures Engaged(s', id) <= 1 {
        EngagedStep(s, a, id);
        CheckIs(s, a);
      }
    }
  }

  lemma CheckIs(s: State, a: Action)
    requires Can(s, a)
    ensures a == DoCheck ==> s.hand.Some? && Do(s, a) == Check(s)
  {}

  /** No job ever has two workers if and only if no such check passes. */
  lemma OneWorkerEach(run: seq<State>)
    requires IsRun(run) && Inv(run[0]) && AtMostOne(run[0])
    ensures (forall i :: 0 <= i < |run| ==> AtMostOne(run[i]))
            <==> (forall i :: 0 <= i < |run| - 1 ==> !SecondStart(run[i], run[i + 1]))
  {
    hide Next, AtMostOne, SecondStart, Inv;
    if forall i :: 0 <= i < |run| - 1 ==> !SecondStart(run[i], run[i + 1]) {
      forall i | 0 <= i < |run| ensures AtMostOne(run[i]) { OneWorkerUntil(run, i); }
    }
    if forall i :: 0 <= i < |run| ==> AtMostOne(run[i]) {
      forall i | 0 <= i < |run| - 1 ensures !SecondStart(run[i], run[i + 1]) {
        WorkerStep(run, i);
        assert AtMostOne(run[i]) && AtMostOne(run[i + 1]);
      }
    }
  }

  lemma WorkerStep(run: seq<State>, i: nat)
    requires IsRun(run) && Inv(run[0]) && i + 1 < |run|
    ensures AtMostOne(run[i]) ==> (AtMostOne(run[i + 1]) <==> !SecondStart(run[i], run[i + 1]))
  {
    NeverStranded(run, i);
    hide AtMostOne, SecondStart, Next;
    if AtMostOne(run[i]) { SecondWorker(run[i], run[i + 1]); }
  }

  lemma {:induction false} OneWorkerUntil(run: seq<State>, i: nat)
    requires IsRun(run) && Inv(run[0]) && AtMostOne(run[0]) && i < |run|
    requires forall j :: 0 <= j < |run| - 1 ==> !SecondStart(run[j], run[j + 1])
    ensures AtMostOne(run[i])
    decreases i
  {
    hide Next, AtMostOne, SecondStart, Inv;
    if i > 0 {
      OneWorkerUntil(run, i - 1);
      WorkerStep(run, i - 1);
      assert !SecondStart(run[i - 1], run[i - 1 + 1]);
    }
  }

  /** Two workers for one job: its priority is updated, to the same value, before it has started. */
  lemma TwoWorkers() returns (r: seq<State>)
    ensures |r| > 0 && IsRun(r) && r[0] == Idle(2) && r[|r| - 1].running[1] == 2
  {
    hide Can, Do, Next, IsRun;
    AddRemove(1);
    r := SubmitAndQueue(2);
    AcquireOne(r[|r| - 1]);
    r := Fire(r, DoAcquire);
    var queued := Idle(1).(jobs := map[1 := Job(5, Queued, 0)], sequence := 1, tokens := multiset{1});
    RequeueOne(queued);
    r := Fire(r, DoReprioritise(1, 5));
    assert map[1 := Job(5, Queued, 0)][1 := Job(5, Queued, 0)] == map[1 := Job(5, Queued, 0)];
    r := Queue(r, queued);
    AcquireOne(r[|r| - 1]);
    r := Fire(r, DoAcquire);
    StartOne(r[|r| - 1]);
    r := Fire(r, DoStart(1));
    StartOne(r[|r| - 1]);
    r := Fire(r, DoStart(1));
  }

  /** An active job has a worker, unless its cancellation channel has fired. */
  ghost predicate ActiveRuns(s: State) {
    forall id :: id in s.jobs && s.jobs[id].status == Active ==> id in s.running || id in s.stopped
  }

  lemma WorkerKeepsActive(s: State, id: nat, end: End)
    requires ActiveRuns(s)
    ensures ActiveRuns(StartJob(s, id))
    ensures MayFinish(s, id, end) ==> ActiveRuns(FinishJob(s, id, end))
  {
    hide Min;
  }

  lemma DoKeepsActive(s: State, a: Action)
    requires ActiveRuns(s) && Can(s, a)
    ensures ActiveRuns(Do(s, a))
  {
    hide IsTop, Min, Live, Clamp, StartJob, FinishJob, MayFinish;
    match a
    case DoStart(id) => WorkerKeepsActive(s, id, Stop);
    case DoFinish(id, end) => WorkerKeepsActive(s, id, end);
    case _ =>
  }

  /** Every active job has a worker. */
  ghost predicate NoneOrphaned(s: State) {
    forall id :: id in s.jobs && s.jobs[id].status == Active ==> id in s.running
  }

  predicate LastStopped(s: State, id: nat) {
    MayFinish(s, id, Stop) && id in s.jobs && s.jobs[id].status == Active && s.running[id] == 1
  }

  /** The last worker of an active job is stopped. */
  ghost predicate Orphans(s: State, s': State) { exists id: nat :: LastStopped(s, id) && s' == FinishJob(s, id, Stop) }

  lemma StartOrphans(s: State, id: nat)
    requires NoneOrphaned(s)
    ensures NoneOrphaned(StartJob(s, id))
  {
    hide Min;
  }

  lemma FinishOrphans(s: State, id: nat, end: End)
    requires NoneOrphaned(s) && MayFinish(s, id, end)
    ensures NoneOrphaned(FinishJob(s, id, end)) <==> !(end == Stop && LastStopped(s, id))
  {
    var s' := FinishJob(s, id, end);
    forall x ensures x in s'.running <==> x in s.running && (x == id ==> s.running[id] > 1) {}
  }

  lemma OtherOrphans(s: State, a: Action)
    requires NoneOrphaned(s) && Can(s, a) && !a.DoStart? && !a.DoFinish?
    ensures NoneOrphaned(Do(s, a))
  {
    hide IsTop, Live, Clamp, StartJob, FinishJob, MayFinish;
  }

  lemma OrphanStep(s: State, s': State)
    requires Next(s, s') && NoneOrphaned(s)
    ensures NoneOrphaned(s') <==> !Orphans(s, s')
  {
    hide NoneOrphaned, LastStopped, FinishJob, StartJob, IsTop, Live, Clamp, Submit, Cancel, Reprioritise, Enqueue, Signal,
         Pop, Check, Acquire, Leave;
    var a :| Can(s, a) && s' == Do(s, a);
    if id: nat :| LastStopped(s, id) && s' == FinishJob(s, id, Stop) {
      StoppedMay(s, id);
      FinishOrphans(s, id, Stop);
    } else if a.DoStart? {
      StartOrphans(s, a.id);
    } else if a.DoFinish? {
      FinishOrphans(s, a.id, a.end);
    } else {
      OtherOrphans(s, a);
    }
  }

  lemma StoppedMay(s: State, id: nat)
    requires LastStopped(s, id)
    ensures MayFinish(s, id, Stop)
  {}

  /** Every active job has a worker at all times if and only if no last worker of an active job is stopped. */
  lemma NeverOrphaned(run: seq<State>)
    requires IsRun(run) && NoneOrphaned(run[0])
    ensures (forall i :: 0 <= i < |run| ==> NoneOrphaned(run[i]))
            <==> (forall i :: 0 <= i < |run| - 1 ==> !Orphans(run[i], run[i + 1]))
  {
    hide Next, NoneOrphaned, Orphans;
    if forall i :: 0 <= i < |run| - 1 ==> !Orphans(run[i], run[i + 1]) {
      forall i | 0 <= i < |run| ensures NoneOrphaned(run[i]) { NotOrphanedUntil(run, i); }
    }
    if forall i :: 0 <= i < |run| ==> NoneOrphaned(run[i]) {
      forall i | 0 <= i < |run| - 1 ensures !Orphans(run[i], run[i + 1]) {
        assert NoneOrphaned(run[i]) && NoneOrphaned(run[i + 1]);
        OrphanStep(run[i], run[i + 1]);
      }
    }
  }

  lemma {:induction false} NotOrphanedUntil(run: seq<State>, i: nat)
    requires IsRun(run) && NoneOrphaned(run[0]) && i < |run|
    requires forall j :: 0 <= j < |run| - 1 ==> !Orphans(run[j], run[j + 1])
    ensures NoneOrphaned(run[i])
    decreases i
  {
    hide Next, NoneOrphaned, Orphans;
    if i > 0 {
      NotOrphanedUntil(run, i - 1);
      assert Next(run[i - 1], run[i - 1 + 1]) && !Orphans(run[i - 1], run[i - 1 + 1]);
      OrphanStep(run[i - 1], run[i]);
    }
  }

  /** In every run that starts without active jobs, an active job has a worker or was cancelled at some time. */
  lemma {:induction false} ActiveHasWorker(run: seq<State>, i: nat)
    requires IsRun(run) && ActiveRuns(run[0]) && i < |run|
    ensures ActiveRuns(run[i])
    decreases i
  {
    hide Can, Do, ActiveRuns;
    if i > 0 {
      ActiveHasWorker(run, i - 1);
      assert Next(run[i - 1], run[i - 1 + 1]);
      var a :| Can(run[i - 1], a) && run[i] == Do(run[i - 1], a);
      DoKeepsActive(run[i - 1], a);
    }
  }

  /** A job that runs. */
  lemma SubmitAndStart() returns (r: seq<State>)
    ensures |r| > 0 && IsRun(r) && r[0] == Idle(1)
    ensures r[|r| - 1] == Idle(0).(jobs := map[1 := Job(5, Active, 1)], sequence := 1, running := multiset{1})
  {
    hide Can, Do, Next, IsRun;
    AddRemove(1);
    r := SubmitAndQueue(1);
    AcquireOne(r[|r| - 1]);
    r := Fire(r, DoAcquire);
    StartOne(r[|r| - 1]);
    r := Fire(r, DoStart(1));
    assert map[1 := Job(5, Queued, 0)][1 := Job(5, Active, 1)] == map[1 := Job(5, Active, 1)];
  }

  /** A job that was cancelled while it runs, and whose cancellation channel is about to fire. */
  lemma StartAndCancel() returns (r: seq<State>)
    ensures |r| > 0 && IsRun(r) && r[0] == Idle(1)
    ensures r[|r| - 1]
         == Idle(0).(jobs := map[1 := Job(5, Cancelled, 1)], sequence := 1, running := multiset{1}, signals := multiset{1})
  {
    hide Can, Do, Next, IsRun;
    r := SubmitAndStart();
    CancelOne(r[|r| - 1]);
    r := Fire(r, DoCancel(1));
    assert map[1 := Job(5, Active, 1)][1 := Job(5, Cancelled, 1)] == map[1 := Job(5, Cancelled, 1)];
  }

  /** A job that was cancelled and queued again stays active without a worker: the channel has fired for good, and
      stops the new worker at once. */
  lemma CancelledStaysActive() returns (r: seq<State>)
    ensures |r| > 0 && IsRun(r) && r[0] == Idle(1)
    ensures var last := r[|r| - 1]; Quiet(last) && 1 in last.jobs && last.jobs[1].status == Active
  {
    hide Can, Do, Next, IsRun;
    r := StartAndCancel();
    SignalOne(r[|r| - 1]);
    r := Fire(r, DoSignal(1, true));
    assert {} + {1} == {1};
    StopOne(r[|r| - 1]);
    r := Fire(r, DoFinish(1, Stop));
    LeaveOne(r[|r| - 1]);
    r := Fire(r, DoLeave);
    var again := Idle(1).(jobs := map[1 := Job(5, Cancelled, 1)], sequence := 1, stopped := {1});
    RequeueOne(again);
    r := Fire(r, DoReprioritise(1, 5));
    var queued := again.(jobs := map[1 := Job(5, Queued, 1)]);
    assert again.jobs[1 := Job(5, Queued, 1)] == queued.jobs;
    r := Queue(r, queued);
    r := StartAndStop(r, Job(5, Queued, 1), 2);
  }

  /** A worker that is stopped as soon as it has started. */
  lemma StartAndStop(run: seq<State>, job: Job, sequence: nat) returns (r: seq<State>)
    requires |run| > 0 && IsRun(run) && run[|run| - 1] == Waits(1, job, sequence).(stopped := {1})
    requires job.status == Queued && job.attempts < 10
    ensures |r| > 0 && IsRun(r) && r[0] == run[0] && Quiet(r[|r| - 1])
    ensures 1 in r[|r| - 1].jobs && r[|r| - 1].jobs[1].status == Active
  {
    hide Can, Do, Next, IsRun;
    AddRemove(1);
    AcquireOne(run[|run| - 1]);
    r := Fire(run, DoAcquire);
    StartOne(r[|r| - 1]);
    r := Fire(r, DoStart(1));
    StopOne(r[|r| - 1]);
    r := Fire(r, DoFinish(1, Stop));
    LeaveOne(r[|r| - 1]);
    r := Fire(r, DoLeave);
  }
}
