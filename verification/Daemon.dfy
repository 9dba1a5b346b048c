/** The transfer queue of the daemon, one lock section at a time. */
module Daemon {
  import opened Bytes

  datatype Status = Queued | Active | Completed | Failed | Cancelled

  datatype Job = Job(priority: nat, status: Status, attempts: nat)

  datatype Entry = Entry(priority: nat, sequence: nat, id: nat)

  /** How a worker ends. It is stopped when its cancellation channel fires, and quits when it finds its job
      cancelled; both leave the record alone. */
  datatype End = Success | Failure | Stop | Quit

  /** `pending` holds the enqueues and `signals` the cancellations between the two lock sections of a handler,
      `hand` the entry the scheduler has popped, `waiting` the job for which it waits for a permit. The
      workers of `tokens` hold a permit and have not started their job, those of `running` have, and `leaving`
      are done but for giving the permit back. `stopped` are the jobs whose cancellation channel has fired. */
  datatype State = State(
    jobs: map<nat, Job>, heap: multiset<Entry>, sequence: nat, pending: multiset<(nat, nat)>, signals: multiset<nat>,
    hand: Option<Entry>, waiting: Option<nat>, permits: nat, tokens: multiset<nat>, running: multiset<nat>,
    leaving: nat, stopped: set<nat>)

  function Clamp(priority: nat): (p: nat)
    ensures 1 <= p <= 10
  {
    Min(Max(priority, 1), 10)
  }

  /** The order of the heap: smaller priority number first, then the newer entry, then the larger id. */
  predicate Before(a: Entry, b: Entry) {
    || a.priority < b.priority
    || (a.priority == b.priority && a.sequence > b.sequence)
    || (a.priority == b.priority && a.sequence == b.sequence && a.id >= b.id)
  }

  ghost predicate IsTop(heap: multiset<Entry>, e: Entry) {
    e in heap && forall f :: f in heap ==> Before(e, f)
  }

  lemma {:induction false} TopExists(heap: multiset<Entry>) returns (e: Entry)
    requires heap != multiset{}
    ensures IsTop(heap, e)
    decreases |heap|
  {
    e :| e in heap;
    var rest := heap - multiset{e};
    if rest != multiset{} {
      var f := TopExists(rest);
      if Before(f, e) { e := f; }
    }
  }

  ghost predicate InHeap(s: State, id: nat, priority: nat) {
    exists e :: e in s.heap && e.id == id && e.priority == priority
  }

  /** Somebody will look at the job: an entry or an enqueue with its priority, or a start in progress. */
  ghost predicate Attended(s: State, id: nat, priority: nat) {
    || InHeap(s, id, priority)
    || (id, priority) in s.pending
    || (s.hand.Some? && s.hand.value.id == id && s.hand.value.priority == priority)
    || s.waiting == Some(id)
    || id in s.tokens
  }

  ghost predicate NoneStranded(s: State) {
    forall id :: id in s.jobs && s.jobs[id].status == Queued ==> Attended(s, id, s.jobs[id].priority)
  }

  ghost predicate Inv(s: State) {
    && NoneStranded(s)
    && (forall x :: x in s.pending ==> 1 <= x.1 <= 10)
    && (forall e :: e in s.heap ==> e.sequence <= s.sequence)
    && (s.hand == None || s.waiting == None)
  }

  function Submit(s: State, id: nat, priority: nat): State {
    s.(jobs := s.jobs[id := Job(Clamp(priority), Queued, 0)], pending := s.pending + multiset{(id, Clamp(priority))})
  }

  function Enqueue(s: State, id: nat, priority: nat): State {
    s.(heap := s.heap + multiset{Entry(Clamp(priority), s.sequence + 1, id)}, sequence := s.sequence + 1,
       pending := s.pending - multiset{(id, priority)})
  }

  function Cancel(s: State, id: nat): State {
    if id in s.jobs
    then s.(jobs := s.jobs[id := s.jobs[id].(status := Cancelled)], signals := s.signals + multiset{id})
    else s
  }

  /** The second lock section of a cancellation; the channel need not be there yet. */
  function Signal(s: State, id: nat, found: bool): State {
    s.(signals := s.signals - multiset{id}, stopped := if found then s.stopped + {id} else s.stopped)
  }

  function Reprioritise(s: State, id: nat, priority: nat): State {
    if id !in s.jobs then s
    else if s.jobs[id].status == Active then s.(jobs := s.jobs[id := s.jobs[id].(priority := Clamp(priority))])
    else s.(jobs := s.jobs[id := s.jobs[id].(priority := Clamp(priority), status := Queued)],
            pending := s.pending + multiset{(id, Clamp(priority))})
  }

  function Pop(s: State, e: Entry): State { s.(heap := s.heap - multiset{e}, hand := Some(e)) }

  predicate Live(jobs: map<nat, Job>, e: Entry) {
    e.id in jobs && jobs[e.id].status == Queued && jobs[e.id].priority == e.priority
  }

  function Check(s: State): State
    requires s.hand.Some?
  {
    s.(hand := None, waiting := if Live(s.jobs, s.hand.value) then Some(s.hand.value.id) else s.waiting)
  }

  /** A free permit goes to the job that waits for one, and the scheduler goes on. */
  function Acquire(s: State): State
    requires s.waiting.Some? && s.permits > 0
  {
    s.(waiting := None, permits := s.permits - 1, tokens := s.tokens + multiset{s.waiting.value})
  }

  predicate WasCancelled(s: State, id: nat) { id in s.jobs && s.jobs[id].status == Cancelled }

  function Started(jobs: map<nat, Job>, id: nat): map<nat, Job> {
    if id !in jobs || jobs[id].status == Cancelled then jobs
    else jobs[id := jobs[id].(status := Active, attempts := Min(jobs[id].attempts + 1, U32_LIMIT - 1))]
  }

  function Joined(running: multiset<nat>, id: nat, cancelled: bool): multiset<nat> {
    if cancelled then running else running + multiset{id}
  }

  /** A worker that finds its job cancelled leaves at once. */
  function StartJob(s: State, id: nat): State {
    s.(tokens := s.tokens - multiset{id}, jobs := Started(s.jobs, id),
       running := Joined(s.running, id, WasCancelled(s, id)),
       leaving := if WasCancelled(s, id) then s.leaving + 1 else s.leaving)
  }

  /** What the end of a worker makes of its record; a success does not overwrite a cancellation. */
  function Ended(jobs: map<nat, Job>, id: nat, end: End): map<nat, Job> {
    if id !in jobs then jobs
    else
      match end
      case Success => if jobs[id].status == Cancelled then jobs else jobs[id := jobs[id].(status := Completed)]
      case Failure => jobs[id := jobs[id].(status := Failed)]
      case Stop => jobs
      case Quit => jobs
  }

  function FinishJob(s: State, id: nat, end: End): State {
    s.(jobs := Ended(s.jobs, id, end), running := s.running - multiset{id}, leaving := s.leaving + 1)
  }

  predicate MayFinish(s: State, id: nat, end: End) {
    id in s.running && (end == Stop ==> id in s.stopped) && (end == Quit ==> WasCancelled(s, id))
  }

  function Leave(s: State): State
    requires s.leaving > 0
  {
    s.(leaving := s.leaving - 1, permits := s.permits + 1)
  }

  /** The lock sections of the handlers, of the scheduler and of the workers, and the hand-over of permits. */
  datatype Action =
    | DoSubmit(id: nat, priority: nat) | DoCancel(id: nat) | DoReprioritise(id: nat, priority: nat)
    | DoEnqueue(id: nat, priority: nat) | DoSignal(id: nat, found: bool)
    | DoPop(e: Entry) | DoCheck | DoAcquire | DoStart(id: nat) | DoFinish(id: nat, end: End) | DoLeave

  /** The first lock section of a handler is a request; everything else goes on without one. */
  predicate IsRequest(a: Action) { a.DoSubmit? || a.DoCancel? || a.DoReprioritise? }

  /** When an action is possible; the scheduler waits for a permit before it pops again. */
  ghost predicate Can(s: State, a: Action) {
    match a
    case DoSubmit(id, _) => id !in s.jobs
    case DoCancel(_) => true
    case DoReprioritise(_, _) => true
    case DoEnqueue(id, priority) => (id, priority) in s.pending
    case DoSignal(id, _) => id in s.signals
    case DoPop(e) => s.hand == None && s.waiting == None && IsTop(s.heap, e)
    case DoCheck => s.hand.Some?
    case DoAcquire => s.waiting.Some? && s.permits > 0
    case DoStart(id) => id in s.tokens
    case DoFinish(id, end) => MayFinish(s, id, end)
    case DoLeave => s.leaving > 0
  }

  ghost function Do(s: State, a: Action): State
    requires Can(s, a)
  {
    match a
    case DoSubmit(id, priority) => Submit(s, id, priority)
    case DoCancel(id) => Cancel(s, id)
    case DoReprioritise(id, priority) => Reprioritise(s, id, priority)
    case DoEnqueue(id, priority) => Enqueue(s, id, priority)
    case DoSignal(id, found) => Signal(s, id, found)
    case DoPop(e) => Pop(s, e)
    case DoCheck => Check(s)
    case DoAcquire => Acquire(s)
    case DoStart(id) => StartJob(s, id)
    case DoFinish(id, end) => FinishJob(s, id, end)
    case DoLeave => Leave(s)
  }

  /** The life of a job: the status that an action leaves it with. */
  function NextStatus(status: Status, a: Action, id: nat): Status {
    match a
    case DoCancel(x) => if x == id then Cancelled else status
    case DoReprioritise(x, _) => if x == id && status != Active then Queued else status
    case DoStart(x) => if x == id && status != Cancelled then Active else status
    case DoFinish(x, Success) => if x == id && status != Cancelled then Completed else status
    case DoFinish(x, Failure) => if x == id then Failed else status
    case _ => status
  }

  /** How an action moves the record of job `id`. */
  ghost predicate Moved(j: Job, j': Job, a: Action, id: nat) {
    && j'.status == NextStatus(j.status, a, id)
    && j'.priority == (if a.DoReprioritise? && a.id == id then Min(Max(a.priority, 1), 10) else j.priority)
    && j'.attempts == (if a == DoStart(id) && j.status != Cancelled
                       then Min(j.attempts + 1, U32_LIMIT - 1) else j.attempts)
  }

  lemma CancelMoves(s: State, x: nat, id: nat)
    requires id in s.jobs
    ensures id in Cancel(s, x).jobs && Moved(s.jobs[id], Cancel(s, x).jobs[id], DoCancel(x), id)
  {}

  lemma ReprioritiseMoves(s: State, x: nat, p: nat, id: nat)
    requires id in s.jobs
    ensures id in Reprioritise(s, x, p).jobs
    ensures Moved(s.jobs[id], Reprioritise(s, x, p).jobs[id], DoReprioritise(x, p), id)
  {}

  lemma StartMoves(s: State, x: nat, id: nat)
    requires id in s.jobs
    ensures id in StartJob(s, x).jobs && Moved(s.jobs[id], StartJob(s, x).jobs[id], DoStart(x), id)
  {}

  lemma FinishMoves(s: State, x: nat, end: End, id: nat)
    requires id in s.jobs
    ensures id in FinishJob(s, x, end).jobs && Moved(s.jobs[id], FinishJob(s, x, end).jobs[id], DoFinish(x, end), id)
  {}

  lemma StaysPut(j: Job, a: Action, id: nat)
    requires !a.DoCancel? && !a.DoReprioritise? && !a.DoStart? && !a.DoFinish?
    ensures Moved(j, j, a, id)
  {}

  /** What one action does to the record of a job, and that it does nothing to the others. */
  lemma RecordMoves(s: State, a: Action, id: nat)
    requires Can(s, a) && id in s.jobs
    ensures id in Do(s, a).jobs && Moved(s.jobs[id], Do(s, a).jobs[id], a, id)
  {
    hide IsTop, Cancel, Reprioritise, StartJob, FinishJob, MayFinish, Live, Moved, NextStatus, Clamp;
    match a {
      case DoCancel(x) => CancelMoves(s, x, id);
      case DoReprioritise(x, p) => ReprioritiseMoves(s, x, p, id);
      case DoStart(x) => StartMoves(s, x, id);
      case DoFinish(x, end) => FinishMoves(s, x, end, id);
      case _ =>
        assert Do(s, a).jobs[id] == s.jobs[id];
        StaysPut(s.jobs[id], a, id);
    }
  }

  /** A submitted job is new, queued and has not been tried. */
  lemma SubmittedIsNew(s: State, id: nat, priority: nat)
    requires Can(s, DoSubmit(id, priority))
    ensures Do(s, DoSubmit(id, priority)).jobs == s.jobs[id := Job(Min(Max(priority, 1), 10), Queued, 0)]
  {}

  ghost predicate Next(s: State, s': State) { exists a :: Can(s, a) && s' == Do(s, a) }

  /** The steps that go on when no request arrives. */
  ghost predicate Internal(s: State, s': State) { exists a :: !IsRequest(a) && Can(s, a) && s' == Do(s, a) }

  lemma SubmitKeepsInv(s: State, id: nat, priority: nat)
    requires Inv(s) && id !in s.jobs
    ensures Inv(Submit(s, id, priority))
  {
    var s' := Submit(s, id, priority);
    forall x | x in s'.jobs && s'.jobs[x].status == Queued ensures Attended(s', x, s'.jobs[x].priority) {
      if x != id { Kept(s, s', x); }
    }
  }

  /** A job nobody touched stays attended while entries, enqueues and tokens are kept. */
  lemma Kept(s: State, s': State, x: nat)
    requires Inv(s) && x in s.jobs && s.jobs[x].status == Queued
    requires s.heap <= s'.heap && s.pending <= s'.pending && s.hand == s'.hand && s.tokens <= s'.tokens
    requires s.waiting == s'.waiting
    ensures Attended(s', x, s.jobs[x].priority)
  {
    if InHeap(s, x, s.jobs[x].priority) {
      var e :| e in s.heap && e.id == x && e.priority == s.jobs[x].priority;
      assert e in s'.heap;
    }
  }

  lemma EnqueueKeepsInv(s: State, id: nat, priority: nat)
    requires Inv(s) && (id, priority) in s.pending
    ensures Inv(Enqueue(s, id, priority))
  {
    var s' := Enqueue(s, id, priority);
    var e := Entry(Clamp(priority), s.sequence + 1, id);
    assert e in s'.heap && Clamp(priority) == priority;
    forall x | x in s'.jobs && s'.jobs[x].status == Queued ensures Attended(s', x, s'.jobs[x].priority) {
      var p := s.jobs[x].priority;
      if InHeap(s, x, p) {
        var f :| f in s.heap && f.id == x && f.priority == p;
        assert f in s'.heap;
      } else if (x, p) == (id, priority) {
        assert e.id == x && e.priority == p;
      }
    }
  }

  /** Records may change as long as no job becomes queued that was not, and no queued one changes priority. */
  ghost predicate NoneAdded(before: map<nat, Job>, after: map<nat, Job>) {
    forall x :: x in after && after[x].status == Queued ==>
      x in before && before[x].status == Queued && before[x].priority == after[x].priority
  }

  lemma QuietUpdateKeepsInv(s: State, s': State)
    requires Inv(s) && NoneAdded(s.jobs, s'.jobs) && s.heap == s'.heap && s.pending == s'.pending
    requires s.hand == s'.hand && s.waiting == s'.waiting && s.sequence == s'.sequence && s.tokens <= s'.tokens
    ensures Inv(s')
  {
    forall x | x in s'.jobs && s'.jobs[x].status == Queued ensures Attended(s', x, s'.jobs[x].priority) {
      Kept(s, s', x);
    }
  }

  lemma ReprioritiseKeepsInv(s: State, id: nat, priority: nat)
    requires Inv(s)
    ensures Inv(Reprioritise(s, id, priority))
  {
    var s' := Reprioritise(s, id, priority);
    if id in s.jobs && s.jobs[id].status == Active {
      QuietUpdateKeepsInv(s, s');
    } else if id in s.jobs {
      forall x | x in s'.jobs && s'.jobs[x].status == Queued ensures Attended(s', x, s'.jobs[x].priority) {
        if x != id { Kept(s, s', x); }
      }
    }
  }

  lemma PopKeepsInv(s: State, e: Entry)
    requires Inv(s) && s.hand == None && s.waiting == None && e in s.heap
    ensures Inv(Pop(s, e))
  {
    var s' := Pop(s, e);
    forall x | x in s'.jobs && s'.jobs[x].status == Queued ensures Attended(s', x, s'.jobs[x].priority) {
      var p := s.jobs[x].priority;
      if InHeap(s, x, p) {
        var f :| f in s.heap && f.id == x && f.priority == p;
        if f != e { assert f in s'.heap; }
      }
    }
  }

  lemma CheckKeepsInv(s: State)
    requires Inv(s) && s.hand.Some?
    ensures Inv(Check(s))
  {
    var s' := Check(s);
    forall x | x in s'.jobs && s'.jobs[x].status == Queued ensures Attended(s', x, s'.jobs[x].priority) {
      if InHeap(s, x, s.jobs[x].priority) { assert InHeap(s', x, s.jobs[x].priority); }
    }
  }

  lemma AcquireKeepsInv(s: State)
    requires Inv(s) && s.waiting.Some? && s.permits > 0
    ensures Inv(Acquire(s))
  {
    var s' := Acquire(s);
    forall x | x in s'.jobs && s'.jobs[x].status == Queued ensures Attended(s', x, s'.jobs[x].priority) {
      if InHeap(s, x, s.jobs[x].priority) { assert InHeap(s', x, s.jobs[x].priority); }
    }
  }

  lemma StartKeepsInv(s: State, id: nat)
    requires Inv(s) && id in s.tokens
    ensures Inv(StartJob(s, id))
  {
    var s' := StartJob(s, id);
    forall x | x in s'.jobs && s'.jobs[x].status == Queued ensures Attended(s', x, s'.jobs[x].priority) {
      if InHeap(s, x, s.jobs[x].priority) { assert InHeap(s', x, s.jobs[x].priority); }
    }
  }

  lemma OtherKeepsInv(s: State, id: nat, end: End, found: bool)
    requires Inv(s)
    ensures Inv(FinishJob(s, id, end)) && Inv(Cancel(s, id)) && Inv(Signal(s, id, found))
    ensures s.leaving > 0 ==> Inv(Leave(s))
  {
    QuietUpdateKeepsInv(s, FinishJob(s, id, end));
    QuietUpdateKeepsInv(s, Cancel(s, id));
    QuietUpdateKeepsInv(s, Signal(s, id, found));
    if s.leaving > 0 { QuietUpdateKeepsInv(s, Leave(s)); }
  }

  lemma DoKeepsInv(s: State, a: Action)
    requires Inv(s) && Can(s, a)
    ensures Inv(Do(s, a))
  {
    hide Inv, Submit, Enqueue, Cancel, Signal, Reprioritise, Pop, Check, Acquire, StartJob, FinishJob, Leave, MayFinish;
    match a
    case DoSubmit(id, priority) => SubmitKeepsInv(s, id, priority);
    case DoCancel(id) => OtherKeepsInv(s, id, Stop, true);
    case DoReprioritise(id, priority) => ReprioritiseKeepsInv(s, id, priority);
    case DoEnqueue(id, priority) => EnqueueKeepsInv(s, id, priority);
    case DoSignal(id, found) => OtherKeepsInv(s, id, Stop, found);
    case DoPop(e) => PopKeepsInv(s, e);
    case DoCheck => CheckKeepsInv(s);
    case DoAcquire => AcquireKeepsInv(s);
    case DoStart(id) => StartKeepsInv(s, id);
    case DoFinish(id, end) => OtherKeepsInv(s, id, end, true);
    case DoLeave => OtherKeepsInv(s, 0, Stop, true);
  }

  lemma NextKeepsInv(s: State, s': State)
    requires Inv(s) && Next(s, s')
    ensures Inv(s')
  {
    hide Inv, Can, Do;
    var a :| Can(s, a) && s' == Do(s, a);
    DoKeepsInv(s, a);
  }

  /** No queued job is ever forgotten, however the lock sections interleave. */
  lemma {:induction false} NeverStranded(run: seq<State>, i: nat)
    requires run != [] && Inv(run[0]) && i < |run|
    requires forall j :: 0 <= j < |run| - 1 ==> Next(run[j], run[j + 1])
    ensures NoneStranded(run[i])
    ensures Inv(run[i])
    decreases i
  {
    if i > 0 {
      NeverStranded(run, i - 1);
      NextKeepsInv(run[i - 1], run[i]);
    }
  }

  /** The popped entry stays in the scheduler's hand until it is checked. */
  lemma {:induction false} HandKept(run: seq<State>, e: Entry, i: nat, j: nat)
    requires i < j < |run| && forall x :: i <= x < j ==> Next(run[x], run[x + 1])
    requires run[i].hand == None && run[i + 1].hand == Some(e)
    requires forall x :: i < x <= j ==> run[x].hand.Some?
    ensures run[j].hand == Some(e)
    decreases j
  {
    hide Next;
    if j > i + 1 {
      HandKept(run, e, i, j - 1);
      assert Next(run[j - 1], run[j - 1 + 1]);
      HandStep(run[j - 1], run[j]);
    }
  }

  lemma HandStep(s: State, s': State)
    requires Next(s, s') && s.hand.Some? && s'.hand.Some?
    ensures s'.hand == s.hand
  {
    hide IsTop, Min, Live, Clamp, Ended, MayFinish;
    var a :| Can(s, a) && s' == Do(s, a);
  }

  /** A popped job that is live when it is checked, in a later lock section and with whatever happened in
      between, has the smallest priority number of all jobs that are live then and had their entry in
      the heap when it was popped, and among equals the newest entry. */
  lemma PopsBest(run: seq<State>, e: Entry, i: nat, j: nat, f: Entry)
    requires i < j < |run| && forall x :: i <= x < j ==> Next(run[x], run[x + 1])
    requires run[i].hand == None && IsTop(run[i].heap, e) && run[i + 1] == Pop(run[i], e)
    requires forall x :: i < x <= j ==> run[x].hand.Some?
    requires Live(run[j].jobs, e) && f in run[i].heap && Live(run[j].jobs, f)
    ensures run[j].hand == Some(e) && Check(run[j]).waiting == Some(e.id)
    ensures var jobs := run[j].jobs;
            && jobs[e.id].priority <= jobs[f.id].priority
            && (jobs[e.id].priority == jobs[f.id].priority ==> f.sequence <= e.sequence)
  {
    HandKept(run, e, i, j);
    assert Before(e, f);
  }

  /** The permits, free or held: what `max_concurrent_transfers` says. */
  function Capacity(s: State): nat { s.permits + |s.tokens| + |s.running| + s.leaving }

  lemma OneLess<T>(m: multiset<T>, x: T)
    requires x in m
    ensures |m - multiset{x}| == |m| - 1 && |m + multiset{x}| == |m| + 1
  {}

  lemma StartCapacity(s: State, id: nat)
    requires id in s.tokens
    ensures Capacity(StartJob(s, id)) == Capacity(s)
  {
    hide Started, WasCancelled;
    OneLess(s.tokens, id);
  }

  lemma FinishCapacity(s: State, id: nat, end: End)
    requires id in s.running
    ensures Capacity(FinishJob(s, id, end)) == Capacity(s)
  {
    hide Ended;
    OneLess(s.running, id);
  }

  lemma AcquireCapacity(s: State)
    ensures s.waiting.Some? && s.permits > 0 ==> Capacity(Acquire(s)) == Capacity(s)
    ensures s.leaving > 0 ==> Capacity(Leave(s)) == Capacity(s)
  {}

  lemma OtherCapacity(s: State, id: nat, priority: nat, found: bool, e: Entry)
    ensures Capacity(Submit(s, id, priority)) == Capacity(Reprioritise(s, id, priority)) == Capacity(s)
    ensures Capacity(Cancel(s, id)) == Capacity(s)
    ensures Capacity(Enqueue(s, id, priority)) == Capacity(Signal(s, id, found)) == Capacity(Pop(s, e)) == Capacity(s)
    ensures s.hand.Some? ==> Capacity(Check(s)) == Capacity(s)
  {
    hide Live, Clamp;
  }

  /** No step makes or loses a permit. */
  lemma DoKeepsCapacity(s: State, a: Action)
    requires Can(s, a)
    ensures Capacity(Do(s, a)) == Capacity(s)
  {
    hide IsTop, Capacity, Submit, Cancel, Reprioritise, Enqueue, Signal, Pop, Check, Acquire, StartJob, FinishJob, Leave;
    var none := Entry(0, 0, 0);
    match a
    case DoSubmit(id, priority) => OtherCapacity(s, id, priority, true, none);
    case DoCancel(id) => OtherCapacity(s, id, 0, true, none);
    case DoReprioritise(id, priority) => OtherCapacity(s, id, priority, true, none);
    case DoEnqueue(id, priority) => OtherCapacity(s, id, priority, true, none);
    case DoSignal(id, found) => OtherCapacity(s, id, 0, found, none);
    case DoPop(e) => OtherCapacity(s, 0, 0, true, e);
    case DoCheck => OtherCapacity(s, 0, 0, true, none);
    case DoAcquire => AcquireCapacity(s);
    case DoStart(id) => StartCapacity(s, id);
    case DoFinish(id, end) => FinishCapacity(s, id, end);
    case DoLeave => AcquireCapacity(s);
  }

  /** At most as many workers are under way as there were permits at the start. */
  lemma {:induction false} ConcurrencyBounded(run: seq<State>, i: nat)
    requires i < |run| && forall j :: 0 <= j < |run| - 1 ==> Next(run[j], run[j + 1])
    ensures Capacity(run[i]) == Capacity(run[0]) && |run[i].tokens| + |run[i].running| <= Capacity(run[0])
    decreases i
  {
    hide Can, Do;
    if i > 0 {
      ConcurrencyBounded(run, i - 1);
      assert Next(run[i - 1], run[i - 1 + 1]);
      var a :| Can(run[i - 1], a) && run[i] == Do(run[i - 1], a);
      DoKeepsCapacity(run[i - 1], a);
    }
  }

  /** A daemon that has just been set up, with that many permits. */
  function Idle(permits: nat): State {
    State(map[], multiset{}, 0, multiset{}, multiset{}, None, None, permits, multiset{}, multiset{}, 0, {})
  }

  ghost predicate IsRun(run: seq<State>) { run != [] && forall j :: 0 <= j < |run| - 1 ==> Next(run[j], run[j + 1]) }

  /** A quiet daemon with an empty heap has no queued job. */
  lemma EmptyHeapMeansIdle(s: State, id: nat)
    requires Inv(s) && s.heap == multiset{} && s.pending == multiset{} && s.hand == None && s.tokens == multiset{}
    requires s.waiting == None
    requires id in s.jobs
    ensures s.jobs[id].status != Queued
  {
    assert s.jobs[id].status == Queued ==> Attended(s, id, s.jobs[id].priority);
  }

  /** One entry for each queued job outside `todo`, with its priority, and no other entry. */
  ghost predicate Rebuilt(jobs: map<nat, Job>, todo: set<nat>, heap: multiset<Entry>, sequence: nat) {
    && (forall e :: e in heap ==> heap[e] == 1 && Live(jobs, e) && e.id !in todo && e.sequence <= sequence)
    && (forall e, f :: e in heap && f in heap && e.id == f.id ==> e == f)
    && (forall id :: id in jobs && id !in todo && jobs[id].status == Queued ==> exists e :: e in heap && e.id == id)
  }

  lemma RebuiltEntry(jobs: map<nat, Job>, todo: set<nat>, heap: multiset<Entry>, sequence: nat, id: nat, f: Entry)
    requires Rebuilt(jobs, todo, heap, sequence) && id in todo && id in jobs && jobs[id].status == Queued
    requires f in heap + multiset{Entry(jobs[id].priority, sequence + 1, id)}
    ensures (heap + multiset{Entry(jobs[id].priority, sequence + 1, id)})[f] == 1 && Live(jobs, f)
    ensures f.id !in todo - {id} && f.sequence <= sequence + 1
    ensures f == Entry(jobs[id].priority, sequence + 1, id) || (f in heap && f.id != id)
  {}

  lemma RebuildStep(jobs: map<nat, Job>, todo: set<nat>, heap: multiset<Entry>, sequence: nat, id: nat)
    requires Rebuilt(jobs, todo, heap, sequence) && id in todo && id in jobs && jobs[id].status == Queued
    ensures Rebuilt(jobs, todo - {id}, heap + multiset{Entry(jobs[id].priority, sequence + 1, id)}, sequence + 1)
  {
    hide Live;
    var e := Entry(jobs[id].priority, sequence + 1, id);
    var heap' := heap + multiset{e};
    forall f | f in heap' ensures heap'[f] == 1 && Live(jobs, f) && f.id !in todo - {id} && f.sequence <= sequence + 1 {
      RebuiltEntry(jobs, todo, heap, sequence, id, f);
    }
    forall f, g | f in heap' && g in heap' && f.id == g.id ensures f == g {
      RebuiltEntry(jobs, todo, heap, sequence, id, f);
      RebuiltEntry(jobs, todo, heap, sequence, id, g);
    }
    forall x | x in jobs && x !in todo - {id} && jobs[x].status == Queued ensures exists f :: f in heap' && f.id == x {
      if x == id {
        assert e in heap';
      } else {
        var f :| f in heap && f.id == x;
        assert f in heap';
      }
    }
  }

  /** The queue of a restarted daemon. */
  method RebuildQueue(jobs: map<nat, Job>) returns (heap: multiset<Entry>, sequence: nat)
    ensures Rebuilt(jobs, {}, heap, sequence)
  {
    heap, sequence := multiset{}, 0;
    var todo := jobs.Keys;
    while todo != {}
      invariant todo <= jobs.Keys && Rebuilt(jobs, todo, heap, sequence)
      decreases todo
    {
      var id :| id in todo;
      if jobs[id].status == Queued {
        RebuildStep(jobs, todo, heap, sequence, id);
        sequence := sequence + 1;
        heap := heap + multiset{Entry(jobs[id].priority, sequence, id)};
      }
      todo := todo - {id};
    }
  }

  /** A restarted daemon attends to every queued job. */
  lemma RebuiltInv(s: State)
    requires Rebuilt(s.jobs, {}, s.heap, s.sequence) && s.pending == multiset{} && s.hand == None
    ensures Inv(s)
  {
    forall id | id in s.jobs && s.jobs[id].status == Queued ensures Attended(s, id, s.jobs[id].priority) {
      var e :| e in s.heap && e.id == id;
      assert Live(s.jobs, e);
    }
  }

  class Scheduler {
    var jobs: map<nat, Job>
    var heap: multiset<Entry>
    var sequence: nat
    var pending: multiset<(nat, nat)>
    var signals: multiset<nat>
    var hand: Option<Entry>
    var waiting: Option<nat>
    var permits: nat
    var tokens: multiset<nat>
    var running: multiset<nat>
    var leaving: nat
    var stopped: set<nat>

    ghost function View(): State
      reads this
    {
      State(jobs, heap, sequence, pending, signals, hand, waiting, permits, tokens, running, leaving, stopped)
    }

    constructor (recovered: map<nat, Job>, maxConcurrent: nat)
      ensures jobs == recovered && permits == maxConcurrent && Rebuilt(jobs, {}, heap, sequence) && Inv(View())
      ensures View() == Idle(maxConcurrent).(jobs := recovered, heap := heap, sequence := sequence)
    {
      var queue, count := RebuildQueue(recovered);
      RebuiltInv(Idle(maxConcurrent).(jobs := recovered, heap := queue, sequence := count));
      jobs, heap, sequence := recovered, queue, count;
      pending, signals, hand, waiting := multiset{}, multiset{}, None, None;
      permits, tokens, running, leaving, stopped := maxConcurrent, multiset{}, multiset{}, 0, {};
    }

    method SubmitTransfer(id: nat, priority: nat) returns (clamped: nat)
      requires Inv(View()) && id !in jobs
      modifies this
      ensures View() == Submit(old(View()), id, priority) && clamped == Clamp(priority) && Inv(View())
    {
      SubmitKeepsInv(View(), id, priority);
      clamped := Clamp(priority);
      jobs := jobs[id := Job(clamped, Queued, 0)];
      pending := pending + multiset{(id, clamped)};
    }

    method EnqueueTransfer(id: nat, priority: nat)
      requires Inv(View()) && (id, priority) in pending
      modifies this
      ensures View() == Enqueue(old(View()), id, priority) && Inv(View())
    {
      EnqueueKeepsInv(View(), id, priority);
      sequence := sequence + 1;
      heap := heap + multiset{Entry(Clamp(priority), sequence, id)};
      pending := pending - multiset{(id, priority)};
    }

    method CancelTransfer(id: nat) returns (found: bool)
      requires Inv(View())
      modifies this
      ensures View() == Cancel(old(View()), id) && found == (id in jobs) && Inv(View())
    {
      OtherKeepsInv(View(), id, Stop, true);
      found := id in jobs;
      if found {
        jobs := jobs[id := jobs[id].(status := Cancelled)];
        signals := signals + multiset{id};
      }
    }

    /** Fires the cancellation channel of a job, if it is there. */
    method SignalCancel(id: nat, found: bool)
      requires Inv(View()) && id in signals
      modifies this
      ensures View() == Signal(old(View()), id, found) && Inv(View())
    {
      OtherKeepsInv(View(), id, Stop, found);
      signals := signals - multiset{id};
      if found { stopped := stopped + {id}; }
    }

    method UpdatePriority(id: nat, priority: nat) returns (found: bool)
      requires Inv(View())
      modifies this
      ensures View() == Reprioritise(old(View()), id, priority) && found == (id in jobs) && Inv(View())
    {
      hide Inv;
      ReprioritiseKeepsInv(View(), id, priority);
      found := id in jobs;
      if !found { return; }
      var enqueue := jobs[id].status != Active;
      jobs := jobs[id := jobs[id].(priority := Clamp(priority))];
      if enqueue {
        jobs := jobs[id := jobs[id].(status := Queued)];
        pending := pending + multiset{(id, Clamp(priority))};
      }
    }

    /** Takes the top entry, if there is one. */
    method PopNext() returns (popped: bool)
      requires Inv(View()) && hand == None && waiting == None
      modifies this
      ensures popped <==> old(heap) != multiset{}
      ensures popped ==> hand.Some? && IsTop(old(heap), hand.value) && View() == Pop(old(View()), hand.value)
      ensures !popped ==> View() == old(View())
      ensures Inv(View())
    {
      popped := heap != multiset{};
      if popped {
        ghost var top := TopExists(heap);
        var e :| e in heap && forall f :: f in heap ==> Before(e, f);
        PopKeepsInv(View(), e);
        heap, hand := heap - multiset{e}, Some(e);
      }
    }

    /** Drops a stale entry, or lets the job start. */
    method CheckEntry() returns (live: bool)
      requires Inv(View()) && hand.Some?
      modifies this
      ensures View() == Check(old(View())) && live == Live(jobs, old(hand).value) && Inv(View())
    {
      CheckKeepsInv(View());
      var e := hand.value;
      live := e.id in jobs && jobs[e.id].status == Queued && jobs[e.id].priority == e.priority;
      if live { waiting := Some(e.id); }
      hand := None;
    }

    /** Gives a free permit to the job that waits for it. */
    method AcquirePermit()
      requires Inv(View()) && waiting.Some? && permits > 0
      modifies this
      ensures View() == Acquire(old(View())) && Inv(View()) && Capacity(View()) == old(Capacity(View()))
    {
      hide Inv, Capacity;
      AcquireKeepsInv(View());
      AcquireCapacity(View());
      tokens := tokens + multiset{waiting.value};
      waiting, permits := None, permits - 1;
    }

    method Start(id: nat)
      requires Inv(View()) && id in tokens
      modifies this`jobs, this`tokens, this`running, this`leaving
      ensures View() == StartJob(old(View()), id) && Inv(View()) && Capacity(View()) == old(Capacity(View()))
    {
      hide Inv, Capacity, Started, WasCancelled, Joined;
      StartKeepsInv(View(), id);
      StartCapacity(View(), id);
      var cancelled := MarkActive(id);
      tokens := tokens - multiset{id};
      running := Joined(running, id, cancelled);
      leaving := if cancelled then leaving + 1 else leaving;
    }

    method MarkActive(id: nat) returns (cancelled: bool)
      modifies this`jobs
      ensures jobs == Started(old(jobs), id) && cancelled == WasCancelled(old(View()), id)
    {
      cancelled := id in jobs && jobs[id].status == Cancelled;
      if id in jobs && !cancelled {
        jobs := jobs[id := jobs[id].(status := Active, attempts := Min(jobs[id].attempts + 1, U32_LIMIT - 1))];
      }
    }

    method Finish(id: nat, end: End)
      requires Inv(View()) && MayFinish(View(), id, end)
      modifies this`jobs, this`running, this`leaving
      ensures View() == FinishJob(old(View()), id, end) && Inv(View()) && Capacity(View()) == old(Capacity(View()))
    {
      hide Inv, Capacity;
      OtherKeepsInv(View(), id, end, true);
      FinishCapacity(View(), id, end);
      running, leaving := running - multiset{id}, leaving + 1;
      if id !in jobs || end == Stop || end == Quit { return; }
      if end == Failure {
        jobs := jobs[id := jobs[id].(status := Failed)];
      } else if jobs[id].status != Cancelled {
        jobs := jobs[id := jobs[id].(status := Completed)];
      }
    }

    method ReleasePermit()
      requires Inv(View()) && leaving > 0
      modifies this
      ensures View() == Leave(old(View())) && Inv(View()) && Capacity(View()) == old(Capacity(View()))
    {
      hide Inv, Capacity;
      OtherKeepsInv(View(), 0, Stop, true);
      AcquireCapacity(View());
      leaving, permits := leaving - 1, permits + 1;
    }
  }
}
