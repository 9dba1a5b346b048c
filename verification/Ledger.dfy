/** The daemon together with the log it writes: when a restart finds the statuses that the records had. */
module Ledger {
  import opened Bytes
  import opened Daemon
  import opened Journal
  import Workers

  /** `reports` are the progress reports on their way to the log; each is a task of its own and may come late. */
  datatype Ledger = Ledger(daemon: State, log: seq<Event>, reports: multiset<nat>)

  /** An action of the daemon with the line it appends, if any; a progress report is sent off, or written. */
  datatype Act = Act(a: Action, line: Event) | Spawn(id: nat) | Report(line: Event)

  /** The status that an action writes to the log. A worker that runs through writes Completed, whatever the record
      says; one that is stopped or quits writes nothing. */
  function Says(s: State, a: Action): Option<(nat, Status)> {
    match a
    case DoSubmit(id, _) => Some((id, Queued))
    case DoCancel(id) => if id in s.jobs then Some((id, Cancelled)) else None
    case DoReprioritise(id, _) =>
      if id !in s.jobs then None else Some((id, if s.jobs[id].status == Active then Active else Queued))
    case DoStart(id) => if WasCancelled(s, id) then None else Some((id, Active))
    case DoFinish(id, Success) => Some((id, Completed))
    case DoFinish(id, Failure) => Some((id, Failed))
    case _ => None
  }

  ghost predicate CanAct(x: Ledger, act: Act) {
    match act
    case Act(a, line) =>
      && Can(x.daemon, a)
      && var says := Says(x.daemon, a); says.Some? ==> line.id == says.value.0 && line.status == Some(says.value.1)
    case Spawn(id) => id in x.daemon.running
    case Report(line) => line.id in x.reports && line.status == Some(Active)
  }

  ghost function DoAct(x: Ledger, act: Act): Ledger
    requires CanAct(x, act)
  {
    match act
    case Act(a, line) =>
      x.(daemon := Do(x.daemon, a), log := if Says(x.daemon, a).Some? then x.log + [line] else x.log)
    case Spawn(id) => x.(reports := x.reports + multiset{id})
    case Report(line) => x.(log := x.log + [line], reports := x.reports - multiset{line.id})
  }

  ghost predicate IsTrace(run: seq<Ledger>, acts: seq<Act>) {
    && |run| == |acts| + 1
    && forall i :: 0 <= i < |acts| ==> CanAct(run[i], acts[i]) && run[i + 1] == DoAct(run[i], acts[i])
  }

  /** The last status in the log is the one the record has, for every job. */
  ghost predicate Agree(jobs: map<nat, Job>, log: seq<Event>) {
    forall id :: id in jobs ==> LastSome(log, id, StatusOf) == Some(jobs[id].status)
  }

  /** A restart, with whatever snapshot, finds every job with the status it had. */
  ghost predicate Recovers(x: Ledger) {
    forall list, id :: id in x.daemon.jobs ==> Finds(list, x.log, id, x.daemon.jobs[id].status)
  }

  ghost predicate Finds(list: seq<(nat, Record)>, log: seq<Event>, id: nat, status: Status) {
    id in Replay(FromSnapshot(list), log) && Replay(FromSnapshot(list), log)[id].status == status
  }

  lemma LoggedIsFound(list: seq<(nat, Record)>, log: seq<Event>, id: nat)
    requires LastSome(log, id, StatusOf).Some?
    ensures Finds(list, log, id, LastSome(log, id, StatusOf).value)
  {
    hide LastSome, Replay, FromSnapshot;
    var records := FromSnapshot(list);
    if !Mentions(log, id) { NoMention(log, id, StatusOf); }
    LogDecides(records, log, id);
    StatusAfter(records, log, id);
  }

  /** A record that a snapshot may hold. */
  function Blurred(status: Status): Record {
    Record("", "", 5, status, 0.0, 0.0, 0, 0, None, 0, 0, 0)
  }

  /** A status that the log does not carry is that of the snapshot. */
  lemma SnapshotShows(log: seq<Event>, id: nat, status: Status)
    requires LastSome(log, id, StatusOf) == None && status != Active
    ensures Finds([(id, Blurred(status))], log, id, status)
  {
    var list := [(id, Blurred(status))];
    assert list[..0] == [] && FromSnapshot(list) == map[id := Blurred(status)];
    hide LastSome, Replay, FromSnapshot;
    LogDecides(FromSnapshot(list), log, id);
    StatusAfter(FromSnapshot(list), log, id);
  }

  lemma RecoversMeansAgree(x: Ledger)
    ensures Recovers(x) <==> Agree(x.daemon.jobs, x.log)
  {
    hide Finds, LastSome;
    var jobs, log := x.daemon.jobs, x.log;
    if Agree(jobs, log) {
      forall list, id | id in jobs ensures Finds(list, log, id, jobs[id].status) { LoggedIsFound(list, log, id); }
    }
    if Recovers(x) {
      forall id | id in jobs ensures LastSome(log, id, StatusOf) == Some(jobs[id].status) {
        FoundIsLogged(log, id, jobs[id].status);
      }
    }
  }

  lemma FoundIsLogged(log: seq<Event>, id: nat, status: Status)
    requires forall list :: Finds(list, log, id, status)
    ensures LastSome(log, id, StatusOf) == Some(status)
  {
    hide LastSome, Replay, FromSnapshot;
    if LastSome(log, id, StatusOf).Some? {
      LoggedIsFound([], log, id);
      assert Finds([], log, id, status);
    } else {
      var other := if status == Completed then Failed else Completed;
      SnapshotShows(log, id, other);
      FindsOne([(id, Blurred(other))], log, id, other, status);
    }
  }

  lemma FindsOne(list: seq<(nat, Record)>, log: seq<Event>, id: nat, a: Status, b: Status)
    requires Finds(list, log, id, a) && Finds(list, log, id, b)
    ensures a == b
  {}

  /** The line is untrue when it is written: a worker runs through a job that was cancelled, or a progress report
      comes when the job is not active. */
  predicate Misreports(x: Ledger, act: Act) {
    match act
    case Act(a, _) => a.DoFinish? && a.end == Success && WasCancelled(x.daemon, a.id)
    case Spawn(_) => false
    case Report(line) => line.id in x.daemon.jobs && x.daemon.jobs[line.id].status != Active
  }

  /** The jobs other than `id` are the same, up to their priorities. */
  ghost predicate OthersSame(before: map<nat, Job>, after: map<nat, Job>, id: nat) {
    forall x :: x in after && x != id ==> x in before && before[x].status == after[x].status
  }

  ghost predicate StatusesSame(before: map<nat, Job>, after: map<nat, Job>) {
    forall x :: x in after ==> x in before && before[x].status == after[x].status
  }

  lemma LastLine(log: seq<Event>, line: Event, id: nat)
    requires line.status.Some?
    ensures LastSome(log + [line], id, StatusOf) == if id == line.id then line.status else LastSome(log, id, StatusOf)
  {
    assert (log + [line])[..|log|] == log;
  }

  lemma LineAgrees(before: map<nat, Job>, after: map<nat, Job>, log: seq<Event>, line: Event)
    requires Agree(before, log) && line.status.Some? && OthersSame(before, after, line.id)
    ensures Agree(after, log + [line]) <==> (line.id in after ==> after[line.id].status == line.status.value)
  {
    forall id ensures LastSome(log + [line], id, StatusOf)
                   == if id == line.id then line.status else LastSome(log, id, StatusOf) {
      LastLine(log, line, id);
    }
    hide LastSome;
  }

  /** What an action does to the statuses is what it writes, except for a success of a cancelled job. */
  ghost predicate SaysIt(s: State, a: Action, after: map<nat, Job>) {
    if Says(s, a).None? then StatusesSame(s.jobs, after)
    else
      var (id, status) := Says(s, a).value;
      && OthersSame(s.jobs, after, id)
      && (id in after ==> (after[id].status == status <==> !(a == DoFinish(id, Success) && WasCancelled(s, id))))
  }

  lemma RequestSays(s: State, id: nat, priority: nat)
    ensures id !in s.jobs ==> SaysIt(s, DoSubmit(id, priority), Submit(s, id, priority).jobs)
    ensures SaysIt(s, DoCancel(id), Cancel(s, id).jobs)
    ensures SaysIt(s, DoReprioritise(id, priority), Reprioritise(s, id, priority).jobs)
  {
    hide Clamp;
  }

  lemma WorkerSays(s: State, id: nat, end: End)
    ensures SaysIt(s, DoStart(id), StartJob(s, id).jobs)
    ensures MayFinish(s, id, end) ==> SaysIt(s, DoFinish(id, end), FinishJob(s, id, end).jobs)
  {
    hide Min;
  }

  lemma RestSays(s: State, a: Action)
    requires Can(s, a) && !IsRequest(a) && !a.DoStart? && !a.DoFinish?
    ensures Says(s, a) == None && Do(s, a).jobs == s.jobs
  {
    hide IsTop, Live, Clamp, StartJob, FinishJob, Submit, Cancel, Reprioritise;
  }

  lemma SaysWhatItDoes(s: State, a: Action)
    requires Can(s, a)
    ensures SaysIt(s, a, Do(s, a).jobs)
  {
    if IsRequest(a) || a.DoStart? || a.DoFinish? {
      hide SaysIt, Submit, Cancel, Reprioritise, StartJob, FinishJob, MayFinish, IsTop;
      match a
      case DoSubmit(id, priority) => RequestSays(s, id, priority);
      case DoCancel(id) => RequestSays(s, id, 0);
      case DoReprioritise(id, priority) => RequestSays(s, id, priority);
      case DoStart(id) => WorkerSays(s, id, Stop);
      case DoFinish(id, end) => WorkerSays(s, id, end);
    } else {
      hide Can, Do, Says;
      RestSays(s, a);
    }
  }

  lemma ActAgrees(x: Ledger, act: Act)
    requires CanAct(x, act) && Agree(x.daemon.jobs, x.log)
    ensures Agree(DoAct(x, act).daemon.jobs, DoAct(x, act).log) <==> !Misreports(x, act)
  {
    hide Can, Do, Says, Agree, WasCancelled;
    match act
    case Act(a, line) =>
      SaysWhatItDoes(x.daemon, a);
      if a.DoFinish? && a.end == Success { SuccessSays(x.daemon, a); }
      if Says(x.daemon, a).Some? {
        LineAgrees(x.daemon.jobs, Do(x.daemon, a).jobs, x.log, line);
      } else {
        StillAgree(x.daemon.jobs, Do(x.daemon, a).jobs, x.log);
      }
    case Spawn(_) =>
    case Report(line) => LineAgrees(x.daemon.jobs, x.daemon.jobs, x.log, line);
  }

  lemma StillAgree(before: map<nat, Job>, after: map<nat, Job>, log: seq<Event>)
    requires Agree(before, log) && StatusesSame(before, after)
    ensures Agree(after, log)
  {}

  lemma SuccessSays(s: State, a: Action)
    requires Can(s, a) && a.DoFinish? && a.end == Success
    ensures Says(s, a) == Some((a.id, Completed)) && Do(s, a).jobs.Keys == s.jobs.Keys
    ensures WasCancelled(s, a.id) ==> a.id in s.jobs
  {
    hide IsTop, Live, Clamp, Min;
  }

  lemma {:induction false} AgreeUntil(run: seq<Ledger>, acts: seq<Act>, i: nat)
    requires IsTrace(run, acts) && Agree(run[0].daemon.jobs, run[0].log) && i < |run|
    requires forall j :: 0 <= j < |acts| ==> !Misreports(run[j], acts[j])
    ensures Agree(run[i].daemon.jobs, run[i].log)
  {
    hide CanAct, DoAct, Agree, Misreports;
    if i > 0 {
      AgreeUntil(run, acts, i - 1);
      assert run[i - 1 + 1] == DoAct(run[i - 1], acts[i - 1]) && !Misreports(run[i - 1], acts[i - 1]);
      ActAgrees(run[i - 1], acts[i - 1]);
    }
  }

  /** A restart finds every job with the status it had, at any time and with any snapshot, if and only if no worker
      runs through a cancelled job and no progress report comes when its job is not active. */
  lemma LogTellsStatus(run: seq<Ledger>, acts: seq<Act>)
    requires IsTrace(run, acts) && Recovers(run[0])
    ensures (forall i :: 0 <= i < |run| ==> Recovers(run[i]))
            <==> (forall i :: 0 <= i < |acts| ==> !Misreports(run[i], acts[i]))
  {
    hide CanAct, DoAct, Agree, Misreports, Recovers;
    RecoversMeansAgree(run[0]);
    if forall i :: 0 <= i < |acts| ==> !Misreports(run[i], acts[i]) {
      forall i | 0 <= i < |run| ensures Recovers(run[i]) {
        AgreeUntil(run, acts, i);
        RecoversMeansAgree(run[i]);
      }
    }
    if forall i :: 0 <= i < |run| ==> Recovers(run[i]) {
      forall i | 0 <= i < |acts| ensures !Misreports(run[i], acts[i]) {
        assert Recovers(run[i]) && Recovers(run[i + 1]);
        RecoversMeansAgree(run[i]);
        RecoversMeansAgree(run[i + 1]);
        ActAgrees(run[i], acts[i]);
      }
    }
  }

  /** A line with nothing but a status. */
  function Plain(id: nat, status: Status): Event {
    Event(id, 0, None, None, None, Some(status), None, None, None, None, None)
  }

  function LineOf(s: State, a: Action): Event {
    var says := Says(s, a);
    if says.Some? then Plain(says.value.0, says.value.1) else Plain(0, Queued)
  }

  /** A new daemon with an empty log. */
  function Blank(permits: nat): Ledger { Ledger(Idle(permits), [], multiset{}) }

  lemma Extend(run: seq<Ledger>, acts: seq<Act>, act: Act) returns (run': seq<Ledger>, acts': seq<Act>)
    requires IsTrace(run, acts) && CanAct(run[|run| - 1], act)
    ensures IsTrace(run', acts') && run'[0] == run[0] && run'[|run'| - 1] == DoAct(run[|run| - 1], act)
  {
    hide CanAct, DoAct;
    run', acts' := run + [DoAct(run[|run| - 1], act)], acts + [act];
  }

  /** Every run of the daemon writes some log. */
  lemma {:induction false} Lift(r: seq<State>) returns (run: seq<Ledger>, acts: seq<Act>)
    requires IsRun(r)
    ensures IsTrace(run, acts) && run[0] == Ledger(r[0], [], multiset{})
    ensures run[|run| - 1].daemon == r[|r| - 1] && run[|run| - 1].reports == multiset{}
    decreases |r|
  {
    if |r| == 1 {
      run, acts := [Ledger(r[0], [], multiset{})], [];
    } else {
      hide Next, CanAct, DoAct;
      var last := |r| - 1;
      forall j | 0 <= j < last - 1 ensures Next(r[..last][j], r[..last][j + 1]) { assert Next(r[j], r[j + 1]); }
      run, acts := Lift(r[..last]);
      assert Next(r[last - 1], r[last - 1 + 1]);
      run, acts := LiftStep(run, acts, r[last]);
    }
  }

  lemma LiftStep(run: seq<Ledger>, acts: seq<Act>, s: State) returns (run': seq<Ledger>, acts': seq<Act>)
    requires |run| > 0 && IsTrace(run, acts) && Next(run[|run| - 1].daemon, s)
    ensures IsTrace(run', acts') && run'[0] == run[0]
    ensures run'[|run'| - 1].daemon == s && run'[|run'| - 1].reports == run[|run| - 1].reports
  {
    hide Can, Do, Says, IsTrace;
    var last := run[|run| - 1];
    var a :| Can(last.daemon, a) && s == Do(last.daemon, a);
    run', acts' := Extend(run, acts, Act(a, LineOf(last.daemon, a)));
  }

  /** A job cancelled just before its worker is through: the record says Cancelled, and every restart finds
      Completed. */
  lemma CancelledThenCompleted() returns (run: seq<Ledger>, acts: seq<Act>)
    ensures IsTrace(run, acts) && run[0] == Blank(1)
    ensures var last := run[|run| - 1];
            && 1 in last.daemon.jobs && last.daemon.jobs[1].status == Cancelled
            && forall list :: Finds(list, last.log, 1, Completed)
  {
    var r := Workers.StartAndCancel();
    run, acts := Lift(r);
    run, acts := FinishWith(run, acts, Plain(1, Completed));
  }

  /** The worker of job 1 is through and writes its line. */
  lemma FinishWith(run: seq<Ledger>, acts: seq<Act>, line: Event) returns (run': seq<Ledger>, acts': seq<Act>)
    requires IsTrace(run, acts) && 1 in run[|run| - 1].daemon.running && line == Plain(1, Completed)
    ensures IsTrace(run', acts') && run'[0] == run[0]
    ensures var last, last' := run[|run| - 1], run'[|run'| - 1];
            && last'.daemon.jobs == Ended(last.daemon.jobs, 1, Success) && last'.reports == last.reports
            && forall list :: Finds(list, last'.log, 1, Completed)
  {
    var last := run[|run| - 1];
    assert CanAct(last, Act(DoFinish(1, Success), line));
    run', acts' := Extend(run, acts, Act(DoFinish(1, Success), line));
    hide IsTrace, Finds, LastSome;
    FoundAtOnce(last.log, line);
  }

  lemma FoundAtOnce(log: seq<Event>, line: Event)
    requires line.status.Some?
    ensures forall list :: Finds(list, log + [line], line.id, line.status.value)
  {
    hide Finds, LastSome;
    LastLine(log, line, line.id);
    forall list ensures Finds(list, log + [line], line.id, line.status.value) {
      LoggedIsFound(list, log + [line], line.id);
    }
  }

  /** A progress report that comes after the end of its job: the record says Completed, and every restart finds
      Active, with no entry in the queue. */
  lemma LateProgress() returns (run: seq<Ledger>, acts: seq<Act>)
    ensures IsTrace(run, acts) && run[0] == Blank(1)
    ensures var last := run[|run| - 1];
            && 1 in last.daemon.jobs && last.daemon.jobs[1].status == Completed
            && forall list :: Finds(list, last.log, 1, Active)
  {
    var r := Workers.SubmitAndStart();
    run, acts := Lift(r);
    run, acts := Extend(run, acts, Spawn(1));
    run, acts := FinishWith(run, acts, Plain(1, Completed));
    var last, line := run[|run| - 1], Plain(1, Active);
    assert CanAct(last, Report(line));
    run, acts := Extend(run, acts, Report(line));
    hide IsTrace, Finds, LastSome;
    FoundAtOnce(last.log, line);
  }
}
