/** Recovery of the daemon's records from its snapshot and its event log. */
module Journal {
  import opened Bytes
  import Daemon

  datatype Record = Record(
    source: string, destination: string, priority: nat, status: Daemon.Status, progress: real, throughput: real,
    transferred: nat, total: nat, error: Option<string>, created: nat, updated: nat, attempts: nat)

  /** A line of the log: the fields it carries, for one transfer. */
  datatype Event = Event(
    id: nat, time: nat, source: Option<string>, destination: Option<string>, priority: Option<nat>,
    status: Option<Daemon.Status>, progress: Option<real>, throughput: Option<real>,
    transferred: Option<nat>, total: Option<nat>, error: Option<string>)

  type Records = map<nat, Record>

  function Or<T>(o: Option<T>, otherwise: T): T { if o.Some? then o.value else otherwise }

  function OrElse<T>(o: Option<T>, otherwise: Option<T>): Option<T> { if o.Some? then o else otherwise }

  /** The record of a transfer the snapshot does not know. */
  function Blank(e: Event): Record {
    Record(Or(e.source, ""), Or(e.destination, ""), Or(e.priority, 5), Or(e.status, Daemon.Queued), Or(e.progress, 0.0),
           Or(e.throughput, 0.0), Or(e.transferred, 0), Or(e.total, 0), e.error, e.time, e.time, 0)
  }

  /** The record with the fields that the event carries. */
  function Apply(r: Record, e: Event): Record {
    Record(Or(e.source, r.source), Or(e.destination, r.destination), Or(e.priority, r.priority), Or(e.status, r.status),
           Or(e.progress, r.progress), Or(e.throughput, r.throughput), Or(e.transferred, r.transferred),
           Or(e.total, r.total), OrElse(e.error, r.error), if r.created == 0 then e.time else r.created,
           e.time, r.attempts)
  }

  /** Field by field. */
  method ApplyEvent(r: Record, e: Event) returns (rec: Record)
    ensures rec == Apply(r, e)
  {
    var source, destination, priority, status := r.source, r.destination, r.priority, r.status;
    var progress, throughput, transferred, total := r.progress, r.throughput, r.transferred, r.total;
    var error, created := r.error, r.created;
    if e.source.Some? { source := e.source.value; }
    assert source == Or(e.source, r.source);
    if e.destination.Some? { destination := e.destination.value; }
    assert destination == Or(e.destination, r.destination);
    if e.priority.Some? { priority := e.priority.value; }
    assert priority == Or(e.priority, r.priority);
    if e.status.Some? { status := e.status.value; }
    assert status == Or(e.status, r.status);
    if e.progress.Some? { progress := e.progress.value; }
    assert progress == Or(e.progress, r.progress);
    if e.throughput.Some? { throughput := e.throughput.value; }
    assert throughput == Or(e.throughput, r.throughput);
    if e.transferred.Some? { transferred := e.transferred.value; }
    assert transferred == Or(e.transferred, r.transferred);
    if e.total.Some? { total := e.total.value; }
    assert total == Or(e.total, r.total);
    if e.error.Some? { error := e.error; }
    if created == 0 { created := e.time; }
    rec := Record(source, destination, priority, status, progress, throughput, transferred, total, error, created,
                  e.time, r.attempts);
  }

  function Entry(records: Records, e: Event): Record { if e.id in records then records[e.id] else Blank(e) }

  function Replay(records: Records, log: seq<Event>): Records {
    if log == [] then records
    else
      var last := |log| - 1;
      var before := Replay(records, log[..last]);
      before[log[last].id := Apply(Entry(before, log[last]), log[last])]
  }

  /** A job that was running when the snapshot was taken is queued again. */
  function Normalise(r: Record): Record { if r.status == Daemon.Active then r.(status := Daemon.Queued) else r }

  function FromSnapshot(list: seq<(nat, Record)>): Records {
    if list == [] then map[]
    else
      var last := |list| - 1;
      FromSnapshot(list[..last])[list[last].0 := Normalise(list[last].1)]
  }

  /** The state of a restarted daemon. */
  method LoadRecords(snapshot: seq<(nat, Record)>, log: seq<Event>) returns (records: Records)
    ensures records == Replay(FromSnapshot(snapshot), log)
  {
    records := map[];
    for i := 0 to |snapshot|
      invariant records == FromSnapshot(snapshot[..i])
    {
      assert snapshot[..i + 1][..i] == snapshot[..i];
      var (id, rec) := snapshot[i];
      if rec.status == Daemon.Active { rec := rec.(status := Daemon.Queued); }
      records := records[id := rec];
    }
    assert snapshot[..|snapshot|] == snapshot;
    for i := 0 to |log|
      invariant records == Replay(FromSnapshot(snapshot), log[..i])
    {
      assert log[..i + 1][..i] == log[..i];
      var rec := ApplyEvent(Entry(records, log[i]), log[i]);
      records := records[log[i].id := rec];
    }
    assert log[..|log|] == log;
  }

  /** Two events of one transfer as one: the later value of each field wins. */
  function Merge(a: Event, b: Event): Event {
    Event(b.id, b.time, OrElse(b.source, a.source), OrElse(b.destination, a.destination), OrElse(b.priority, a.priority),
          OrElse(b.status, a.status), OrElse(b.progress, a.progress), OrElse(b.throughput, a.throughput),
          OrElse(b.transferred, a.transferred), OrElse(b.total, a.total), OrElse(b.error, a.error))
  }

  /** Applying two events is applying their merge, up to the creation time. */
  lemma ApplyMerge(r: Record, a: Event, b: Event)
    ensures Apply(Apply(r, a), b) == Apply(r, Merge(a, b)).(created := Apply(Apply(r, a), b).created)
  {}

  predicate Mentions(log: seq<Event>, id: nat) { exists i :: 0 <= i < |log| && log[i].id == id }

  /** All events of one transfer in the log as one. */
  function Net(log: seq<Event>, id: nat): (e: Event)
    requires Mentions(log, id)
  {
    var last := |log| - 1;
    if log[last].id != id then NotLast(log, id); Net(log[..last], id)
    else if Mentions(log[..last], id) then Merge(Net(log[..last], id), log[last])
    else log[last]
  }

  lemma NotLast(log: seq<Event>, id: nat)
    requires Mentions(log, id) && log[|log| - 1].id != id
    ensures Mentions(log[..|log| - 1], id)
  {
    var i :| 0 <= i < |log| && log[i].id == id;
    assert log[..|log| - 1][i].id == id;
  }

  /** The last value that the events of `id` give to a field. */
  function LastSome<T>(log: seq<Event>, id: nat, field: Event -> Option<T>): Option<T> {
    if log == [] then None
    else
      var last := |log| - 1;
      if log[last].id == id && field(log[last]).Some? then field(log[last]) else LastSome(log[..last], id, field)
  }

  /** A field that merging treats like the others. */
  ghost predicate IsField<T(!new)>(field: Event -> Option<T>) {
    forall a, b {:trigger field(Merge(a, b))} :: field(Merge(a, b)) == OrElse(field(b), field(a))
  }

  lemma {:induction false} NoMention<T>(log: seq<Event>, id: nat, field: Event -> Option<T>)
    requires !Mentions(log, id)
    ensures LastSome(log, id, field) == None
  {
    if log != [] {
      var last := |log| - 1;
      assert log[last].id != id;
      assert forall i :: 0 <= i < last ==> log[..last][i] == log[i];
      NoMention(log[..last], id, field);
    }
  }

  /** The net event carries the last value of every field. */
  lemma {:induction false} LastWins<T(!new)>(log: seq<Event>, id: nat, field: Event -> Option<T>)
    requires Mentions(log, id) && IsField(field)
    ensures field(Net(log, id)) == LastSome(log, id, field)
  {
    var last := |log| - 1;
    if log[last].id != id {
      NotLast(log, id);
      LastWins(log[..last], id, field);
    } else if Mentions(log[..last], id) {
      LastWins(log[..last], id, field);
    } else {
      NoMention(log[..last], id, field);
    }
  }

  /** Every field an event may carry is one of those. */
  lemma FieldsAreFields()
    ensures IsField((e: Event) => e.source) && IsField((e: Event) => e.destination) && IsField((e: Event) => e.priority)
    ensures IsField((e: Event) => e.status) && IsField((e: Event) => e.progress) && IsField((e: Event) => e.throughput)
    ensures IsField((e: Event) => e.transferred) && IsField((e: Event) => e.total) && IsField((e: Event) => e.error)
  {}

  /** The record has every value that the event carries. */
  ghost predicate Carries(r: Record, e: Event) {
    && (e.source.Some? ==> r.source == e.source.value) && (e.destination.Some? ==> r.destination == e.destination.value)
    && (e.priority.Some? ==> r.priority == e.priority.value) && (e.status.Some? ==> r.status == e.status.value)
    && (e.progress.Some? ==> r.progress == e.progress.value)
    && (e.throughput.Some? ==> r.throughput == e.throughput.value)
    && (e.transferred.Some? ==> r.transferred == e.transferred.value) && (e.total.Some? ==> r.total == e.total.value)
    && (e.error.Some? ==> r.error == e.error) && r.updated == e.time
  }

  /** A transfer before anything is known about it. */
  const UNKNOWN: Record := Record("", "", 5, Daemon.Queued, 0.0, 0.0, 0, 0, None, 0, 0, 0)

  /** What recovery starts from. */
  function Origin(records: Records, id: nat): Record { if id in records then records[id] else UNKNOWN }

  /** The creation time after the log: the first time that is not zero. */
  function CreatedAfter(created: nat, log: seq<Event>, id: nat): nat {
    if log == [] then created
    else
      var last := |log| - 1;
      var before := CreatedAfter(created, log[..last], id);
      if log[last].id == id && before == 0 then log[last].time else before
  }

  /** The record that recovery ends with. */
  function Recovered(records: Records, log: seq<Event>, id: nat): Record
    requires Mentions(log, id)
  {
    Apply(Origin(records, id), Net(log, id)).(created := CreatedAfter(Origin(records, id).created, log, id))
  }

  lemma BlankIsUnknown(e: Event)
    ensures Apply(Blank(e), e) == Apply(UNKNOWN, e)
  {}

  /** Which records recovery ends with, and exactly what they are: every field that the log carries has
      the last value in the log, every other field the value of the snapshot or the default, and a
      record that the log does not mention is as it was. */
  lemma {:induction false} LogDecides(records: Records, log: seq<Event>, id: nat)
    ensures id in Replay(records, log) <==> id in records || Mentions(log, id)
    ensures Mentions(log, id) ==> Replay(records, log)[id] == Recovered(records, log, id)
    ensures !Mentions(log, id) ==> CreatedAfter(Origin(records, id).created, log, id) == Origin(records, id).created
    ensures !Mentions(log, id) && id in records ==> Replay(records, log)[id] == records[id]
  {
    if log != [] {
      var last := |log| - 1;
      LogDecides(records, log[..last], id);
      MentionsStep(log, id);
      if log[last].id == id { RecoveredStep(records, log, id); }
    }
  }

  lemma MentionsStep(log: seq<Event>, id: nat)
    requires log != []
    ensures var last := |log| - 1; Mentions(log, id) <==> log[last].id == id || Mentions(log[..last], id)
  {
    var last := |log| - 1;
    if Mentions(log[..last], id) {
      var i :| 0 <= i < last && log[..last][i].id == id;
      assert log[i].id == id;
    }
    if Mentions(log, id) && log[last].id != id { NotLast(log, id); }
  }

  lemma RecoveredStep(records: Records, log: seq<Event>, id: nat)
    requires log != [] && log[|log| - 1].id == id && Mentions(log, id)
    requires var log0 := log[..|log| - 1]; var before := Replay(records, log0);
             && (id in before <==> id in records || Mentions(log0, id))
             && (Mentions(log0, id) ==> before[id] == Recovered(records, log0, id))
             && (!Mentions(log0, id) ==> CreatedAfter(Origin(records, id).created, log0, id) == Origin(records, id).created)
             && (!Mentions(log0, id) && id in records ==> before[id] == records[id])
    ensures Replay(records, log)[id] == Recovered(records, log, id)
  {
    var e, log0 := log[|log| - 1], log[..|log| - 1];
    if Mentions(log0, id) {
      ApplyMerge(Origin(records, id), Net(log0, id), e);
    } else {
      BlankIsUnknown(e);
    }
  }

  /** The record of a transfer that neither the snapshot nor the log knows: priority 5, queued, nothing done. */
  function Default(): Record { Record("", "", 5, Daemon.Queued, 0.0, 0.0, 0, 0, None, 0, 0, 0) }

  lemma FieldOfNet<T(!new)>(log: seq<Event>, id: nat, field: Event -> Option<T>, otherwise: T)
    requires Mentions(log, id) && IsField(field)
    ensures Or(field(Net(log, id)), otherwise) == Or(LastSome(log, id, field), otherwise)
  {
    LastWins(log, id, field);
  }

  /** Every field of a recovered record: the last value that the log carries, or else the value in the records that
      recovery starts from, or else the default. Only the number of attempts is never in the log; the
      time of the last change is that of the last event. */
  ghost predicate FieldByField(r: Record, base: Record, log: seq<Event>, id: nat) {
    && r.source == Or(LastSome(log, id, (e: Event) => e.source), base.source)
    && r.destination == Or(LastSome(log, id, (e: Event) => e.destination), base.destination)
    && r.priority == Or(LastSome(log, id, (e: Event) => e.priority), base.priority)
    && r.status == Or(LastSome(log, id, (e: Event) => e.status), base.status)
    && r.progress == Or(LastSome(log, id, (e: Event) => e.progress), base.progress)
    && r.throughput == Or(LastSome(log, id, (e: Event) => e.throughput), base.throughput)
    && r.transferred == Or(LastSome(log, id, (e: Event) => e.transferred), base.transferred)
    && r.total == Or(LastSome(log, id, (e: Event) => e.total), base.total)
    && r.error == OrElse(LastSome(log, id, (e: Event) => e.error), base.error)
    && r.attempts == base.attempts
    && r.updated == Or(LastSome(log, id, (e: Event) => Some(e.time)), base.updated)
    && (base.created != 0 ==> r.created == base.created)
  }

  lemma FieldsAfter(records: Records, log: seq<Event>, id: nat)
    requires id in Replay(records, log)
    ensures FieldByField(Replay(records, log)[id], if id in records then records[id] else Default(), log, id)
  {
    LogDecides(records, log, id);
    FieldsAreFields();
    var base := Origin(records, id);
    hide FromSnapshot, Replay, LastSome;
    if Mentions(log, id) {
      FieldsOfNet(base, log, id);
      if base.created != 0 { CreatedStays(base.created, log, id); }
    } else {
      NoFields(log, id);
    }
  }

  lemma FieldsOfNet(base: Record, log: seq<Event>, id: nat)
    requires Mentions(log, id)
    ensures FieldByField(Apply(base, Net(log, id)).(created := base.created), base, log, id)
  {
    FieldsAreFields();
    hide LastSome, Net;
    FieldOfNet(log, id, (e: Event) => e.source, base.source);
    FieldOfNet(log, id, (e: Event) => e.destination, base.destination);
    FieldOfNet(log, id, (e: Event) => e.priority, base.priority);
    FieldOfNet(log, id, (e: Event) => e.status, base.status);
    FieldOfNet(log, id, (e: Event) => e.progress, base.progress);
    FieldOfNet(log, id, (e: Event) => e.throughput, base.throughput);
    FieldOfNet(log, id, (e: Event) => e.transferred, base.transferred);
    FieldOfNet(log, id, (e: Event) => e.total, base.total);
    LastWins(log, id, (e: Event) => e.error);
    TimeIsField();
    FieldOfNet(log, id, (e: Event) => Some(e.time), base.updated);
  }

  lemma TimeIsField()
    ensures IsField((e: Event) => Some(e.time))
  {}

  lemma NoFields(log: seq<Event>, id: nat)
    requires !Mentions(log, id)
    ensures forall base: Record :: FieldByField(base, base, log, id)
  {
    hide LastSome;
    NoMention(log, id, (e: Event) => e.source);
    NoMention(log, id, (e: Event) => e.destination);
    NoMention(log, id, (e: Event) => e.priority);
    NoMention(log, id, (e: Event) => e.status);
    NoMention(log, id, (e: Event) => e.progress);
    NoMention(log, id, (e: Event) => e.throughput);
    NoMention(log, id, (e: Event) => e.transferred);
    NoMention(log, id, (e: Event) => e.total);
    NoMention(log, id, (e: Event) => e.error);
    NoMention(log, id, (e: Event) => Some(e.time));
  }

  /** A transfer that only the log knows was created at the time of its first event. */
  lemma {:induction false} CreatedFirst(log: seq<Event>, id: nat, i: nat)
    requires i < |log| && log[i].id == id && log[i].time > 0 && forall j :: 0 <= j < i ==> log[j].id != id
    ensures id in Replay(map[], log) && Replay(map[], log)[id].created == log[i].time
  {
    assert Mentions(log, id);
    LogDecides(map[], log, id);
    CreatedAtFirst(log, id, i);
    hide Replay;
  }

  lemma {:induction false} CreatedAtFirst(log: seq<Event>, id: nat, i: nat)
    requires i < |log| && log[i].id == id && log[i].time > 0 && forall j :: 0 <= j < i ==> log[j].id != id
    ensures CreatedAfter(0, log, id) == log[i].time
  {
    var last := |log| - 1;
    if i < last {
      assert log[..last][i] == log[i];
      CreatedAtFirst(log[..last], id, i);
    } else {
      assert !Mentions(log[..last], id);
      LogDecides(map[], log[..last], id);
    }
  }

  /** The net event says what the record has. */
  lemma RecoveredCarries(records: Records, log: seq<Event>, id: nat)
    requires Mentions(log, id)
    ensures Carries(Recovered(records, log, id), Net(log, id))
  {}

  /** Recovery from any snapshot and the log agrees with recovery from the log alone on every field
      that the log carries. */
  lemma SnapshotIndependent(snapshot: Records, log: seq<Event>, id: nat)
    requires Mentions(log, id)
    ensures id in Replay(snapshot, log) && id in Replay(map[], log)
    ensures Carries(Replay(snapshot, log)[id], Net(log, id)) && Carries(Replay(map[], log)[id], Net(log, id))
    ensures Replay(snapshot, log)[id].updated == Replay(map[], log)[id].updated
  {
    LogDecides(snapshot, log, id);
    LogDecides(map[], log, id);
    RecoveredCarries(snapshot, log, id);
    RecoveredCarries(map[], log, id);
  }

  lemma {:induction false} CreatedStays(created: nat, log: seq<Event>, id: nat)
    requires created != 0
    ensures CreatedAfter(created, log, id) == created
  {
    if log != [] { CreatedStays(created, log[..|log| - 1], id); }
  }

  lemma CreatedTwice(created: nat, log: seq<Event>, id: nat)
    ensures var once := CreatedAfter(created, log, id); CreatedAfter(once, log, id) == once
  {
    if created != 0 { CreatedStays(created, log, id); }
    if CreatedAfter(created, log, id) != 0 { CreatedStays(CreatedAfter(created, log, id), log, id); }
  }

  lemma ApplyTwice(r: Record, e: Event, created: nat)
    ensures Apply(Apply(r, e).(created := created), e).(created := created) == Apply(r, e).(created := created)
  {}

  /** Replaying the log a second time changes nothing. */
  lemma ReplayIdempotent(records: Records, log: seq<Event>)
    ensures Replay(Replay(records, log), log) == Replay(records, log)
  {
    var once := Replay(records, log);
    var twice := Replay(once, log);
    forall id ensures id in twice <==> id in once {
      LogDecides(records, log, id);
      LogDecides(once, log, id);
    }
    forall id | id in once ensures twice[id] == once[id] {
      LogDecides(records, log, id);
      LogDecides(once, log, id);
      hide Apply, Net;
      if Mentions(log, id) {
        CreatedTwice(Origin(records, id).created, log, id);
        ApplyTwice(Origin(records, id), Net(log, id), CreatedAfter(Origin(records, id).created, log, id));
      }
    }
  }

  /** Entry `i` is the last one of the snapshot for the transfer. */
  ghost predicate LastListed(list: seq<(nat, Record)>, id: nat, i: nat) {
    i < |list| && list[i].0 == id && forall j :: i < j < |list| ==> list[j].0 != id
  }

  /** A snapshot restored without a log has exactly the transfers it lists, each as its last entry says in every field,
      except that a running job is queued again. */
  lemma {:induction false} SnapshotRequeues(list: seq<(nat, Record)>, id: nat)
    ensures id in FromSnapshot(list) <==> exists i: nat :: LastListed(list, id, i)
    ensures forall i: nat :: LastListed(list, id, i) ==>
              && id in FromSnapshot(list)
              && var r, listed := FromSnapshot(list)[id], list[i].1;
                 && r.(status := listed.status) == listed
                 && r.status == if listed.status == Daemon.Active then Daemon.Queued else listed.status
    ensures id in FromSnapshot(list) ==> FromSnapshot(list)[id].status != Daemon.Active
  {
    if list != [] {
      var last := |list| - 1;
      SnapshotRequeues(list[..last], id);
      assert list[last].0 == id ==> LastListed(list, id, last);
      if list[last].0 != id {
        forall i: nat ensures LastListed(list, id, i) <==> LastListed(list[..last], id, i) { ListedBefore(list, id, i); }
      }
    }
  }

  lemma ListedBefore(list: seq<(nat, Record)>, id: nat, i: nat)
    requires list != [] && list[|list| - 1].0 != id
    ensures LastListed(list, id, i) <==> LastListed(list[..|list| - 1], id, i)
  {
    var last := |list| - 1;
    assert forall j :: 0 <= j < last ==> list[..last][j] == list[j];
  }

  function StatusOf(e: Event): Option<Daemon.Status> { e.status }

  lemma StatusIsField()
    ensures IsField(StatusOf)
  {}

  /** The status that recovery gives a job: the last one in the log, or else that of the records. */
  lemma StatusAfter(records: Records, log: seq<Event>, id: nat)
    requires id in Replay(records, log)
    ensures Replay(records, log)[id].status
         == Or(LastSome(log, id, StatusOf), if id in records then records[id].status else Daemon.Queued)
  {
    LogDecides(records, log, id);
    if Mentions(log, id) {
      StatusIsField();
      LastWins(log, id, StatusOf);
    } else {
      NoMention(log, id, StatusOf);
    }
  }

  /** After a restart a job is active if and only if the last status that the log gives it is Active; all
      other jobs that were active in the snapshot are queued again. */
  lemma ActiveAfterRestart(list: seq<(nat, Record)>, log: seq<Event>, id: nat)
    requires id in Replay(FromSnapshot(list), log)
    ensures Replay(FromSnapshot(list), log)[id].status == Daemon.Active
            <==> LastSome(log, id, StatusOf) == Some(Daemon.Active)
  {
    StatusAfter(FromSnapshot(list), log, id);
    if id in FromSnapshot(list) { SnapshotRequeues(list, id); }
  }

  /** A job that was running: the snapshot alone queues it again, the log of its start keeps it active. */
  lemma StaysActive(r: Record, started: Event)
    requires r.status == Daemon.Active && started.id == 1 && started.status == Some(Daemon.Active)
    ensures var list := [(1, r)];
            && 1 in Replay(FromSnapshot(list), []) && Replay(FromSnapshot(list), [])[1].status == Daemon.Queued
            && 1 in Replay(FromSnapshot(list), [started])
            && Replay(FromSnapshot(list), [started])[1].status == Daemon.Active
  {
    var list := [(1, r)];
    assert list[..0] == [] && FromSnapshot(list) == map[1 := Normalise(r)];
    assert [started][..0] == [];
  }

  /** The jobs of the recovered records. */
  function Jobs(records: Records): map<nat, Daemon.Job> {
    map id | id in records :: Daemon.Job(records[id].priority, records[id].status, records[id].attempts)
  }

  /** A restart: load, then rebuild the queue with one entry per queued record. */
  method Restart(snapshot: seq<(nat, Record)>, log: seq<Event>, maxConcurrent: nat) returns (daemon: Daemon.Scheduler)
    ensures fresh(daemon) && daemon.jobs == Jobs(Replay(FromSnapshot(snapshot), log))
    ensures Daemon.Inv(daemon.View()) && Daemon.Rebuilt(daemon.jobs, {}, daemon.heap, daemon.sequence)
    ensures forall id :: id in daemon.jobs ==>
              (daemon.jobs[id].status == Daemon.Active <==> LastSome(log, id, StatusOf) == Some(Daemon.Active))
    ensures forall id :: id in daemon.jobs <==> id in Replay(FromSnapshot(snapshot), log)
    ensures forall id :: id in daemon.jobs ==>
              var job, rec := daemon.jobs[id], Replay(FromSnapshot(snapshot), log)[id];
              job.priority == rec.priority && job.status == rec.status && job.attempts == rec.attempts
    ensures forall e :: e in daemon.heap ==> e.id in daemon.jobs && e.priority == daemon.jobs[e.id].priority
    ensures forall id :: id in daemon.jobs ==>
              (daemon.jobs[id].status == Daemon.Queued <==> exists e :: e in daemon.heap && e.id == id)
  {
    var records := LoadRecords(snapshot, log);
    daemon := new Daemon.Scheduler(Jobs(records), maxConcurrent);
    forall id | id in daemon.jobs
      ensures daemon.jobs[id].status == Daemon.Active <==> LastSome(log, id, StatusOf) == Some(Daemon.Active)
    {
      ActiveAfterRestart(snapshot, log, id);
    }
  }
}
