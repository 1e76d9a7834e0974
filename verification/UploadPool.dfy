/** The concurrent upload of a sync's batches: at most ten uploads in flight, each retried against
    the streaming service, and none left running when the call returns. */
module UploadPool {
  import opened Utf8
  import opened Chunking
  import opened BatchText
  import opened Entries
  import opened Wire
  import Backend
  import Ingest
  import Requests
  import SyncMachine
  import SyncRuns
  import SyncState

  const STREAM_CONCURRENCY: nat := 10
  const MAX_RETRY_ATTEMPTS: nat := 3

  datatype Outcome = Outcome(files: nat, deletes: nat, bytes: nat, duplicate: bool)

  datatype Error = Cancelled | Expired | BadRequest | AuthRequired | Other | Http | Join

  datatype TaskResult = Done(outcome: Outcome) | Failed(error: Error) | Panicked

  /** What the client sees of one POST. */
  datatype Reply = Accepted(files: nat, deletes: nat, bytes: nat) | AlreadyThere | Status(error: Error) | Busy
    | Timeout | Broken

  datatype Stats = Stats(files: nat, deletes: nat, bytes: nat, duplicates: nat)

  datatype Result = Ok(stats: Stats) | Err(error: Error)

  /** A batch and its identifier. */
  datatype Job = Job(id: string, batch: Batch)

  function JobOf(b: Batch): Job {
    Job(IdText(ItemsOf(EntriesOf(b))), b)
  }

  function AcceptedJob(b: Job): Outcome {
    Outcome(|b.batch.files|, |b.batch.deletes|, Size(b.batch.files), false)
  }

  function BytesIn(entries: seq<Entry>): nat {
    if entries == [] then 0
    else
      var e := entries[|entries| - 1];
      BytesIn(entries[..|entries| - 1]) + if e.op == "file" then |e.content| else 0
  }

  /** Of checked entries the service counts what the client sent. */
  lemma {:induction false} CountsExact(entries: seq<Entry>)
    requires Ingest.WellFormed(entries)
    ensures |Ingest.AcceptedFiles(entries)| == |FilesIn(entries)|
    ensures |Ingest.AcceptedDeletes(entries)| == |DeletesIn(entries)|
    ensures BytesIn(entries) == Size(FilesIn(entries))
  {
    if entries != [] {
      var front, e := entries[..|entries| - 1], entries[|entries| - 1];
      CountsExact(front);
      Ingest.BatchOfEntries(front, e.path);
      assert forall i | 0 <= i < |front| :: front[i] == entries[i];
      assert e.path !in Ingest.AcceptedFiles(front) && e.path !in Ingest.AcceptedDeletes(front);
      if e.op == "file" {
        AddedKey(Ingest.AcceptedFiles(front), e.path, DigestOf(e.content));
        assert (FilesIn(front) + [FileEntry(e.path, e.hash, e.content)])[..|FilesIn(front)|] == FilesIn(front);
      } else {
        assert FilesIn(front) + [] == FilesIn(front) && Ingest.AcceptedFiles(entries) == Ingest.AcceptedFiles(front);
      }
    }
  }

  lemma AddedKey<K, V>(m: map<K, V>, k: K, v: V)
    requires k !in m
    ensures |m[k := v]| == |m| + 1
  {
    assert m[k := v].Keys == m.Keys + {k};
    assert |m[k := v]| == |m[k := v].Keys| && |m| == |m.Keys|;
  }

  const Duplicate := Outcome(0, 0, 0, true)

  function Add(s: Stats, o: Outcome): Stats {
    Stats(s.files + o.files, s.deletes + o.deletes, s.bytes + o.bytes, s.duplicates + if o.duplicate then 1 else 0)
  }

  const Zero := Stats(0, 0, 0, 0)

  /** The totals of the outcomes below n, added up in index order. */
  function Totals(outcomes: map<nat, Outcome>, n: nat): Stats {
    if n == 0 then Zero
    else if n - 1 in outcomes then Add(Totals(outcomes, n - 1), outcomes[n - 1])
    else Totals(outcomes, n - 1)
  }

  /** The totals do not depend on when an outcome came in. */
  lemma {:induction false} TotalsAny(outcomes: map<nat, Outcome>, n: nat, i: nat, o: Outcome)
    requires i !in outcomes
    ensures Totals(outcomes[i := o], n) == if i < n then Add(Totals(outcomes, n), o) else Totals(outcomes, n)
  {
    if n > 0 {
      TotalsAny(outcomes, n - 1, i, o);
    }
  }

  // ---------------------------------------------------------------------------
  // The server
  // ---------------------------------------------------------------------------

  type Run = seq<SyncMachine.Label>

  /** The identifiers under which a run has admitted batches of the sync. */
  ghost function AdmittedIds(run: Run, s: SyncState.SyncId): set<string> {
    set i | 0 <= i < |run| && AdmitsFor(run[i], s) :: run[i].key.batch
  }

  /** The batch was admitted by one step of the run, and no other. */
  ghost predicate AdmittedOnce(run: Run, k: SyncState.Key) {
    exists i | 0 <= i < |run| :: AdmitsAt(run, i, k) && forall j | 0 <= j < |run| && AdmitsAt(run, j, k) :: j == i
  }

  predicate AdmitsFor(l: SyncMachine.Label, s: SyncState.SyncId) {
    l.Admit? && l.key.sync == s
  }

  lemma IdAt(run: Run, s: SyncState.SyncId, id: string) returns (i: nat)
    requires id in AdmittedIds(run, s)
    ensures i < |run| && AdmitsAt(run, i, SyncState.Key(s, id))
  {
    i :| 0 <= i < |run| && AdmitsFor(run[i], s) && run[i].key.batch == id;
  }

  predicate AdmitsAt(run: Run, i: nat, k: SyncState.Key)
    requires i < |run|
  {
    run[i].Admit? && run[i].key == k
  }

  lemma IdsOnce(run: Run, s: SyncState.SyncId, id: string)
    requires SyncMachine.Legal(run) && id in AdmittedIds(run, s)
    ensures AdmittedOnce(run, SyncState.Key(s, id))
  {
    var k := SyncState.Key(s, id);
    var i := IdAt(run, s, id);
    forall j | 0 <= j < |run| && AdmitsAt(run, j, k) ensures j == i {
      if i < j {
        SyncRuns.AdmittedOnce(run, i, j);
      } else if j < i {
        SyncRuns.AdmittedOnce(run, j, i);
      }
    }
  }

  lemma IdsGrow(run: Run, longer: Run, s: SyncState.SyncId)
    requires run <= longer
    ensures AdmittedIds(run, s) <= AdmittedIds(longer, s)
  {
    forall id | id in AdmittedIds(run, s) ensures id in AdmittedIds(longer, s) {
      var i := IdAt(run, s, id);
      assert longer[i] == run[i] && AdmitsFor(longer[i], s);
    }
  }

  /** The last step admits the batch: it was not admitted before. */
  lemma NewId(run: Run, longer: Run, k: SyncState.Key, b: SyncState.Batch)
    requires SyncMachine.Legal(longer) && run <= longer && run != longer && Requests.LastAdmits(longer, k, b)
    ensures k.batch in AdmittedIds(longer, k.sync) && k.batch !in AdmittedIds(run, k.sync)
  {
    var n := |longer| - 1;
    assert AdmitsAt(longer, n, k) && AdmitsFor(longer[n], k.sync);
    if k.batch in AdmittedIds(run, k.sync) {
      var i := IdAt(run, k.sync, k.batch);
      assert longer[i] == run[i];
      SyncRuns.AdmittedOnce(longer, i, n);
    }
  }

  /** A row is there because a step admitted it. */
  lemma {:induction false} RowAdmitted(run: Run, k: SyncState.Key)
    requires SyncMachine.Legal(run) && k in SyncMachine.After(run).rows
    ensures k.batch in AdmittedIds(run, k.sync)
  {
    if run == [] {
      SyncMachine.NoSteps();
    } else {
      var front, last := run[..|run| - 1], run[|run| - 1];
      SyncMachine.LastStep(run);
      if k in SyncMachine.After(front).rows {
        RowAdmitted(front, k);
        IdsGrow(front, run, k.sync);
      } else {
        assert AdmitsFor(run[|run| - 1], k.sync) && run[|run| - 1].key == k;
      }
    }
  }

  /** What a reply tells of the batches admitted before and after. Any reply may be lost. */
  predicate Answers(before: set<string>, b: Job, reply: Reply, after: set<string>) {
    && before <= after
    && (match reply
        case Accepted(files, deletes, bytes) =>
          b.id in after && b.id !in before && Outcome(files, deletes, bytes, false) == AcceptedJob(b)
        case AlreadyThere => b.id in after
        case _ => true)
  }

  /** A status that the client does not try again. */
  predicate KnownStatus(reply: Reply) {
    reply.Status? ==> reply.error == Expired || reply.error == BadRequest || reply.error == AuthRequired
  }

  /** What a refusal looks like to the client. */
  function SeenAs(result: Requests.IngestResult): Reply
    requires !result.Queued?
  {
    match result
    case Duplicate => AlreadyThere
    case NotFound => Status(Expired)
    case NotReceiving => Status(Expired)
    case Rejected(_) => Status(BadRequest)
    case Unavailable => Busy
  }

  /** How an upload ends on a reply that is not an acceptance and is not tried again. */
  function EndOn(reply: Reply): TaskResult
    requires reply.AlreadyThere? || reply.Status?
  {
    match reply case AlreadyThere => Done(Duplicate) case Status(error) => Failed(error)
  }

  /** The sync's uploads go to the service, which admits a batch as one step of its run; the reply may
      be lost on the way. */
  class Server {
    const service: Requests.SyncSessionService
    const sync: SyncState.SyncId

    /** The identifiers admitted so far. */
    ghost var admitted: set<string>

    constructor (service: Requests.SyncSessionService, sync: SyncState.SyncId)
      requires service.store.Valid()
      ensures this.service == service && this.sync == sync && Valid()
    {
      this.service, this.sync := service, sync;
      admitted := AdmittedIds(service.store.trace, sync);
    }

    ghost function Objects(): set<object> {
      {this, service, service.store}
    }

    ghost predicate Valid()
      reads Objects()
    {
      service.store.Valid() && admitted == AdmittedIds(service.store.trace, sync)
    }

    method Post(b: Job) returns (reply: Reply)
      requires Valid()
      modifies Objects()
      ensures Valid() && Answers(old(admitted), b, reply, admitted) && KnownStatus(reply)
    {
      reply := *;
      var reached: bool := *;
      if !reached {
        if reply.Accepted? || reply.AlreadyThere? || !KnownStatus(reply) {
          reply := Timeout;
        }
        return;
      }
      ghost var run := service.store.trace;
      var entries := EntriesOf(b.batch);
      var result := service.IngestBatch(sync, b.id, entries);
      IdsGrow(run, service.store.trace, sync);
      admitted := AdmittedIds(service.store.trace, sync);
      var answered: bool := *;
      if answered {
        reply := ReplyTo(b, entries, result, run);
      } else {
        reply := if reply.Broken? then Broken else Timeout;
      }
    }

    method ReplyTo(b: Job, entries: seq<Entry>, result: Requests.IngestResult, ghost run: Run) returns (reply: Reply)
      requires Valid() && run <= service.store.trace && entries == EntriesOf(b.batch)
      requires result.Queued? ==> Ingest.WellFormed(entries) && run != service.store.trace
      requires result.Queued? ==>
        Requests.LastAdmits(service.store.trace, SyncState.Key(sync, b.id), Ingest.BatchOf(entries))
      requires result.Duplicate? ==> SyncState.Key(sync, b.id) in service.store.db.rows
      ensures Answers(AdmittedIds(run, sync), b, reply, admitted)
      ensures KnownStatus(reply) && (!result.Queued? ==> reply == SeenAs(result))
    {
      service.store.ValidLegal();
      IdsGrow(run, service.store.trace, sync);
      match result
      case Queued =>
        NewId(run, service.store.trace, SyncState.Key(sync, b.id), Ingest.BatchOf(entries));
        CountsExact(entries);
        PartitionExact(b.batch);
        reply := Counted(entries);
      case Duplicate =>
        RowAdmitted(service.store.trace, SyncState.Key(sync, b.id));
        reply := SeenAs(result);
      case _ => reply := SeenAs(result);
    }
  }

  /** The counts of the accepted manifests. */
  method Counted(entries: seq<Entry>) returns (reply: Reply)
    ensures reply == Accepted(|Ingest.AcceptedFiles(entries)|, |Ingest.AcceptedDeletes(entries)|, BytesIn(entries))
  {
    var files, deletes := Ingest.BuildManifests(entries);
    var bytes := CountBytes(entries);
    reply := Accepted(|files|, |deletes|, bytes);
  }

  method CountBytes(entries: seq<Entry>) returns (bytes: nat)
    ensures bytes == BytesIn(entries)
  {
    bytes := 0;
    for i := 0 to |entries|
      invariant bytes == BytesIn(entries[..i])
    {
      assert entries[..i + 1][..i] == entries[..i];
      if entries[i].op == "file" {
        bytes := bytes + |entries[i].content|;
      }
    }
    assert entries[..|entries|] == entries;
  }

  // ---------------------------------------------------------------------------
  // How an upload ends
  // ---------------------------------------------------------------------------

  /** The service was busy, or could not be reached in time. */
  predicate Transient(reply: Reply) {
    reply.Busy? || reply.Timeout?
  }

  predicate AllTransient(heard: seq<Reply>) {
    heard == [] || (Transient(heard[|heard| - 1]) && AllTransient(heard[..|heard| - 1]))
  }

  /** With this reply to the given post the upload fails: with a transient one only at the fourth. */
  predicate FailsOn(reply: Reply, posts: nat, error: Error) {
    match reply
    case Busy => posts == 4 && error == Other
    case Timeout => posts == 4 && error == Http
    case Status(e) => error == e && KnownStatus(reply)
    case Broken => error == Http
    case Accepted(_, _, _) => error == Http
    case AlreadyThere => false
  }

  predicate SucceedsOn(reply: Reply, outcome: Outcome) {
    match reply
    case Accepted(files, deletes, bytes) => outcome == Outcome(files, deletes, bytes, false)
    case AlreadyThere => outcome == Outcome(0, 0, 0, true)
    case _ => false
  }

  /** The replies an upload heard, and how it ended: every reply but the last was transient, and the last
      decided; or the upload was cancelled or cut off between two posts. An acceptance whose body cannot
      be read is a failure. */
  predicate EndsRightly(heard: seq<Reply>, r: TaskResult) {
    match r
    case Panicked => AllTransient(heard) && |heard| <= 3
    case Failed(error) =>
      || (error == Cancelled && AllTransient(heard) && |heard| <= 3)
      || (Decided(heard) && FailsOn(heard[|heard| - 1], |heard|, error))
    case Done(outcome) => Decided(heard) && SucceedsOn(heard[|heard| - 1], outcome)
  }

  predicate Decided(heard: seq<Reply>) {
    0 < |heard| <= 4 && AllTransient(heard[..|heard| - 1])
  }

  /** An upload that ended, with the replies it heard. */
  datatype Ended = Ended(result: TaskResult, heard: seq<Reply>)

  // ---------------------------------------------------------------------------
  // The pool
  // ---------------------------------------------------------------------------

  /** A successful upload's batch is admitted, by this upload or before. */
  predicate ResultOk(b: Job, r: TaskResult, admitted: set<string>) {
    r.Done? ==> b.id in admitted && (r.outcome == AcceptedJob(b) || r.outcome == Duplicate)
  }

  predicate EndedOk(b: Job, e: Ended, admitted: set<string>) {
    ResultOk(b, e.result, admitted) && EndsRightly(e.heard, e.result)
  }

  predicate AllDone(finished: map<nat, Ended>) {
    forall i | i in finished :: finished[i].result.Done?
  }

  /** At most ten uploads run, none of them ended, none beyond its retries. */
  ghost predicate PoolOk(
    batches: seq<Job>, running: map<nat, seq<Reply>>, finished: map<nat, Ended>, spawned: nat, admitted: set<string>)
  {
    && running.Keys !! finished.Keys && |running| <= STREAM_CONCURRENCY
    && spawned <= |batches|
    && RunningOk(running, spawned) && FinishedOk(batches, finished, spawned, admitted)
  }

  ghost predicate RunningOk(running: map<nat, seq<Reply>>, spawned: nat) {
    forall i | i in running :: i < spawned && |running[i]| <= MAX_RETRY_ATTEMPTS && AllTransient(running[i])
  }

  ghost predicate FinishedOk(batches: seq<Job>, finished: map<nat, Ended>, spawned: nat, admitted: set<string>)
    requires spawned <= |batches|
  {
    forall i | i in finished :: i < spawned && EndedOk(batches[i], finished[i], admitted)
  }

  ghost predicate Moved(
    running: map<nat, seq<Reply>>, finished: map<nat, Ended>, running': map<nat, seq<Reply>>, finished': map<nat,
      Ended>)
  {
    && running'.Keys + finished'.Keys == running.Keys + finished.Keys
    && running'.Keys <= running.Keys
    && (forall i | i in finished :: i in finished' && finished'[i] == finished[i])
  }

  lemma FinishOk(
    batches: seq<Job>, running: map<nat, seq<Reply>>, finished: map<nat, Ended>, spawned: nat, admitted: set<string>,
    i: nat, r: Ended, left: map<nat, seq<Reply>>, ended: map<nat, Ended>)
    requires PoolOk(batches, running, finished, spawned, admitted) && i in running && EndedOk(batches[i], r, admitted)
    requires left == running - {i} && ended == finished[i := r]
    ensures PoolOk(batches, left, ended, spawned, admitted) && Moved(running, finished, left, ended)
    ensures AllDone(finished) && r.result.Done? ==> AllDone(ended)
  {
    FewerRunning(running, i);
    FinishKeys(running, finished, i, r);
    LeftOk(running, spawned, i, left);
    OneMoreOk(batches, finished, spawned, admitted, i, r, ended);
  }

  lemma LeftOk(running: map<nat, seq<Reply>>, spawned: nat, i: nat, left: map<nat, seq<Reply>>)
    requires RunningOk(running, spawned) && left == running - {i}
    ensures RunningOk(left, spawned)
  {
  }

  lemma OneMoreOk(
    batches: seq<Job>, finished: map<nat, Ended>, spawned: nat, admitted: set<string>, i: nat, r: Ended,
    ended: map<nat, Ended>)
    requires spawned <= |batches| && FinishedOk(batches, finished, spawned, admitted)
    requires i < spawned && EndedOk(batches[i], r, admitted) && ended == finished[i := r] && i !in finished
    ensures FinishedOk(batches, ended, spawned, admitted)
    ensures forall j | j in finished :: j in ended && ended[j] == finished[j]
    ensures AllDone(finished) && r.result.Done? ==> AllDone(ended)
  {
  }

  lemma FinishKeys(running: map<nat, seq<Reply>>, finished: map<nat, Ended>, i: nat, r: Ended)
    requires i in running && running.Keys !! finished.Keys
    ensures (running - {i}).Keys !! finished[i := r].Keys
    ensures (running - {i}).Keys + finished[i := r].Keys == running.Keys + finished.Keys
    ensures (running - {i}).Keys <= running.Keys
  {
    var left, ended := running - {i}, finished[i := r];
    assert left.Keys == running.Keys - {i};
    assert ended.Keys == finished.Keys + {i};
  }

  lemma RetryOk(
    batches: seq<Job>, running: map<nat, seq<Reply>>, finished: map<nat, Ended>, spawned: nat, admitted: set<string>,
    i: nat, reply: Reply, next: map<nat, seq<Reply>>)
    requires PoolOk(batches, running, finished, spawned, admitted) && i in running && |running[i]| < MAX_RETRY_ATTEMPTS
    requires next == running[i := running[i] + [reply]] && Transient(reply)
    ensures PoolOk(batches, next, finished, spawned, admitted) && Moved(running, finished, next, finished)
  {
    assert next.Keys == running.Keys;
    assert |next| == |next.Keys| && |running| == |running.Keys|;
  }

  lemma AdmittedMore(
    batches: seq<Job>, running: map<nat, seq<Reply>>, finished: map<nat, Ended>, spawned: nat, before: set<string>,
    admitted: set<string>)
    requires PoolOk(batches, running, finished, spawned, before) && before <= admitted
    ensures PoolOk(batches, running, finished, spawned, admitted)
  {
  }

  datatype Turn = Continue(stats: Stats) | AllJoined(stats: Stats) | Stopped(error: Error)

  class Pool {
    const server: Server
    const batches: seq<Job>

    /** Uploads in flight, with the replies they heard, of which the source keeps the number; each holds
        a permit. */
    var running: map<nat, seq<Reply>>
    /** Uploads that ended and were not joined yet. */
    var finished: map<nat, Ended>
    /** How many batches have been handed out. */
    var spawned: nat
    var cancelled: bool

    /** How often something went wrong: a reply other than an acceptance, an unreadable one, a panic
        or a cancellation. */
    ghost var mishaps: nat

    constructor (server: Server, batches: seq<Job>)
      ensures this.server == server && this.batches == batches
      ensures running == map[] && finished == map[] && spawned == 0 && !cancelled && mishaps == 0
    {
      this.server, this.batches := server, batches;
      running, finished, spawned, cancelled, mishaps := map[], map[], 0, false, 0;
    }

    ghost predicate Valid()
      reads this, server.Objects()
    {
      && server.Valid() && PoolOk(batches, running, finished, spawned, server.admitted)
      && (mishaps == 0 ==> !cancelled && AllDone(finished))
    }

    ghost function Pending(): set<nat>
      reads this
    {
      running.Keys + finished.Keys
    }

    /** Nothing is started or lost: uploads only move from running to finished. */
    twostate predicate Progressed()
      reads this, server.Objects()
    {
      Moved(old(running), old(finished), running, finished) && spawned == old(spawned)
      && old(server.admitted) <= server.admitted && old(mishaps) <= mishaps
    }

    method Finish(i: nat, r: Ended)
      requires Valid() && i in running && EndedOk(batches[i], r, server.admitted) && (r.result.Done? || mishaps > 0)
      modifies this`running, this`finished
      ensures Valid() && Progressed() && running == old(running) - {i} && finished == old(finished)[i := r]
    {
      var left, ended := running - {i}, finished[i := r];
      FinishOk(batches, running, finished, spawned, server.admitted, i, r, left, ended);
      running, finished := left, ended;
    }

    /** What an upload heard before and after a turn of its loop. It ends without another post only when the
        sync was cancelled. Otherwise there is one post more, after which it goes on exactly when the
        reply was transient and this was not the fourth post. */
    predicate Turned(i: nat, before: seq<Reply>)
      reads this
    {
      if i in running then |running[i]| == |before| + 1 && running[i][..|before|] == before && |running[i]| < 4
      else
        && i in finished
        && var e := finished[i];
          || (e.heard == before && e.result == Failed(Cancelled) && cancelled)
          || (|e.heard| == |before| + 1 && e.heard[..|before|] == before
              && !(Transient(e.heard[|before|]) && |e.heard| < 4))
    }

    /** One turn of the retry loop of an upload. The sync may be cancelled at any moment. */
    method Attempt(i: nat)
      requires Valid() && i in running
      modifies this, server.Objects()
      ensures Valid() && Progressed() && Turned(i, old(running)[i])
    {
      var withdrawn: bool := *;
      if cancelled || withdrawn {
        Withdraw(i);
        return;
      }
      var reply := PostNext(i);
      Answer(i, reply);
    }

    /** The sync is cancelled, and the upload sees it before its next post. */
    method Withdraw(i: nat)
      requires Valid() && i in running
      modifies this
      ensures Valid() && Progressed() && Turned(i, old(running)[i])
    {
      cancelled, mishaps := true, mishaps + 1;
      Finish(i, Ended(Failed(Cancelled), running[i]));
    }

    method PostNext(i: nat) returns (reply: Reply)
      requires Valid() && i < |batches|
      modifies this`mishaps, server.Objects()
      ensures Valid() && mishaps >= old(mishaps) && old(server.admitted) <= server.admitted && KnownStatus(reply)
      ensures if reply.Accepted? || reply.AlreadyThere? then batches[i].id in server.admitted else mishaps > 0
      ensures reply.Accepted? ==> Outcome(reply.files, reply.deletes, reply.bytes, false) == AcceptedJob(batches[i])
    {
      reply := server.Post(batches[i]);
      if !reply.Accepted? && !reply.AlreadyThere? {
        mishaps := mishaps + 1;
      }
      AdmittedMore(batches, running, finished, spawned, old(server.admitted), server.admitted);
    }

    method Answer(i: nat, reply: Reply)
      requires Valid() && i in running && KnownStatus(reply)
      requires if reply.Accepted? || reply.AlreadyThere? then batches[i].id in server.admitted else mishaps > 0
      requires reply.Accepted? ==> Outcome(reply.files, reply.deletes, reply.bytes, false) == AcceptedJob(batches[i])
      modifies this
      ensures Valid() && Progressed() && Turned(i, old(running)[i])
    {
      if Transient(reply) {
        Retry(i, if reply.Busy? then Other else Http, reply);
        return;
      }
      var result := Decide(reply);
      Heard(running[i], reply);
      Finish(i, Ended(result, running[i] + [reply]));
    }

    /** The end of an upload on a reply that is not tried again. */
    method Decide(reply: Reply) returns (result: TaskResult)
      requires !Transient(reply) && KnownStatus(reply)
      modifies this`mishaps
      ensures mishaps >= old(mishaps) && (result.Done? ==> SucceedsOn(reply, result.outcome))
      ensures !result.Done? ==> result.Failed? && FailsOn(reply, 0, result.error) && !reply.AlreadyThere?
      ensures reply.Accepted? && !result.Done? ==> mishaps > 0
      ensures mishaps != old(mishaps) ==> !result.Done?
    {
      match reply
      case Accepted(files, deletes, bytes) =>
        var readable: bool := *;
        if readable {
          result := Done(Outcome(files, deletes, bytes, false));
        } else {
          mishaps := mishaps + 1;
          result := Failed(Http);
        }
      case AlreadyThere => result := EndOn(reply);
      case Status(_) => result := EndOn(reply);
      case _ => result := Failed(Http);
    }

    method Retry(i: nat, error: Error, reply: Reply)
      requires Valid() && i in running && mishaps > 0 && Transient(reply) && error == if reply.Busy? then Other
        else Http
      modifies this
      ensures Valid() && Progressed() && Turned(i, old(running)[i])
    {
      Heard(running[i], reply);
      if |running[i]| < MAX_RETRY_ATTEMPTS {
        Again(i, reply);
      } else {
        Finish(i, Ended(Failed(error), running[i] + [reply]));
      }
    }

    method Again(i: nat, reply: Reply)
      requires Valid() && i in running && |running[i]| < MAX_RETRY_ATTEMPTS && Transient(reply)
      modifies this`running
      ensures Valid() && Progressed() && running == old(running)[i := old(running)[i] + [reply]]
    {
      var next := running[i := running[i] + [reply]];
      RetryOk(batches, running, finished, spawned, server.admitted, i, reply, next);
      running := next;
    }

    /** An upload brought to its end: at most four posts. */
    method RunToEnd(i: nat)
      requires Valid() && i in running
      modifies this, server.Objects()
      ensures Valid() && Progressed() && i !in running
    {
      while i in running
        invariant Valid() && Progressed()
        decreases if i in running then MAX_RETRY_ATTEMPTS + 1 - |running[i]| else 0
      {
        var panics: bool := *;
        if panics {
          mishaps := mishaps + 1;
          Finish(i, Ended(Panicked, running[i]));
          return;
        }
        Attempt(i);
      }
    }

    /** Whatever the uploads in flight do while the loop waits. */
    method Others()
      requires Valid()
      modifies this, server.Objects()
      ensures Valid() && Progressed()
    {
      var steps: nat := *;
      while steps > 0
        invariant Valid() && Progressed()
      {
        var i: nat := *;
        if i in running {
          Attempt(i);
        }
        steps := steps - 1;
      }
    }

    /** Waits until a permit is free. */
    method Acquire()
      requires Valid()
      modifies this, server.Objects()
      ensures Valid() && Progressed() && |running| < STREAM_CONCURRENCY
    {
      Others();
      if |running| >= STREAM_CONCURRENCY {
        assert |running.Keys| == |running|;
        var i :| i in running;
        RunToEnd(i);
        RunningShrank(old(running), running, i);
      }
    }

    method Spawn()
      requires Valid() && |running| < STREAM_CONCURRENCY && spawned < |batches|
      requires forall i | i in Pending() :: i < spawned
      modifies this
      ensures Valid() && spawned == old(spawned) + 1 && finished == old(finished)
      ensures Pending() == old(Pending()) + {old(spawned)}
      ensures server.admitted == old(server.admitted)
    {
      var next := running[spawned := []];
      SpawnOk(batches, running, finished, spawned, server.admitted, next);
      running := next;
      spawned := spawned + 1;
    }

    /** The next upload to end, in any order; nothing when none is left. */
    method JoinNext() returns (ended: bool, i: nat, r: Ended)
      requires Valid()
      modifies this, server.Objects()
      ensures Valid() && spawned == old(spawned) && old(server.admitted) <= server.admitted && mishaps >= old(mishaps)
      ensures ended && !r.result.Done? ==> mishaps > 0
      ensures !ended ==> Pending() == {} == old(Pending())
      ensures ended ==>
        i in old(Pending()) && Pending() == old(Pending()) - {i} && i < spawned &&
          EndedOk(batches[i], r, server.admitted)
    {
      if running == map[] && finished == map[] {
        return false, 0, Ended(Panicked, []);
      }
      i := Wait();
      r := Take(i);
      ended := true;
    }

    /** Waits until some upload has ended. */
    method Wait() returns (i: nat)
      requires Valid() && (running != map[] || finished != map[])
      modifies this, server.Objects()
      ensures Valid() && Progressed() && i in finished
    {
      Others();
      if finished == map[] {
        assert running.Keys == old(Pending());
        i :| i in running;
        RunToEnd(i);
        assert i in Pending();
      } else {
        i :| i in finished;
      }
    }

    method Take(i: nat) returns (r: Ended)
      requires Valid() && i in finished
      modifies this`finished
      ensures r == old(finished)[i] && (!r.result.Done? ==> mishaps > 0)
      ensures Valid() && Pending() == old(Pending()) - {i} && i < spawned && EndedOk(batches[i], r, server.admitted)
    {
      r := finished[i];
      var left := finished - {i};
      JoinOk(batches, running, finished, spawned, server.admitted, i, left);
      finished := left;
    }

    /** Cancels what is left and waits for all of it. An aborted upload may have reached the server. */
    method AbortAndDrain()
      requires Valid() && mishaps > 0
      modifies this, server.Objects()
      ensures Valid() && Pending() == {} && old(server.admitted) <= server.admitted && mishaps > 0
      ensures spawned == old(spawned)
    {
      cancelled := true;
      Others();
      AbortAll();
      Drain();
    }

    /** Joins what is left. */
    method Drain()
      requires Valid()
      modifies this, server.Objects()
      ensures Valid() && Pending() == {} && old(server.admitted) <= server.admitted && mishaps >= old(mishaps)
      ensures spawned == old(spawned)
    {
      while true
        invariant Valid() && mishaps >= old(mishaps) && old(server.admitted) <= server.admitted
        invariant spawned == old(spawned)
        decreases |Pending()|
      {
        var ended, _, _ := JoinNext();
        if !ended {
          break;
        }
      }
    }

    /** Every upload in flight ends where it is. */
    method AbortAll()
      requires Valid() && mishaps > 0
      modifies this
      ensures Valid() && Progressed() && running == map[]
    {
      while running != map[]
        invariant Valid() && Progressed() && mishaps > 0
        decreases |running.Keys|
      {
        var i :| i in running;
        Finish(i, Ended(Panicked, running[i]));
      }
    }

    /** `last` is the upload that was joined last. An error is its error (`BlamedPosts`). */
    method StreamBatches() returns (r: Result, ghost last: Ended)
      requires Valid() && spawned == 0 && Pending() == {}
      modifies this, server.Objects()
      ensures r.Err? ==> mishaps > 0 && (r.error == Cancelled || Blames(last, r.error))
      ensures Pending() == {} && server.Valid() && old(server.admitted) <= server.admitted
      ensures r.Ok? ==> forall i | 0 <= i < |batches| :: batches[i].id in server.admitted
      ensures r.Ok? ==>
        exists outcomes: map<nat, Outcome> :: Answered(batches, outcomes) && r.stats == Totals(outcomes, |batches|)
    {
      var stopped := SpawnAll();
      if stopped {
        AbortAndDrain();
        return Err(Cancelled), Ended(Panicked, []);
      }
      r, last := Join();
    }

    /** Starts the uploads one by one as permits allow, until the sync is cancelled. */
    method SpawnAll() returns (stopped: bool)
      requires Valid() && spawned == 0 && Pending() == {}
      modifies this, server.Objects()
      ensures Valid() && old(server.admitted) <= server.admitted
      ensures stopped ==> mishaps > 0
      ensures !stopped ==> spawned == |batches| && Pending() == Below(|batches|)
    {
      while spawned < |batches|
        invariant Valid() && Pending() == Below(spawned) && old(server.admitted) <= server.admitted
        decreases |batches| - spawned
      {
        stopped := *;
        if stopped {
          mishaps := mishaps + 1;
          return;
        }
        SpawnNext();
      }
      stopped := false;
    }

    method SpawnNext()
      requires Valid() && spawned < |batches| && Pending() == Below(spawned)
      modifies this, server.Objects()
      ensures Valid() && spawned == old(spawned) + 1 && Pending() == Below(spawned)
      ensures old(server.admitted) <= server.admitted
    {
      ghost var n, before := spawned, Pending();
      Acquire();
      assert Pending() == before;
      Spawn();
      assert Pending() == before + {n};
      assert Below(n + 1) == Below(n) + {n};
    }

    method Join() returns (r: Result, ghost last: Ended)
      requires Valid() && spawned == |batches| && Pending() == Below(|batches|)
      modifies this, server.Objects()
      ensures r.Err? ==> mishaps > 0 && Blames(last, r.error)
      ensures Pending() == {} && server.Valid() && old(server.admitted) <= server.admitted
      ensures r.Ok? ==> forall i | 0 <= i < |batches| :: batches[i].id in server.admitted
      ensures r.Ok? ==> exists outcomes: map<nat, Outcome> ::
        Answered(batches, outcomes) && r.stats == Totals(outcomes, |batches|)
    {
      var turn := Continue(Zero);
      last := Ended(Panicked, []);
      ghost var outcomes: map<nat, Outcome> := map[];
      NoTotals(|batches|);
      while turn.Continue?
        invariant Valid() && spawned == |batches| && old(server.admitted) <= server.admitted
        invariant TurnOk(turn, outcomes) && (turn.Stopped? ==> Blames(last, turn.error))
        decreases |Pending()|, turn.Continue?
      {
        turn, outcomes, last := JoinOne(turn.stats, outcomes);
      }
      if turn.Stopped? {
        return Err(turn.error), last;
      }
      Settled(batches, outcomes, server.admitted);
      r := Ok(turn.stats);
    }

    /** Where the joining stands after a turn. */
    ghost predicate TurnOk(turn: Turn, outcomes: map<nat, Outcome>)
      reads this, server.Objects()
    {
      match turn
      case Continue(stats) =>
        Collected(batches, outcomes, Pending(), server.admitted) && stats == Totals(outcomes, |batches|)
      case AllJoined(stats) =>
        Collected(batches, outcomes, {}, server.admitted) && stats == Totals(outcomes, |batches|) && Pending() == {}
      case Stopped(_) => mishaps > 0 && Pending() == {}
    }

    method JoinOne(stats: Stats, ghost outcomes: map<nat, Outcome>)
      returns (turn: Turn, ghost more: map<nat, Outcome>, ghost last: Ended)
      requires Valid() && spawned == |batches| && TurnOk(Continue(stats), outcomes)
      modifies this, server.Objects()
      ensures Valid() && spawned == |batches| && old(server.admitted) <= server.admitted && TurnOk(turn, more)
      ensures |Pending()| <= |old(Pending())| && (turn.Continue? ==> |Pending()| < |old(Pending())|)
      ensures turn.Stopped? ==> Blames(last, turn.error)
    {
      ghost var before, known := Pending(), server.admitted;
      more := outcomes;
      var ended, i, upload := JoinNext();
      last := upload;
      if !ended {
        CollectedStill(batches, outcomes, before, known, server.admitted);
        return AllJoined(stats), more, last;
      }
      match upload.result
      case Done(outcome) =>
        CollectMore(batches, outcomes, before, known, server.admitted, i, outcome);
        turn, more := Continue(Add(stats, outcome)), outcomes[i := outcome];
      case Failed(error) =>
        AbortAndDrain();
        turn := Stopped(error);
      case Panicked =>
        AbortAndDrain();
        turn := Stopped(Error.Join);
    }
  }

  /** The error is that of the upload; one that was cut off counts as a failed join. */
  predicate Blames(e: Ended, error: Error) {
    EndsRightly(e.heard, e.result) && (e.result == Failed(error) || (e.result.Panicked? && error == Error.Join))
  }

  /** An error for a busy service or a timeout is that of a batch that was posted four times in vain. */
  lemma BlamedPosts(e: Ended, error: Error)
    requires Blames(e, error)
    ensures error == Other ==> |e.heard| == 4 && AllTransient(e.heard)
    ensures error == Http ==> e.heard != [] && (Transient(e.heard[|e.heard| - 1]) ==> |e.heard| == 4)
  {
  }

  lemma Heard(heard: seq<Reply>, reply: Reply)
    ensures (heard + [reply])[..|heard|] == heard && (heard + [reply])[|heard|] == reply
    ensures AllTransient(heard) && Transient(reply) ==> AllTransient(heard + [reply])
  {
  }

  /** Every batch was answered once, as accepted or as a duplicate. */
  ghost predicate Answered(batches: seq<Job>, outcomes: map<nat, Outcome>) {
    outcomes.Keys == Below(|batches|)
    && forall i | 0 <= i < |batches| :: outcomes[i] == AcceptedJob(batches[i]) || outcomes[i] == Duplicate
  }

  function FilesBelow(batches: seq<Job>, n: nat): nat
    requires n <= |batches|
  {
    if n == 0 then 0 else FilesBelow(batches, n - 1) + |batches[n - 1].batch.files|
  }

  /** The files of the batches that were answered as duplicates. */
  function DuplicateFiles(batches: seq<Job>, outcomes: map<nat, Outcome>, n: nat): nat
    requires n <= |batches|
  {
    if n == 0 then 0
    else DuplicateFiles(batches, outcomes, n - 1) + if n - 1 in outcomes && outcomes[n - 1].duplicate
      then |batches[n - 1].batch.files| else 0
  }

  /** The totals count each file once unless the answer to its batch's admission was lost: then the
      retry finds a duplicate, which counts nothing. */
  lemma {:induction false} TotalsAccount(batches: seq<Job>, outcomes: map<nat, Outcome>, n: nat)
    requires Answered(batches, outcomes) && n <= |batches|
    ensures Totals(outcomes, n).files + DuplicateFiles(batches, outcomes, n) == FilesBelow(batches, n)
    ensures Totals(outcomes, n).duplicates == 0 ==> DuplicateFiles(batches, outcomes, n) == 0
    ensures Totals(outcomes, n).duplicates <= n
  {
    if n > 0 {
      TotalsAccount(batches, outcomes, n - 1);
      assert n - 1 in outcomes.Keys;
      assert outcomes[n - 1] == AcceptedJob(batches[n - 1]) || outcomes[n - 1] == Duplicate;
    }
  }

  /** A sync's upload: pack, number, upload. On success the service has admitted every batch, by one
      step of its run and no other. */
  method StreamNeeded(server: Server, needed: seq<FileEntry>, deletes: seq<string>)
    returns (r: Result, batches: seq<Batch>)
    requires server.Valid()
    modifies server.Objects()
    ensures server.Valid() && Concat(FilesOf(batches)) == needed
    ensures r.Ok? ==> forall i | 0 <= i < |batches| ::
      AdmittedOnce(server.service.store.trace, SyncState.Key(server.sync, JobOf(batches[i]).id))
  {
    batches := ChunkIntoBatches(needed, deletes);
    var jobs := Jobs(batches);
    var pool := new Pool(server, jobs);
    ghost var last;
    r, last := pool.StreamBatches();
    server.service.store.ValidLegal();
    if r.Ok? {
      forall i | 0 <= i < |batches|
        ensures AdmittedOnce(server.service.store.trace, SyncState.Key(server.sync, JobOf(batches[i]).id))
      {
        assert jobs[i] == JobOf(batches[i]);
        IdsOnce(server.service.store.trace, server.sync, jobs[i].id);
      }
    }
  }

  method Jobs(batches: seq<Batch>) returns (jobs: seq<Job>)
    ensures |jobs| == |batches| && forall i | 0 <= i < |batches| :: jobs[i] == JobOf(batches[i])
  {
    jobs := [];
    for i := 0 to |batches|
      invariant |jobs| == i && forall j | 0 <= j < i :: jobs[j] == JobOf(batches[j])
    {
      var id := DeterministicBatchId(batches[i]);
      jobs := jobs + [Job(id, batches[i])];
    }
  }

  ghost predicate Collected(batches: seq<Job>, outcomes: map<nat, Outcome>, pending: set<nat>, admitted: set<string>) {
    && outcomes.Keys !! pending && outcomes.Keys + pending == Below(|batches|)
    && forall i | i in outcomes && i < |batches| ::
         batches[i].id in admitted && (outcomes[i] == AcceptedJob(batches[i]) || outcomes[i] == Duplicate)
  }

  lemma Settled(batches: seq<Job>, outcomes: map<nat, Outcome>, admitted: set<string>)
    requires Collected(batches, outcomes, {}, admitted)
    ensures Answered(batches, outcomes) && forall i | 0 <= i < |batches| :: batches[i].id in admitted
  {
    assert outcomes.Keys + {} == outcomes.Keys;
    forall i | 0 <= i < |batches| ensures batches[i].id in admitted {
      assert i in outcomes.Keys;
    }
  }

  lemma CollectOne(
    batches: seq<Job>, outcomes: map<nat, Outcome>, pending: set<nat>, admitted: set<string>, i: nat, outcome: Outcome)
    requires Collected(batches, outcomes, pending, admitted) && i in pending && i < |batches|
    requires ResultOk(batches[i], Done(outcome), admitted)
    ensures i !in outcomes && Collected(batches, outcomes[i := outcome], pending - {i}, admitted)
  {
    var more := outcomes[i := outcome];
    assert more.Keys == outcomes.Keys + {i} && i !in outcomes.Keys;
    MovedKey(outcomes.Keys, pending, i);
    forall j | j in more && j < |batches|
      ensures batches[j].id in admitted && (more[j] == AcceptedJob(batches[j]) || more[j] == Duplicate)
    {
      if j != i {
        assert more[j] == outcomes[j];
      }
    }
  }

  lemma MovedKey(keys: set<nat>, pending: set<nat>, i: nat)
    requires keys !! pending && i in pending
    ensures (keys + {i}) !! (pending - {i}) && keys + {i} + (pending - {i}) == keys + pending
  {
  }

  lemma CollectedStill(
    batches: seq<Job>, outcomes: map<nat, Outcome>, pending: set<nat>, before: set<string>, admitted: set<string>)
    requires Collected(batches, outcomes, pending, before) && before <= admitted
    ensures Collected(batches, outcomes, pending, admitted)
  {
  }

  lemma CollectMore(
    batches: seq<Job>, outcomes: map<nat, Outcome>, pending: set<nat>, before: set<string>, admitted: set<string>,
    i: nat, outcome: Outcome)
    requires Collected(batches, outcomes, pending, before) && before <= admitted && i in pending && i < |batches|
    requires ResultOk(batches[i], Done(outcome), admitted)
    ensures i !in outcomes && Collected(batches, outcomes[i := outcome], pending - {i}, admitted)
    ensures Totals(outcomes[i := outcome], |batches|) == Add(Totals(outcomes, |batches|), outcome)
  {
    CollectedStill(batches, outcomes, pending, before, admitted);
    CollectOne(batches, outcomes, pending, admitted, i, outcome);
    TotalsAny(outcomes, |batches|, i, outcome);
  }

  lemma {:induction false} NoTotals(n: nat)
    ensures Totals(map[], n) == Zero
  {
    if n > 0 { NoTotals(n - 1); }
  }

  lemma RunningShrank(before: map<nat, seq<Reply>>, after: map<nat, seq<Reply>>, i: nat)
    requires after.Keys <= before.Keys && i in before && i !in after && |before| <= STREAM_CONCURRENCY
    ensures |after| < STREAM_CONCURRENCY
  {
    var left := before.Keys - {i};
    assert after.Keys <= left && |left| == |before.Keys| - 1;
    Fewer(after.Keys, left);
    assert |before.Keys| == |before| && |after.Keys| == |after|;
  }

  lemma Fewer<T>(a: set<T>, b: set<T>)
    requires a <= b
    ensures |a| <= |b|
  {
    assert b == a + (b - a);
  }

  lemma SpawnOk(
    batches: seq<Job>, running: map<nat, seq<Reply>>, finished: map<nat, Ended>, spawned: nat, admitted: set<string>,
    next: map<nat, seq<Reply>>)
    requires PoolOk(batches, running, finished, spawned, admitted) && |running| < STREAM_CONCURRENCY
    requires spawned < |batches|
    requires next == running[spawned := []] && spawned !in running && spawned !in finished
    ensures PoolOk(batches, next, finished, spawned + 1, admitted)
    ensures next.Keys + finished.Keys == running.Keys + finished.Keys + {spawned}
  {
    SpawnedKeys(running, finished.Keys, spawned);
    assert AllTransient([]);
    assert RunningOk(next, spawned + 1);
  }

  lemma SpawnedKeys(running: map<nat, seq<Reply>>, finished: set<nat>, i: nat)
    requires i !in running && i !in finished && running.Keys !! finished
    ensures var next := running[i := []];
      next.Keys !! finished && |next| == |running| + 1 && next.Keys + finished == running.Keys + finished + {i}
  {
    AddedKey(running, i, []);
    SpawnedKey(running.Keys, finished, i);
    assert running[i := []].Keys == running.Keys + {i};
  }

  lemma SpawnedKey(running: set<nat>, finished: set<nat>, i: nat)
    requires i !in running && i !in finished && running !! finished
    ensures (running + {i}) !! finished && running + {i} + finished == running + finished + {i}
  {
  }

  lemma JoinOk(
    batches: seq<Job>, running: map<nat, seq<Reply>>, finished: map<nat, Ended>, spawned: nat, admitted: set<string>,
    i: nat, left: map<nat, Ended>)
    requires PoolOk(batches, running, finished, spawned, admitted) && i in finished && left == finished - {i}
    ensures PoolOk(batches, running, left, spawned, admitted)
    ensures running.Keys + left.Keys == running.Keys + finished.Keys - {i}
    ensures (AllDone(finished) ==> AllDone(left)) && i < spawned && EndedOk(batches[i], finished[i], admitted)
  {
    assert left.Keys == finished.Keys - {i};
    JoinKeys(running.Keys, finished.Keys, i);
    forall j | j in left ensures j < spawned && EndedOk(batches[j], left[j], admitted) {
      assert left[j] == finished[j];
    }
  }

  lemma JoinKeys(running: set<nat>, finished: set<nat>, i: nat)
    requires running !! finished && i in finished
    ensures running !! (finished - {i}) && running + (finished - {i}) == running + finished - {i}
  {
  }

  function Below(n: nat): (r: set<nat>)
    ensures forall i: nat :: i in r <==> i < n
  {
    if n == 0 then {} else Below(n - 1) + {n - 1}
  }

  lemma FewerRunning(running: map<nat, seq<Reply>>, i: nat)
    requires i in running
    ensures |running - {i}| == |running| - 1
  {
    assert (running - {i}).Keys == running.Keys - {i};
    assert |running.Keys| == |running| && |(running - {i}).Keys| == |running - {i}|;
  }
}
