/** A batch whose acceptance the client does not hear of. The retry finds it there, so the client's
    totals miss its files; or, when it was the closing batch, finds the session no longer receiving,
    so the upload fails although the service has everything. */
module LostReplies {
  import opened Utf8
  import opened Digests
  import opened MerkleTree
  import opened Entries
  import opened BatchText
  import opened BatchIds
  import opened SyncState
  import opened SyncMachine
  import opened CollidingIds
  import Chunking
  import Ingest
  import Requests
  import UploadPool
  import Wire

  const OneByte: Bytes := [49]
  const OneFile := Chunking.FileEntry("a", Hex(H1), OneByte)
  const OneBatch := Chunking.Batch([OneFile], [])
  const OneEntry := Entry("file", "a", Hex(H1), OneByte)
  const Stored := Batch(map["a" := H1], {})

  /** The client sends it under the identifier of what the service stores. */
  lemma OneId()
    ensures Wire.EntriesOf(OneBatch) == [OneEntry] && UploadPool.JobOf(OneBatch).id == IdOf(Stored)
    ensures Ingest.WellFormed([OneEntry]) && Ingest.BatchOf([OneEntry]) == Stored
  {
    var entries := [OneEntry];
    assert Wire.EntriesOf(OneBatch) == entries;
    OneDigest();
    assert entries[..0] == [] && Ingest.AcceptedFiles([]) == map[] && Ingest.AcceptedDeletes([]) == {};
    assert Ingest.WellFormed(entries) && Ingest.BareDeletes(entries);
    Ingest.EntriesId(entries);
  }

  lemma OneDigest()
    ensures DigestOf(OneByte) == H1
  {
    assert H1.preimage == [49 as char];
  }

  function Opened(client: Leaves): Session {
    Session("me", "me", client, false, 0, client, [], map[], [], Receiving, "")
  }

  const OneKey := Key(0, IdOf(Stored))
  const OneJob := UploadPool.JobOf(OneBatch)

  /** A session that expects the batch, and perhaps more, has stored its content, and then admitted it. */
  lemma Accepted(client: Leaves) returns (before: seq<Label>, run: seq<Label>)
    requires "a" in client && client["a"] == H1
    ensures Legal(before) && Legal(run) && run == before + [Admit(OneKey, Stored, [])]
    ensures After(before).rows == map[] && After(run).rows == map[OneKey := NewRow(Stored)]
    ensures After(run).sessions == map[0 := Merge(Opened(client), Stored, [])]
  {
    var none: Leaves := map[];
    var x := Opened(client);
    assert Need(none, client) == client && Stale(none, client) == {};
    OneStated();
    NoSteps();
    OpenStep(x);
    var created := Take(Ingest.Any, [], CreateSession(0, x));
    before := StoreTake(Ingest.Any, created, x, map[], map[], map[], OneKey, Stored);
    run := AdmitTake(Ingest.Any, before, x, map[], map[OneKey := ContentOf(Stored)], map[], OneKey, Stored, []);
  }

  lemma OneStated()
    ensures Ingest.Stated(Ingest.Any, IdOf(Stored), Stored)
  {
    OneId();
    Ingest.EntriesId([OneEntry]);
    assert Ingest.States(IdOf(Stored), Stored, [OneEntry]);
  }

  lemma MergedStatus(client: Leaves)
    requires "a" in client && client["a"] == H1
    ensures Merge(Opened(client), Stored, []).status == if |client| == 1 then Processing else Receiving
  {
    var none: Leaves := map[];
    var nothing: seq<Path> := [];
    assert none + Stored.files == Stored.files && nothing + [] == nothing;
    assert Stored.files.Keys == {"a"} && |Stored.files| == |Stored.files.Keys|;
  }

  /** The batch is admitted, and what the service looks up for the next post of it settles the answer. */
  ghost predicate AnsweredAgain(run: seq<Label>, answer: Requests.IngestResult) {
    && Legal(run) && OneKey in After(run).rows
    && forall r :: Requests.LookedUp(After(run), 0, OneKey.batch, [OneEntry], r) <==> r == answer
  }

  function SecondAnswer(client: Leaves): Requests.IngestResult {
    if |client| == 1 then Requests.NotReceiving else Requests.Duplicate
  }

  /** While the session expects more, the retry is told that the batch is there; once the batch has
      closed it, that the session is gone. */
  lemma RetryAnswer(client: Leaves)
    requires "a" in client && client["a"] == H1
    ensures exists run :: AnsweredAgain(run, SecondAnswer(client))
  {
    var _, run := Accepted(client);
    AnsweredNext(client, run);
  }

  lemma AnsweredNext(client: Leaves, run: seq<Label>)
    requires "a" in client && client["a"] == H1 && Legal(run)
    requires After(run).rows == map[OneKey := NewRow(Stored)]
    requires After(run).sessions == map[0 := Merge(Opened(client), Stored, [])]
    ensures AnsweredAgain(run, SecondAnswer(client))
  {
    MergedStatus(client);
  }

  /** So a post of it is answered, unless an operation fails. */
  method PostAgain(service: Requests.SyncSessionService, ghost answer: Requests.IngestResult)
    returns (result: Requests.IngestResult)
    requires service.store.Valid() && AnsweredAgain(service.store.trace, answer)
    modifies service, service.store
    ensures service.store.Valid() && (service.faults == old(service.faults) ==> result == answer)
  {
    service.store.ValidLegal();
    result := service.IngestBatch(0, IdOf(Stored), [OneEntry]);
  }

  /** The last step of the run admits the batch, which no step before does; the client, whose reply to
      that post is lost, sees `second` when it posts the batch again. */
  ghost predicate LostAndRetried(before: seq<Label>, run: seq<Label>, second: UploadPool.Reply) {
    var ids, more := UploadPool.AdmittedIds(before, 0), UploadPool.AdmittedIds(run, 0);
    && Legal(run) && before <= run && Requests.LastAdmits(run, OneKey, Stored)
    && OneJob.id !in ids && OneJob.id in more && UploadPool.Answers(ids, OneJob, UploadPool.Timeout, more)
    && SeenAgain(run, second)
    && UploadPool.Answers(more, OneJob, second, more)
  }

  ghost predicate SeenAgain(run: seq<Label>, reply: UploadPool.Reply) {
    exists answer: Requests.IngestResult ::
      !answer.Queued? && AnsweredAgain(run, answer) && reply == UploadPool.SeenAs(answer)
  }

  lemma SeenNext(run: seq<Label>, client: Leaves)
    requires AnsweredAgain(run, SecondAnswer(client))
    ensures SeenAgain(run, SecondSeen(client))
  {
  }

  ghost predicate CanLose(second: UploadPool.Reply) {
    exists before, run :: LostAndRetried(before, run, second)
  }

  function SecondSeen(client: Leaves): UploadPool.Reply {
    UploadPool.SeenAs(SecondAnswer(client))
  }

  lemma NewlyThere(before: seq<Label>, run: seq<Label>)
    requires Legal(run) && run == before + [Admit(OneKey, Stored, [])]
    ensures var ids, more := UploadPool.AdmittedIds(before, 0), UploadPool.AdmittedIds(run, 0);
      OneJob.id !in ids && OneJob.id in more && UploadPool.Answers(ids, OneJob, UploadPool.Timeout, more)
  {
    OneId();
    UploadPool.IdsGrow(before, run, 0);
    UploadPool.NewId(before, run, OneKey, Stored);
  }

  /** When the reply to an admission is lost, the client's next post of the batch fails with the session
      expired if the batch was the last, and otherwise finds it there. */
  lemma LostReply(client: Leaves)
    requires "a" in client && client["a"] == H1
    ensures CanLose(SecondSeen(client))
  {
    var before, run := Accepted(client);
    AnsweredNext(client, run);
    SeenNext(run, client);
    NewlyThere(before, run);
    assert LostAndRetried(before, run, SecondSeen(client));
  }

  /** What the client counts for an upload that ended. */
  function Counted(r: UploadPool.TaskResult): map<nat, UploadPool.Outcome> {
    if r.Done? then map[0 := r.outcome] else map[]
  }

  /** In the second case the upload succeeds and counts nothing, in the first it fails: either way the
      client counts no file, though the service has admitted the batch and its one file. */
  lemma Uncounted(client: Leaves, b: UploadPool.Job)
    requires "a" in client && client["a"] == H1 && b == OneJob
    ensures var end := UploadPool.EndOn(SecondSeen(client));
      && CanLose(SecondSeen(client)) && (end.Done? <==> |client| != 1)
      && (end.Done? ==> UploadPool.Answered([b], Counted(end)))
      && UploadPool.Totals(Counted(end), 1).files == 0 && UploadPool.FilesBelow([b], 1) == |b.batch.files| == 1
  {
    LostReply(client);
    SecondEnd(client, b);
    OneFileIn();
  }

  lemma SecondEnd(client: Leaves, b: UploadPool.Job)
    ensures var end := UploadPool.EndOn(SecondSeen(client));
      && (end.Done? <==> |client| != 1) && (end.Done? ==> UploadPool.Answered([b], Counted(end)))
      && UploadPool.Totals(Counted(end), 1).files == 0 && UploadPool.FilesBelow([b], 1) == |b.batch.files|
  {
    SeenEnd(client);
    CountsNothing(b, UploadPool.EndOn(SecondSeen(client)));
  }

  lemma SeenEnd(client: Leaves)
    ensures UploadPool.EndOn(SecondSeen(client)) ==
      if |client| == 1 then UploadPool.Failed(UploadPool.Expired) else UploadPool.Done(UploadPool.Duplicate)
  {
  }

  lemma OneFileIn()
    ensures |OneJob.batch.files| == 1
  {
  }

  lemma CountsNothing(b: UploadPool.Job, end: UploadPool.TaskResult)
    requires end.Done? ==> end.outcome == UploadPool.Duplicate
    ensures end.Done? ==> UploadPool.Answered([b], Counted(end))
    ensures UploadPool.Totals(Counted(end), 1).files == 0 && UploadPool.FilesBelow([b], 1) == |b.batch.files|
  {
    OneTotal(b, UploadPool.Duplicate);
    if end.Done? {
      OneAnswer(b, end.outcome);
      assert Counted(end) == map[0 := UploadPool.Duplicate];
    } else {
      assert Counted(end) == map[];
      assert UploadPool.Totals(map[], 0) == UploadPool.Zero;
      assert UploadPool.Totals(map[], 1) == UploadPool.Zero;
    }
  }

  lemma OneAnswer(b: UploadPool.Job, o: UploadPool.Outcome)
    requires o == UploadPool.Duplicate
    ensures UploadPool.Answered([b], map[0 := o])
  {
    assert UploadPool.Below(1) == {0};
    assert map[0 := o].Keys == {0};
  }

  lemma OneTotal(b: UploadPool.Job, o: UploadPool.Outcome)
    ensures UploadPool.Totals(map[0 := o], 1) == UploadPool.Add(UploadPool.Zero, o)
    ensures UploadPool.FilesBelow([b], 1) == |b.batch.files|
  {
    assert UploadPool.Totals(map[0 := o], 0) == UploadPool.Zero && UploadPool.FilesBelow([b], 0) == 0;
  }
}
