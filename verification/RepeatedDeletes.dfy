/** An incremental sync whose client names one path to delete twice: everything it promised arrives,
    but the session does not close. */
module RepeatedDeletes {
  import opened Wrappers

  import opened MerkleTree
  import opened SyncState
  import opened SyncMachine
  import opened SyncRuns

  const Twice := Session("me", "me", map[], true, 0, map[], ["p", "p"], map[], [], Receiving, "")
  const OneDelete := Batch(map[], {"p"})
  const DeleteKey := Key(0, "delete|p|")
  const Received := Twice.(receivedDeletes := ["p"])

  lemma TwicePromised()
    ensures FreshSession(map[], Twice) && !NoDuplicates(Twice.expectedDeletes)
    ensures Valid(Twice, OneDelete) && Lists(["p"], {"p"}) && Merge(Twice, OneDelete, ["p"]) == Received
  {
    var nothing: Leaves := map[];
    var none: seq<Path> := [];
    assert Need(map[], nothing) == nothing && nothing + nothing == nothing && none + ["p"] == ["p"];
    assert ["p", "p"][0] == ["p", "p"][1];
    assert (set p | p in ["p"]) == {"p"};
  }

  predicate Waiting(st: State, x: Session) {
    st.sessions == map[0 := x] && st.rows == map[] && st.outbox == map[] && 0 in st.hist.seen
  }

  lemma Created() returns (run: seq<Label>)
    ensures Legal(run) && Waiting(After(run), Twice)
  {
    NoSteps();
    TwicePromised();
    Extend([], CreateSession(0, Twice));
    run := [] + [CreateSession(0, Twice)];
  }

  lemma Uploaded(run: seq<Label>) returns (longer: seq<Label>)
    requires Legal(run) && Waiting(After(run), Twice)
    ensures Legal(longer) && Waiting(After(longer), Twice)
  {
    Extend(run, SetContent(DeleteKey, OneDelete));
    longer := run + [SetContent(DeleteKey, OneDelete)];
  }

  lemma CanAdmitDelete(st: State)
    requires Waiting(st, Twice)
    ensures Enabled(st, Admit(DeleteKey, OneDelete, ["p"]))
  {
    TwicePromised();
  }

  lemma AdmitNext(st: State, x: Session, k: Key, b: Batch, order: seq<Path>)
    requires st.sessions == map[0 := x] && k.sync == 0
    ensures NextSessions(st, Admit(k, b, order)) == map[0 := Merge(x, b, order)]
  {
  }

  lemma Admitted(run: seq<Label>) returns (longer: seq<Label>)
    requires Legal(run) && Waiting(After(run), Twice)
    ensures Legal(longer) && After(longer).sessions == map[0 := Received]
  {
    CanAdmitDelete(After(run));
    AdmitNext(After(run), Twice, DeleteKey, OneDelete, ["p"]);
    TwicePromised();
    Extend(run, Admit(DeleteKey, OneDelete, ["p"]));
    longer := run + [Admit(DeleteKey, OneDelete, ["p"])];
  }

  /** The session has received all it was promised and still waits. */
  lemma AllReceivedNotClosed()
    ensures exists run :: Legal(run) && After(run).sessions == map[0 := Received]
    ensures Received.status.Receiving? && Received.receivedFiles == Received.expectedFiles
    ensures Elements(Received.receivedDeletes) == Elements(Received.expectedDeletes)
    ensures !NoDuplicates(Received.expectedDeletes)
  {
    var created := Created();
    var uploaded := Uploaded(created);
    var run := Admitted(uploaded);
    TwicePromised();
    forall p ensures p in Elements(Received.receivedDeletes) <==> p in Elements(Received.expectedDeletes) { }
  }
}
