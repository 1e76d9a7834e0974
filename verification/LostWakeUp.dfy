/** A trigger whose transaction fails is only logged, and the batch is acknowledged all the same:
    the session it should have woken stays processing until it expires. */
module LostWakeUp {
  import opened Digests
  import opened MerkleTree
  import opened SyncState
  import opened SyncMachine
  import opened BatchRows
  import opened Manifests
  import opened WakeUp
  import opened SyncTheorems
  import opened SyncRuns
  import opened WakeUpExact

  // ---------------------------------------------------------------------------
  // Before the delivery
  // ---------------------------------------------------------------------------

  const TheClient: Leaves := map["a" := Sha("text")]
  const TheSession := Session("me", "me", TheClient, false, 0, TheClient, [], map[], [], Receiving, "")
  const TheBatch := Batch(TheClient, {})
  const TheKey := Key(0, "id")
  const TheTask := StreamTask(TheKey)

  const Unsent := OutboxRow(OutboxPending, false)
  const Dispatched := OutboxRow(Enqueued, true)
  const Taken := TheSession.(receivedFiles := TheClient, status := Processing)

  /** The state once the batch is admitted. */
  function Busy(
    row: Row, outbox: OutboxRow, queue: map<Task, nat>, claims: multiset<Task>, procs: map<WorkerId, Proc>,
    hist: History): State
  {
    State(map[0 := Taken], map[TheKey := row], map[TheKey := Intact(TheClient, {})], map[TheTask := outbox],
          queue, {}, claims, map[], procs, hist)
  }

  const Created := State(map[0 := TheSession], map[], map[], map[], map[], {}, multiset{}, map[], map[], Fresh)
  const Uploaded := Created.(redis := map[TheKey := Intact(TheClient, {})])
  const Fresh := History({0}, {}, {}, map[], map[])

  lemma CreateStep()
    ensures Enabled(Initial, CreateSession(0, TheSession)) && Next(Initial, CreateSession(0, TheSession)) == Created
  {
    assert Need(map[], TheClient) == TheClient;
    assert "a" in TheClient;
    assert FreshSession(map[], TheSession);
  }

  lemma AdmitStep()
    ensures Enabled(Uploaded, Admit(TheKey, TheBatch, []))
    ensures Next(Uploaded, Admit(TheKey, TheBatch, [])) ==
      Busy(NewRow(TheBatch), Unsent, map[], multiset{}, map[], Fresh)
  {
    assert "a" in TheClient;
    assert Valid(TheSession, TheBatch);
    var none: Leaves := map[];
    assert none + TheClient == TheClient;
    var nothing: seq<Path> := [];
    assert nothing + [] == nothing;
    assert Merge(TheSession, TheBatch, []) == Taken;
  }

  function Sent(outbox: OutboxRow, queue: map<Task, nat>, claims: multiset<Task>): State {
    Busy(NewRow(TheBatch), outbox, queue, claims, map[], Fresh)
  }

  lemma ClaimStep()
    ensures Enabled(Sent(Unsent, map[], multiset{}), Claim(TheTask))
    ensures Next(Sent(Unsent, map[], multiset{}), Claim(TheTask)) ==
      Sent(OutboxRow(Enqueuing, false), map[], multiset{TheTask})
  {
  }

  lemma EnqueueStep()
    ensures Enabled(Sent(OutboxRow(Enqueuing, false), map[], multiset{TheTask}), Enqueue(TheTask))
    ensures Next(Sent(OutboxRow(Enqueuing, false), map[], multiset{TheTask}), Enqueue(TheTask)) ==
      Sent(OutboxRow(Enqueuing, true), map[TheTask := 0], multiset{})
  {
  }

  lemma MarkEnqueuedStep()
    ensures Enabled(Sent(OutboxRow(Enqueuing, true), map[TheTask := 0], multiset{}), MarkEnqueued(TheTask))
    ensures Next(Sent(OutboxRow(Enqueuing, true), map[TheTask := 0], multiset{}), MarkEnqueued(TheTask)) ==
      Sent(Dispatched, map[TheTask := 0], multiset{})
  {
  }

  /** One file is synced by one batch. */
  lemma AdmitRun() returns (run: seq<Label>)
    ensures Legal(run) && After(run) == Sent(Unsent, map[], multiset{})
  {
    CreateStep();
    NoSteps();
    Extend([], CreateSession(0, TheSession));
    run := [] + [CreateSession(0, TheSession)];
    Extend(run, SetContent(TheKey, TheBatch));
    run := run + [SetContent(TheKey, TheBatch)];
    assert After(run) == Uploaded;
    AdmitStep();
    Extend(run, Admit(TheKey, TheBatch, []));
    run := run + [Admit(TheKey, TheBatch, [])];
  }

  lemma DispatchRun() returns (run: seq<Label>)
    ensures Legal(run) && After(run) == Sent(Dispatched, map[TheTask := 0], multiset{})
  {
    run := AdmitRun();
    ClaimStep();
    Extend(run, Claim(TheTask));
    run := run + [Claim(TheTask)];
    EnqueueStep();
    Extend(run, Enqueue(TheTask));
    run := run + [Enqueue(TheTask)];
    MarkEnqueuedStep();
    Extend(run, MarkEnqueued(TheTask));
    run := run + [MarkEnqueued(TheTask)];
  }

  // ---------------------------------------------------------------------------
  // Its only delivery
  // ---------------------------------------------------------------------------

  /** The one delivery is about to do `pc`. */
  ghost predicate Working(st: State, row: Row, content: bool, pc: BatchPc) {
    && st.sessions == map[0 := Taken] && 0 in st.hist.seen && st.rows == map[TheKey := row]
    && (content ==> st.redis == map[TheKey := Intact(TheClient, {})])
    && st.outbox == map[TheTask := Dispatched] && st.queue == map[TheTask := 0] && st.claims == multiset{}
    && st.procs.Keys == {0} && st.procs[0].Stream? && st.procs[0].key == TheKey && st.procs[0].pc == pc &&
         !st.procs[0].final
  }

  const Open := NewRow(TheBatch)
  const Closed := SucceededRow(Open, map[], {})

  lemma StartStep()
    ensures Enabled(Sent(Dispatched, map[TheTask := 0], multiset{}), Start(0, TheTask))
    ensures Working(Next(Sent(Dispatched, map[TheTask := 0], multiset{}), Start(0, TheTask)), Open, true, AtGet)
  {
  }

  lemma GetStep(st: State)
    requires Working(st, Open, true, AtGet)
    ensures Enabled(st, Step(0, Fine)) && Working(Next(st, Step(0, Fine)), Open, true, AtLoadSession(TheClient, {}))
  {
  }

  lemma LoadStep(st: State)
    requires Working(st, Open, true, AtLoadSession(TheClient, {}))
    ensures Enabled(st, Step(0, Fine)) && Working(Next(st, Step(0, Fine)), Open, true, AtIndex(TheClient, {}))
  {
  }

  lemma IndexStep(st: State)
    requires Working(st, Open, true, AtIndex(TheClient, {}))
    ensures Enabled(st, Step(0, Stats(Indexed(map[], {}))))
    ensures Working(Next(st, Step(0, Stats(Indexed(map[], {})))), Open, true, AtMarkSucceeded(map[], {}))
  {
  }

  lemma MarkStep(st: State)
    requires Working(st, Open, true, AtMarkSucceeded(map[], {}))
    ensures Enabled(st, Step(0, Fine)) && Working(Next(st, Step(0, Fine)), Closed, true, AtDel)
  {
  }

  lemma DelStep(st: State)
    requires Working(st, Closed, true, AtDel)
    ensures Enabled(st, Step(0, Fine)) && Working(Next(st, Step(0, Fine)), Closed, false, AtTrigger)
  {
  }

  lemma DropStep(st: State)
    requires Working(st, Closed, false, AtTrigger)
    ensures Enabled(st, Step(0, Fault(false))) && Loses(st, Step(0, Fault(false)), 0)
    ensures Working(Next(st, Step(0, Fault(false))), Closed, false, BatchReturned(false))
  {
  }

  lemma FinishStep(st: State)
    requires Working(st, Closed, false, BatchReturned(false))
    ensures Enabled(st, Finish(0)) && !CanWake(Next(st, Finish(0)), 0)
    ensures NextSessions(st, Finish(0)) == map[0 := Taken] && NextRows(st, Finish(0)) == map[TheKey := Closed]
  {
  }

  lemma WorkRun() returns (run: seq<Label>)
    ensures Legal(run) && Working(After(run), Open, true, AtMarkSucceeded(map[], {}))
  {
    run := DispatchRun();
    StartStep();
    Extend(run, Start(0, TheTask));
    run := run + [Start(0, TheTask)];
    GetStep(After(run));
    Extend(run, Step(0, Fine));
    run := run + [Step(0, Fine)];
    LoadStep(After(run));
    Extend(run, Step(0, Fine));
    run := run + [Step(0, Fine)];
    IndexStep(After(run));
    Extend(run, Step(0, Stats(Indexed(map[], {}))));
    run := run + [Step(0, Stats(Indexed(map[], {})))];
  }

  lemma DropRun() returns (run: seq<Label>)
    ensures Legal(run) && Working(After(run), Closed, false, BatchReturned(false))
  {
    run := WorkRun();
    MarkStep(After(run));
    Extend(run, Step(0, Fine));
    run := run + [Step(0, Fine)];
    DelStep(After(run));
    Extend(run, Step(0, Fine));
    run := run + [Step(0, Fine)];
    DropStep(After(run));
    Extend(run, Step(0, Fault(false)));
    run := run + [Step(0, Fault(false))];
  }

  lemma ReadyWithoutWork(st: State)
    requires !CanWake(st, 0) && st.sessions == map[0 := Taken] && st.rows == map[TheKey := Closed]
    ensures Waiting(st, 0) && forall k | k in st.rows :: st.rows[k].state.Succeeded?
  {
    assert TheKey in st.rows;
  }

  /** Every batch succeeded, one trigger was dropped, and nothing can finalize the session any more. */
  ghost predicate SticksAfter(run: seq<Label>, s: SyncId) {
    && Legal(run) && Waiting(After(run), s) && !SomeRunFinalizes(run, s)
    && forall k | k in After(run).rows :: After(run).rows[k].state.Succeeded?
  }

  lemma DroppedTriggerSticks()
    ensures exists run, s :: SticksAfter(run, s)
  {
    var run := DropRun();
    FinishStep(After(run));
    Extend(run, Finish(0));
    var stuck := run + [Finish(0)];
    ReadyWithoutWork(After(stuck));
    WakesExactly(stuck, 0);
    assert SticksAfter(stuck, 0);
  }
}
