/** What a delivery answers to the replies it hears, from its start to its return. Nothing here speaks
    of how it gets from one operation to the next: only of the replies, the trees and the tables. */
module Deliveries {
  import opened MerkleTree
  import opened SyncState
  import opened SyncMachine
  import opened MerkleCommits
  import opened Finalization
  import opened SyncTheorems

  // ---------------------------------------------------------------------------
  // What a delivery has heard
  // ---------------------------------------------------------------------------

  /** The replies to the worker since its delivery started. */
  ghost function Heard(run: seq<Label>, w: WorkerId): seq<Reply> {
    if run == [] then []
    else
      var front, l := run[..|run| - 1], run[|run| - 1];
      match l
      case Start(v, _) => if v == w then [] else Heard(front, w)
      case Step(v, reply) => if v == w then Heard(front, w) + [reply] else Heard(front, w)
      case _ => Heard(front, w)
  }

  /** A save that changed no tree although nothing failed: another version, or a refused request. */
  predicate Missed(st: State, next: State, reply: Reply) {
    reply.Refused? || (reply.Token? && next.repos == st.repos)
  }

  ghost function Misses(run: seq<Label>, w: WorkerId): nat {
    if run == [] then 0
    else
      var front, l := run[..|run| - 1], run[|run| - 1];
      match l
      case Start(v, _) => if v == w then 0 else Misses(front, w)
      case Step(v, reply) =>
        Misses(front, w) + if v == w && Missed(After(front), After(run), reply) then 1 else 0
      case _ => Misses(front, w)
  }

  /** The storage or the network failed. */
  predicate Faulted(reply: Reply) {
    reply.Fault? || reply.TokenFault?
  }

  /** No reply was a failure or a permanent error. */
  predicate Smooth(heard: seq<Reply>) {
    heard == [] ||
      var last := heard[|heard| - 1];
      !Faulted(last) && !last.Permanent? && Smooth(heard[..|heard| - 1])
  }

  lemma SmoothMore(heard: seq<Reply>, reply: Reply)
    ensures Smooth(heard + [reply]) <==> Smooth(heard) && !Faulted(reply) && !reply.Permanent?
    ensures (heard + [reply])[..|heard|] == heard
  {
  }

  /** The label is an operation of the delivery that the worker has in hand. */
  ghost predicate OwnIn(run: seq<Label>, n: nat, w: WorkerId) {
    && n < |run| && run[n].Step? && run[n].w == w
    && forall j | n < j < |run| :: !(run[j].Start? && run[j].w == w)
  }

  /** Its latest one. */
  ghost predicate LatestOwn(run: seq<Label>, n: nat, w: WorkerId) {
    OwnIn(run, n, w) && forall j | n < j < |run| :: !(run[j].Step? && run[j].w == w)
  }

  // ---------------------------------------------------------------------------
  // How a finalize delivery ends
  // ---------------------------------------------------------------------------

  predicate RepoIs(st: State, s: SyncId, r: RepoId) {
    s in st.sessions ==> st.sessions[s].repo == r
  }

  /** The step appended the worker's commit of the delta to the history, on top of the tree there was. */
  ghost predicate Appends(st: State, next: State, w: WorkerId, s: SyncId, r: RepoId, d: Delta) {
    var repo, after := RepoOf(st.repos, r), RepoOf(next.repos, r);
    RepoIs(st, s, r) && after.log == repo.log + [Commit(s, w, d)] && after.tree == ApplyChanges(repo.tree, d)
  }

  /** The stored tree would keep its root hash. */
  ghost predicate KeepsHash(st: State, s: SyncId, r: RepoId, d: Delta) {
    var repo := RepoOf(st.repos, r);
    RepoIs(st, s, r) && repo.version != 0 && RootHash(ApplyChanges(repo.tree, d)) == RootHash(repo.tree)
  }

  /** The delivery's delta is in the log, or would not have changed the root hash of the tree it read. */
  ghost predicate Landed(run: seq<Label>, w: WorkerId, s: SyncId, d: Delta) {
    exists n: nat :: OwnIn(run, n, w) && Lands(After(run[..n]), After(run[..n + 1]), w, s, d)
  }

  ghost predicate Lands(st: State, next: State, w: WorkerId, s: SyncId, d: Delta) {
    exists r :: Appends(st, next, w, s, r, d) || KeepsHash(st, s, r, d)
  }

  /** Its latest operation was this one. */
  ghost predicate Ended(run: seq<Label>, w: WorkerId, how: (State, State) -> bool) {
    exists n: nat :: LatestOwn(run, n, w) && how(After(run[..n]), After(run[..n + 1]))
  }

  /** The session becomes done, if it is finalizing. */
  ghost function MakesDone(s: SyncId): (State, State) -> bool {
    (st: State, next: State) =>
      s in st.sessions && st.sessions[s].status.Finalizing? ==>
        next.sessions == st.sessions[s := st.sessions[s].(status := Done)]
  }

  /** It fails for the reason, if it is active. */
  ghost function MakesFailed(s: SyncId, reason: string): (State, State) -> bool {
    (st: State, next: State) =>
      s in st.sessions && IsActive(st.sessions[s].status) ==>
        next.sessions == st.sessions[s := st.sessions[s].(status := Failed, failedReason := reason)]
  }

  ghost function FindsNothing(s: SyncId): (State, State) -> bool {
    (st: State, next: State) => s !in st.sessions || !st.sessions[s].status.Finalizing?
  }

  /** The rows left nothing to commit. */
  const Nothing := Delta(map[], {})

  /** The delivery returned. It returns an error exactly when its last reply is a failure, and takes at most
      thirteen operations. Without failures and permanent errors it found its session no longer
      finalizing, or failed it because nothing was processed; or, having missed less than five times,
      it has its delta in the tree and the session done; or it missed five times and failed the session
      for that. */
  ghost predicate FinalEnd(run: seq<Label>, w: WorkerId, s: SyncId, heard: seq<Reply>, misses: nat, err: bool) {
    && 0 < |heard| <= 13 && (err <==> Faulted(heard[|heard| - 1])) && misses <= 5
    && (Smooth(heard) ==> EndedSmoothly(run, w, s, heard, misses))
    && (!err && !Smooth(heard) ==> Ended(run, w, MakesFailed(s, "merkle_storage_permanent")))
  }

  ghost predicate EndedSmoothly(run: seq<Label>, w: WorkerId, s: SyncId, heard: seq<Reply>, misses: nat) {
    if |heard| == 1 then Ended(run, w, FindsNothing(s)) && misses == 0
    else
      && |heard| >= 3 && heard[1].Results?
      && var d := heard[1].delta;
        if d == Nothing then Ended(run, w, MakesFailed(s, "all_operations_failed")) && misses == 0
        else if misses < 5 then Landed(run, w, s, d) && Ended(run, w, MakesDone(s))
        else Ended(run, w, MakesFailed(s, "merkle_cas_exhausted"))
  }

  /** What each place of the loop has heard. */
  ghost predicate Trying(heard: seq<Reply>, misses: nat, d: Delta, attempt: nat) {
    Smooth(heard) && |heard| >= 2 && heard[1] == Results(d) && d != Nothing && misses == attempt < 5
  }

  ghost predicate Failing(heard: seq<Reply>, misses: nat, reason: string) {
    || (reason == "merkle_cas_exhausted" && Smooth(heard) && misses == 5 && |heard| == 12
        && heard[1].Results? && heard[1].delta != Nothing)
    || (reason == "all_operations_failed" && Smooth(heard) && misses == 0 && |heard| == 2
        && heard[1] == Results(Nothing))
    || (reason == "merkle_storage_permanent" && 3 <= |heard| <= 12 && misses < 5 && heard[|heard| - 1].Permanent?)
  }

  ghost predicate FinalTold(run: seq<Label>, w: WorkerId, s: SyncId, pc: FinalPc, heard: seq<Reply>, misses: nat) {
    match pc
    case AtLoadFinalizing => heard == [] && misses == 0
    case AtLoadRows(_) => heard == [Fine] && misses == 0
    case AtLoadTree(_, d, attempt, _, _) => Trying(heard, misses, d, attempt) && |heard| == 2 + 2 * attempt
    case AtSaveTree(_, d, attempt, _, _, _, _, _) => Trying(heard, misses, d, attempt) && |heard| == 3 + 2 * attempt
    case AtMarkDone(o) =>
      && Smooth(heard) && 3 <= |heard| <= 12 && heard[1] == Results(o.delta) && o.delta != Nothing && misses < 5
      && Landed(run, w, s, o.delta)
    case AtFail(reason, _, _, _) => Failing(heard, misses, reason)
    case FinalReturned(err) => FinalEnd(run, w, s, heard, misses, err)
  }

  // ---------------------------------------------------------------------------
  // Others do not matter
  // ---------------------------------------------------------------------------

  predicate NotOwn(l: Label, w: WorkerId) {
    !((l.Start? || l.Step?) && l.w == w)
  }

  lemma OwnStays(run: seq<Label>, l: Label, w: WorkerId, n: nat)
    requires OwnIn(run, n, w) && !(l.Start? && l.w == w)
    ensures OwnIn(run + [l], n, w) && (run + [l])[..n] == run[..n] && (run + [l])[..n + 1] == run[..n + 1]
    ensures LatestOwn(run, n, w) && NotOwn(l, w) ==> LatestOwn(run + [l], n, w)
  {
  }

  lemma LandedStays(run: seq<Label>, l: Label, w: WorkerId, s: SyncId, d: Delta)
    requires Landed(run, w, s, d) && !(l.Start? && l.w == w)
    ensures Landed(run + [l], w, s, d)
  {
    var n: nat :| OwnIn(run, n, w) && Lands(After(run[..n]), After(run[..n + 1]), w, s, d);
    OwnStays(run, l, w, n);
  }

  lemma EndedStays(run: seq<Label>, l: Label, w: WorkerId, how: (State, State) -> bool)
    requires NotOwn(l, w) && Ended(run, w, how)
    ensures Ended(run + [l], w, how)
  {
    var n: nat :| LatestOwn(run, n, w) && how(After(run[..n]), After(run[..n + 1]));
    OwnStays(run, l, w, n);
  }

  lemma SmoothlyStays(run: seq<Label>, l: Label, w: WorkerId, s: SyncId, heard: seq<Reply>, misses: nat)
    requires NotOwn(l, w) && EndedSmoothly(run, w, s, heard, misses)
    ensures EndedSmoothly(run + [l], w, s, heard, misses)
  {
    if |heard| == 1 {
      EndedStays(run, l, w, FindsNothing(s));
    } else if heard[1].delta == Nothing {
      EndedStays(run, l, w, MakesFailed(s, "all_operations_failed"));
    } else if misses < 5 {
      LandedStays(run, l, w, s, heard[1].delta);
      EndedStays(run, l, w, MakesDone(s));
    } else {
      EndedStays(run, l, w, MakesFailed(s, "merkle_cas_exhausted"));
    }
  }

  lemma FinalOther(run: seq<Label>, l: Label, w: WorkerId, s: SyncId, pc: FinalPc, heard: seq<Reply>, misses: nat)
    requires FinalTold(run, w, s, pc, heard, misses) && NotOwn(l, w)
    ensures FinalTold(run + [l], w, s, pc, heard, misses)
  {
    match pc
    case AtMarkDone(o) => LandedStays(run, l, w, s, o.delta);
    case FinalReturned(err) =>
      if Smooth(heard) {
        SmoothlyStays(run, l, w, s, heard, misses);
      } else if !err {
        EndedStays(run, l, w, MakesFailed(s, "merkle_storage_permanent"));
      }
    case _ =>
  }

  // ---------------------------------------------------------------------------
  // One operation of a finalize delivery
  // ---------------------------------------------------------------------------

  /** The run with its last step, by the worker. */
  ghost predicate Stepped(front: seq<Label>, w: WorkerId, reply: Reply, st: State, next: State) {
    && st == After(front) && next == After(front + [Step(w, reply)])
    && LatestOwn(front + [Step(w, reply)], |front|, w)
    && (front + [Step(w, reply)])[..|front|] == front
    && (front + [Step(w, reply)])[..|front| + 1] == front + [Step(w, reply)]
  }

  lemma StepsNow(front: seq<Label>, w: WorkerId, reply: Reply)
    requires Legal(front) && Enabled(After(front), Step(w, reply))
    ensures Stepped(front, w, reply, After(front), Next(After(front), Step(w, reply)))
  {
    Extend(front, Step(w, reply));
  }

  lemma ToldFinalizing(front: seq<Label>, w: WorkerId, reply: Reply, st: State, next: State, s: SyncId, after: FinalPc)
    requires Stepped(front, w, reply, st, next) && (reply == Fine || reply == Fault(false))
    requires after == if reply.Fault? then FinalReturned(true)
      else if s !in st.sessions || !st.sessions[s].status.Finalizing? then FinalReturned(false)
      else AtLoadRows(st.sessions[s].repo)
    ensures FinalTold(front + [Step(w, reply)], w, s, after, [reply], 0)
  {
    SmoothMore([], reply);
    assert [] + [reply] == [reply];
    if after == FinalReturned(false) {
      EndsNow(front, w, reply, st, next, FindsNothing(s));
    }
  }

  lemma EndsNow(front: seq<Label>, w: WorkerId, reply: Reply, st: State, next: State, how: (State, State) -> bool)
    requires Stepped(front, w, reply, st, next) && how(st, next)
    ensures Ended(front + [Step(w, reply)], w, how)
  {
    var run := front + [Step(w, reply)];
    assert how(After(run[..|front|]), After(run[..|front| + 1]));
  }

  lemma ToldRows(run: seq<Label>, w: WorkerId, reply: Reply, s: SyncId, r: RepoId, base: nat, after: FinalPc)
    requires reply == Fault(false) || reply.Results?
    requires after == if !reply.Results? then FinalReturned(true)
      else if reply.delta == Nothing then AtFail("all_operations_failed", r, 0, 0)
      else AtLoadTree(r, reply.delta, 0, base, 0)
    ensures FinalTold(run, w, s, after, [Fine, reply], 0)
  {
    SmoothMore([], Fine);
    SmoothMore([Fine], reply);
    assert [] + [Fine] == [Fine] && [Fine] + [reply] == [Fine, reply];
  }

  lemma Longer(heard: seq<Reply>, reply: Reply)
    requires |heard| >= 2
    ensures var more := heard + [reply];
      |more| == |heard| + 1 && more[1] == heard[1] && more[|more| - 1] == reply && more[..|heard|] == heard
  {
  }

  /** A failure ends the delivery with an error. */
  lemma FaultEnds(run: seq<Label>, w: WorkerId, s: SyncId, heard: seq<Reply>, misses: nat, reply: Reply)
    requires |heard| <= 12 && misses <= 5 && Faulted(reply)
    ensures FinalEnd(run, w, s, heard + [reply], misses, true)
  {
    SmoothMore(heard, reply);
  }

  lemma ToldTree(
    front: seq<Label>, w: WorkerId, reply: Reply, st: State, next: State, s: SyncId, r: RepoId, d: Delta, attempt: nat,
    base: nat, refused: nat, heard: seq<Reply>)
    requires Stepped(front, w, reply, st, next) && Trying(heard, attempt, d, attempt) && |heard| == 2 + 2 * attempt
    requires (reply == Fine || reply == Fault(false) || reply.Permanent?) && RepoIs(st, s, r)
    ensures FinalTold(front + [Step(w, reply)], w, s,
      AfterLoad(RepoOf(st.repos, r), r, d, attempt, base, refused, reply), heard + [reply], attempt)
  {
    var run := front + [Step(w, reply)];
    Longer(heard, reply);
    SmoothMore(heard, reply);
    if reply.Fault? {
      FaultEnds(run, w, s, heard, attempt, reply);
    } else if reply.Fine? && HashUnchanged(RepoOf(st.repos, r), d) {
      assert KeepsHash(st, s, r, d);
      assert Lands(After(run[..|front|]), After(run[..|front| + 1]), w, s, d);
      assert Landed(run, w, s, d);
    }
  }

  lemma ToldMiss(
    run: seq<Label>, w: WorkerId, s: SyncId, reply: Reply, r: RepoId, d: Delta, attempt: nat, base: nat, refused: nat,
    heard: seq<Reply>)
    requires Trying(heard, attempt, d, attempt) && |heard| == 3 + 2 * attempt && (reply.Refused? || reply.Token?)
    ensures FinalTold(run, w, s, AfterMiss(r, d, attempt, base, refused), heard + [reply], attempt + 1)
  {
    Longer(heard, reply);
    SmoothMore(heard, reply);
  }

  lemma ToldSaved(
    front: seq<Label>, w: WorkerId, reply: Reply, st: State, next: State, s: SyncId, r: RepoId, d: Delta, attempt: nat,
    at: nat, heard: seq<Reply>)
    requires Stepped(front, w, reply, st, next) && Trying(heard, attempt, d, attempt) && |heard| == 3 + 2 * attempt
    requires reply.Token? && Appends(st, next, w, s, r, d)
    ensures FinalTold(front + [Step(w, reply)], w, s, AtMarkDone(Outcome(r, d, at, true)), heard + [reply], attempt)
  {
    var run := front + [Step(w, reply)];
    Longer(heard, reply);
    SmoothMore(heard, reply);
    assert Lands(After(run[..|front|]), After(run[..|front| + 1]), w, s, d);
    assert Landed(run, w, s, d);
  }

  lemma ToldPermanent(
    run: seq<Label>, w: WorkerId, s: SyncId, reply: Reply, r: RepoId, d: Delta, attempt: nat, base: nat, refused: nat,
    heard: seq<Reply>)
    requires Trying(heard, attempt, d, attempt) && |heard| <= 11 && reply.Permanent?
    ensures FinalTold(run, w, s, AtFail("merkle_storage_permanent", r, base, refused), heard + [reply], attempt)
  {
    Longer(heard, reply);
  }

  lemma ToldDone(
    front: seq<Label>, w: WorkerId, reply: Reply, st: State, next: State, s: SyncId, o: Outcome, heard: seq<Reply>,
    misses: nat)
    requires Stepped(front, w, reply, st, next) && FinalTold(front, w, s, AtMarkDone(o), heard, misses)
    requires reply.Fine? || reply.Fault?
    requires reply.Fine? && s in st.sessions && st.sessions[s].status.Finalizing? ==>
      next.sessions == st.sessions[s := st.sessions[s].(status := Done)]
    ensures FinalTold(front + [Step(w, reply)], w, s, FinalReturned(!reply.Fine?), heard + [reply], misses)
  {
    var run := front + [Step(w, reply)];
    Longer(heard, reply);
    if reply.Fault? {
      FaultEnds(run, w, s, heard, misses, reply);
    } else {
      SmoothMore(heard, reply);
      LandedStays(front, Step(w, reply), w, s, o.delta);
      EndsNow(front, w, reply, st, next, MakesDone(s));
    }
  }

  lemma ToldFail(
    front: seq<Label>, w: WorkerId, reply: Reply, st: State, next: State, s: SyncId, reason: string, heard: seq<Reply>,
    misses: nat)
    requires Stepped(front, w, reply, st, next) && Failing(heard, misses, reason) && (reply.Fine? || reply.Fault?)
    requires reply.Fine? && s in st.sessions && IsActive(st.sessions[s].status) ==>
      next.sessions == st.sessions[s := st.sessions[s].(status := Failed, failedReason := reason)]
    ensures FinalTold(front + [Step(w, reply)], w, s, FinalReturned(!reply.Fine?), heard + [reply], misses)
  {
    var run := front + [Step(w, reply)];
    Longer(heard, reply);
    if reply.Fault? {
      FaultEnds(run, w, s, heard, misses, reply);
    } else {
      SmoothMore(heard, reply);
      EndsNow(front, w, reply, st, next, MakesFailed(s, reason));
    }
  }

  // ---------------------------------------------------------------------------
  // Putting the operations together
  // ---------------------------------------------------------------------------

  /** Only saves can miss. */
  lemma NoMiss(st: State, w: WorkerId, reply: Reply)
    requires CanStep(st, w, reply) && !(st.procs[w].Final? && st.procs[w].fpc.AtSaveTree?)
    ensures !Missed(st, Next(st, Step(w, reply)), reply)
  {
  }

  lemma SaveMisses(st: State, w: WorkerId, reply: Reply)
    requires CasOk(st) && CanStep(st, w, reply) && st.procs[w].Final? && st.procs[w].fpc.AtSaveTree?
    ensures var p := st.procs[w]; var next := Next(st, Step(w, reply));
      && (Missed(st, next, reply) <==> reply.Refused? || (reply.Token? && !Saves(st, p, reply)))
      && (Saves(st, p, reply) && RepoIs(st, p.sync, p.fpc.repo) ==>
           Appends(st, next, w, p.sync, p.fpc.repo, p.fpc.delta))
  {
    var p := st.procs[w];
    if Saves(st, p, reply) {
      SaveCommits(st, w, reply);
      var repo := RepoOf(st.repos, p.fpc.repo);
      assert |RepoOf(NextRepos(st, Step(w, reply)), p.fpc.repo).log| == |repo.log| + 1;
    }
  }

  lemma SaveTold(front: seq<Label>, w: WorkerId, reply: Reply, st: State, next: State, heard: seq<Reply>, attempt: nat)
    requires Stepped(front, w, reply, st, next) && CanStep(st, w, reply) && CasOk(st)
    requires next == Next(st, Step(w, reply))
    requires st.procs[w].Final? && st.procs[w].fpc.AtSaveTree? && RepoIs(st, st.procs[w].sync, st.procs[w].fpc.repo)
    requires st.procs[w].fpc.attempt == attempt && Trying(heard, attempt, st.procs[w].fpc.delta, attempt)
    requires |heard| == 3 + 2 * attempt
    ensures FinalTold(front + [Step(w, reply)], w, st.procs[w].sync, NextFinalPc(st, st.procs[w], reply),
      heard + [reply], attempt + if Missed(st, next, reply) then 1 else 0)
  {
    var p := st.procs[w];
    var run, pc := front + [Step(w, reply)], p.fpc;
    SaveMisses(st, w, reply);
    if Faulted(reply) {
      FaultEnds(run, w, p.sync, heard, attempt, reply);
    } else if reply.Permanent? {
      ToldPermanent(run, w, p.sync, reply, pc.repo, pc.delta, attempt, pc.base, pc.refused, heard);
    } else if reply.Token? && Saves(st, p, reply) {
      ToldSaved(front, w, reply, st, next, p.sync, pc.repo, pc.delta, attempt, |RepoOf(st.repos, pc.repo).log| + 1,
        heard);
    } else {
      ToldMiss(run, w, p.sync, reply, pc.repo, pc.delta, attempt, pc.base,
        if reply.Refused? then pc.refused + 1 else pc.refused, heard);
    }
  }

  lemma CloseSessions(st: State, w: WorkerId, s: SyncId)
    requires w in st.procs && st.procs[w].Final? && st.procs[w].sync == s
    ensures st.procs[w].fpc.AtMarkDone? && s in st.sessions && st.sessions[s].status.Finalizing? ==>
      Next(st, Step(w, Fine)).sessions == st.sessions[s := st.sessions[s].(status := Done)]
    ensures st.procs[w].fpc.AtFail? && s in st.sessions && IsActive(st.sessions[s].status) ==>
      Next(st, Step(w, Fine)).sessions ==
        st.sessions[s := st.sessions[s].(status := Failed, failedReason := st.procs[w].fpc.reason)]
  {
  }

  /** Before the loop, and the load. */
  lemma EarlyStep(front: seq<Label>, w: WorkerId, reply: Reply, st: State, next: State, heard: seq<Reply>, misses: nat)
    requires Stepped(front, w, reply, st, next) && CanStep(st, w, reply) && st.procs[w].Final?
    requires var pc := st.procs[w].fpc;
      || pc.AtLoadFinalizing? || pc.AtLoadRows?
      || (pc.AtLoadTree? && RepoIs(st, st.procs[w].sync, pc.repo))
    requires FinalTold(front, w, st.procs[w].sync, st.procs[w].fpc, heard, misses)
    ensures FinalTold(front + [Step(w, reply)], w, st.procs[w].sync, NextFinalPc(st, st.procs[w], reply),
      heard + [reply], misses)
  {
    var p := st.procs[w];
    match p.fpc
    case AtLoadFinalizing =>
      assert [] + [reply] == [reply];
      ToldFinalizing(front, w, reply, st, next, p.sync, NextFinalPc(st, p, reply));
    case AtLoadRows(r) =>
      assert [Fine] + [reply] == [Fine, reply];
      ToldRows(front + [Step(w, reply)], w, reply, p.sync, r, |RepoOf(st.repos, r).log|, NextFinalPc(st, p, reply));
    case AtLoadTree(r, d, attempt, base, refused) =>
      ToldTree(front, w, reply, st, next, p.sync, r, d, attempt, base, refused, heard);
  }

  /** The end. */
  lemma LateStep(front: seq<Label>, w: WorkerId, reply: Reply, st: State, next: State, heard: seq<Reply>, misses: nat)
    requires Stepped(front, w, reply, st, next) && CanStep(st, w, reply) && next == Next(st, Step(w, reply))
    requires st.procs[w].Final? && (st.procs[w].fpc.AtMarkDone? || st.procs[w].fpc.AtFail?)
    requires FinalTold(front, w, st.procs[w].sync, st.procs[w].fpc, heard, misses)
    ensures FinalTold(front + [Step(w, reply)], w, st.procs[w].sync, NextFinalPc(st, st.procs[w], reply),
      heard + [reply], misses)
  {
    var p := st.procs[w];
    CloseSessions(st, w, p.sync);
    match p.fpc
    case AtMarkDone(o) => ToldDone(front, w, reply, st, next, p.sync, o, heard, misses);
    case AtFail(reason, _, _, _) => ToldFail(front, w, reply, st, next, p.sync, reason, heard, misses);
  }

  lemma FinalStep(front: seq<Label>, w: WorkerId, reply: Reply, st: State, next: State, heard: seq<Reply>, misses: nat)
    requires Stepped(front, w, reply, st, next) && CanStep(st, w, reply) && next == Next(st, Step(w, reply))
    requires CasOk(st) && st.procs[w].Final? && FinalPcOk(st, st.procs[w].sync, st.procs[w].fpc)
    requires FinalTold(front, w, st.procs[w].sync, st.procs[w].fpc, heard, misses)
    ensures FinalTold(front + [Step(w, reply)], w, st.procs[w].sync, NextFinalPc(st, st.procs[w], reply),
      heard + [reply], misses + if Missed(st, next, reply) then 1 else 0)
  {
    var p := st.procs[w];
    KnowsRepo(st, p.sync, p.fpc);
    if p.fpc.AtSaveTree? {
      SaveTold(front, w, reply, st, next, heard, p.fpc.attempt);
    } else {
      NoMiss(st, w, reply);
      if p.fpc.AtMarkDone? || p.fpc.AtFail? {
        LateStep(front, w, reply, st, next, heard, misses);
      } else {
        EarlyStep(front, w, reply, st, next, heard, misses);
      }
    }
  }

  lemma KnowsRepo(st: State, s: SyncId, pc: FinalPc)
    requires FinalPcOk(st, s, pc)
    ensures pc.AtLoadTree? || pc.AtSaveTree? ==> RepoIs(st, s, pc.repo)
  {
  }

  // ---------------------------------------------------------------------------
  // How a batch delivery ends
  // ---------------------------------------------------------------------------

  /** The replies that make a batch delivery return an error: a failed read, or, unless it is the last
      delivery of the task, a retryable error of the pipeline or a failed mark after it. */
  predicate EndsInError(heard: seq<Reply>, final: bool) {
    || heard == [Fault(false)] || heard == [Fine, Fault(false)]
    || (!final && |heard| == 3 && heard[2].Stats? && heard[2].indexing.RetryableError?)
    || (!final && |heard| == 4 && heard[2].Stats? && heard[2].indexing.Indexed? && heard[3].Fault?)
  }

  /** With this reply, where it stands, the delivery finds the reason to fail its batch. */
  predicate Finds(st: State, w: WorkerId, k: Key, reply: Reply, reason: string) {
    && w in st.procs && st.procs[w].Stream? && st.procs[w].key == k
    && match st.procs[w].pc
       case AtGet =>
         reply.Fine? &&
           if k !in st.redis then reason == "content_missing" else st.redis[k].Garbled? && reason == "decode_error"
       case AtLoadSession(_, _) =>
         && reply.Fine? && k.sync in st.sessions && reason == "session_no_longer_updatable"
         && !st.sessions[k.sync].status.Receiving? && !st.sessions[k.sync].status.Processing?
       case AtIndex(_, _) =>
         reply.Stats? &&
           (match reply.indexing
            case Indexed(_, _) => false
            case TerminalError(code) => reason == if code == "" then "pipeline_terminal" else code
            case RetryableError(code) => st.procs[w].final && reason == code)
       case AtMarkSucceeded(_, _) => reply.Fault? && st.procs[w].final && reason == "db_merge_exhausted"
       case _ => false
  }

  ghost predicate Found(run: seq<Label>, w: WorkerId, k: Key, reason: string) {
    exists n: nat :: OwnIn(run, n, w) && Finds(After(run[..n]), w, k, run[n].reply, reason)
  }

  predicate IsUpdatable(st: State, k: Key) {
    k.sync in st.sessions && (st.sessions[k.sync].status.Receiving? || st.sessions[k.sync].status.Processing?)
  }

  /** The session still took batches when the delivery looked. */
  ghost predicate WasUpdatable(run: seq<Label>, w: WorkerId, k: Key) {
    exists n: nat :: OwnIn(run, n, w) && IsUpdatable(After(run[..n]), k)
  }

  ghost predicate BatchTold(run: seq<Label>, w: WorkerId, k: Key, final: bool, pc: BatchPc, heard: seq<Reply>) {
    match pc
    case AtGet => heard == []
    case AtLoadSession(_, _) => heard == [Fine]
    case AtIndex(_, _) => heard == [Fine, Fine] && WasUpdatable(run, w, k)
    case AtMarkSucceeded(failedFiles, failedDeletes) =>
      heard == [Fine, Fine, Stats(Indexed(failedFiles, failedDeletes))] && WasUpdatable(run, w, k)
    case AtMarkFailed(reason) => 1 <= |heard| <= 4 && Found(run, w, k, reason)
    case AtDel => 2 <= |heard| <= 5
    case AtTrigger => 3 <= |heard| <= 6 && (|heard| == 3 ==> !heard[2].Stats?)
    case BatchReturned(err) => 0 < |heard| <= 7 && (err <==> EndsInError(heard, final))
  }

  lemma FoundStays(run: seq<Label>, l: Label, w: WorkerId, k: Key, reason: string)
    requires Found(run, w, k, reason) && !(l.Start? && l.w == w)
    ensures Found(run + [l], w, k, reason)
  {
    var n: nat :| OwnIn(run, n, w) && Finds(After(run[..n]), w, k, run[n].reply, reason);
    OwnStays(run, l, w, n);
    assert (run + [l])[n] == run[n];
  }

  lemma UpdatableStays(run: seq<Label>, l: Label, w: WorkerId, k: Key)
    requires WasUpdatable(run, w, k) && !(l.Start? && l.w == w)
    ensures WasUpdatable(run + [l], w, k)
  {
    var n: nat :| OwnIn(run, n, w) && IsUpdatable(After(run[..n]), k);
    OwnStays(run, l, w, n);
  }

  lemma UpdatableNow(front: seq<Label>, w: WorkerId, reply: Reply, st: State, next: State, k: Key)
    requires Stepped(front, w, reply, st, next) && IsUpdatable(st, k)
    ensures WasUpdatable(front + [Step(w, reply)], w, k)
  {
    assert IsUpdatable(After((front + [Step(w, reply)])[..|front|]), k);
  }

  lemma BatchOther(run: seq<Label>, l: Label, w: WorkerId, k: Key, final: bool, pc: BatchPc, heard: seq<Reply>)
    requires BatchTold(run, w, k, final, pc, heard) && NotOwn(l, w)
    ensures BatchTold(run + [l], w, k, final, pc, heard)
  {
    if pc.AtMarkFailed? {
      FoundStays(run, l, w, k, pc.reason);
    }
    if pc.AtIndex? || pc.AtMarkSucceeded? {
      UpdatableStays(run, l, w, k);
    }
  }

  lemma FindsNow(front: seq<Label>, w: WorkerId, reply: Reply, st: State, next: State, k: Key, reason: string)
    requires Stepped(front, w, reply, st, next) && Finds(st, w, k, reply, reason)
    ensures Found(front + [Step(w, reply)], w, k, reason)
  {
    var run := front + [Step(w, reply)];
    assert run[|front|] == Step(w, reply);
    assert Finds(After(run[..|front|]), w, k, run[|front|].reply, reason);
  }

  /** The reads and the pipeline. */
  lemma BatchReads(front: seq<Label>, w: WorkerId, reply: Reply, st: State, next: State, heard: seq<Reply>)
    requires Stepped(front, w, reply, st, next) && w in st.procs && st.procs[w].Stream?
    requires BatchReply(st.procs[w].pc, reply)
    requires var pc := st.procs[w].pc; pc.AtGet? || pc.AtLoadSession? || pc.AtIndex? || pc.AtMarkSucceeded?
    requires BatchTold(front, w, st.procs[w].key, st.procs[w].final, st.procs[w].pc, heard)
    ensures var p := st.procs[w];
      BatchTold(front + [Step(w, reply)], w, p.key, p.final, NextBatchPc(st, p, reply), heard + [reply])
  {
    var p := st.procs[w];
    var after := NextBatchPc(st, p, reply);
    if after.AtMarkFailed? {
      FindsNow(front, w, reply, st, next, p.key, after.reason);
    }
    if after.AtIndex? {
      UpdatableNow(front, w, reply, st, next, p.key);
    }
    if after.AtMarkSucceeded? {
      UpdatableStays(front, Step(w, reply), w, p.key);
    }
    assert [] + [reply] == [reply] && [Fine] + [reply] == [Fine, reply] &&
      [Fine, Fine] + [reply] == [Fine, Fine, reply];
  }

  lemma BatchWrites(front: seq<Label>, w: WorkerId, reply: Reply, st: State, heard: seq<Reply>)
    requires w in st.procs && st.procs[w].Stream? && (reply.Fine? || reply.Fault?)
    requires var pc := st.procs[w].pc; pc.AtMarkFailed? || pc.AtDel? || pc.AtTrigger?
    requires BatchTold(front, w, st.procs[w].key, st.procs[w].final, st.procs[w].pc, heard)
    ensures var p := st.procs[w];
      BatchTold(front + [Step(w, reply)], w, p.key, p.final, NextBatchPc(st, p, reply), heard + [reply])
  {
  }

  lemma BatchStep(front: seq<Label>, w: WorkerId, reply: Reply, st: State, next: State, heard: seq<Reply>)
    requires Stepped(front, w, reply, st, next) && CanStep(st, w, reply) && st.procs[w].Stream?
    requires BatchTold(front, w, st.procs[w].key, st.procs[w].final, st.procs[w].pc, heard)
    ensures var p := st.procs[w];
      BatchTold(front + [Step(w, reply)], w, p.key, p.final, NextBatchPc(st, p, reply), heard + [reply])
  {
    var pc := st.procs[w].pc;
    if pc.AtGet? || pc.AtLoadSession? || pc.AtIndex? || pc.AtMarkSucceeded? {
      BatchReads(front, w, reply, st, next, heard);
    } else {
      BatchWrites(front, w, reply, st, heard);
    }
  }

  // ---------------------------------------------------------------------------
  // Every delivery
  // ---------------------------------------------------------------------------

  ghost predicate Told(run: seq<Label>, w: WorkerId, p: Proc) {
    match p
    case Stream(k, final, pc, _, _) => BatchTold(run, w, k, final, pc, Heard(run, w))
    case Final(s, _, pc) => FinalTold(run, w, s, pc, Heard(run, w), Misses(run, w))
  }

  lemma HeardOn(front: seq<Label>, l: Label, w: WorkerId)
    ensures var run := front + [l];
      && Heard(run, w) ==
           (if l.Start? && l.w == w then []
            else if l.Step? && l.w == w then Heard(front, w) + [l.reply] else Heard(front, w))
      && Misses(run, w) ==
           if l.Start? && l.w == w then 0
           else if l.Step? && l.w == w && Missed(After(front), After(run), l.reply) then Misses(front, w) + 1
           else Misses(front, w)
  {
    assert (front + [l])[..|front|] == front;
  }

  lemma ToldOwn(front: seq<Label>, w: WorkerId, reply: Reply)
    requires Legal(front) && Enabled(After(front), Step(w, reply)) && Told(front, w, After(front).procs[w])
    ensures Told(front + [Step(w, reply)], w, NextProc(After(front), After(front).procs[w], reply))
  {
    var st := After(front);
    StepsNow(front, w, reply);
    InvHolds(front);
    HeardOn(front, Step(w, reply), w);
    if st.procs[w].Stream? {
      BatchStep(front, w, reply, st, Next(st, Step(w, reply)), Heard(front, w));
    } else {
      FinalStep(front, w, reply, st, Next(st, Step(w, reply)), Heard(front, w), Misses(front, w));
    }
  }

  lemma ToldOther(front: seq<Label>, l: Label, w: WorkerId, p: Proc)
    requires Told(front, w, p) && NotOwn(l, w)
    ensures Told(front + [l], w, p)
  {
    HeardOn(front, l, w);
    match p
    case Stream(k, final, pc, _, _) => BatchOther(front, l, w, k, final, pc, Heard(front, w));
    case Final(s, _, pc) => FinalOther(front, l, w, s, pc, Heard(front, w), Misses(front, w));
  }

  lemma {:induction false} AllTold(run: seq<Label>, w: WorkerId)
    requires Legal(run) && w in After(run).procs
    ensures Told(run, w, After(run).procs[w])
  {
    if run == [] {
      NoSteps();
    } else {
      var front, l := run[..|run| - 1], run[|run| - 1];
      LastStep(run);
      assert run == front + [l];
      if !(l.Start? && l.w == w) {
        AllTold(front, w);
      }
      ToldNext(front, l, w);
    }
  }

  lemma ToldNext(front: seq<Label>, l: Label, w: WorkerId)
    requires Legal(front) && Enabled(After(front), l) && w in NextProcs(After(front), l)
    requires !(l.Start? && l.w == w) ==> w in After(front).procs && Told(front, w, After(front).procs[w])
    ensures Told(front + [l], w, NextProcs(After(front), l)[w])
  {
    if l.Step? && l.w == w {
      ToldOwn(front, w, l.reply);
    } else if l.Start? && l.w == w {
      HeardOn(front, l, w);
    } else {
      ToldOther(front, l, w, After(front).procs[w]);
    }
  }

  /** A finalize delivery returns an error exactly when the last reply it heard was a failure of the
      storage; it never takes more than thirteen operations or misses more than five times. Without
      failures and permanent errors, it has its delta in the tree and its session done if it missed less
      than five times, and otherwise failed the session for that. */
  lemma FinalizerReturns(run: seq<Label>, w: WorkerId)
    requires Legal(run) && w in After(run).procs && After(run).procs[w].Final? && After(run).procs[w].fpc.FinalReturned?
    ensures var p := After(run).procs[w];
      FinalEnd(run, w, p.sync, Heard(run, w), Misses(run, w), p.fpc.err)
  {
    AllTold(run, w);
  }

  /** So it tries again: with one to four misses and no failure it commits. */
  lemma FinalizerRetries(run: seq<Label>, w: WorkerId)
    requires Legal(run) && w in After(run).procs && After(run).procs[w].Final? && After(run).procs[w].fpc.FinalReturned?
    requires Smooth(Heard(run, w)) && 0 < Misses(run, w) < 5
    ensures var p := After(run).procs[w]; var heard := Heard(run, w);
      !p.fpc.err && HasCommitted(run, w, p.sync, heard)
  {
    FinalizerReturns(run, w);
    var p := After(run).procs[w];
    RetriesEnd(run, w, p.sync, Heard(run, w), Misses(run, w), p.fpc.err);
  }

  /** The delta it read is in the tree, and the session was made done. */
  ghost predicate HasCommitted(run: seq<Label>, w: WorkerId, s: SyncId, heard: seq<Reply>) {
    |heard| >= 2 && heard[1].Results? && Landed(run, w, s, heard[1].delta) && Ended(run, w, MakesDone(s))
  }

  lemma RetriesEnd(run: seq<Label>, w: WorkerId, s: SyncId, heard: seq<Reply>, misses: nat, err: bool)
    requires FinalEnd(run, w, s, heard, misses, err) && Smooth(heard) && 0 < misses < 5
    ensures !err && HasCommitted(run, w, s, heard)
  {
  }

  /** A batch delivery returns an error exactly on these replies. */
  lemma BatchReturns(run: seq<Label>, w: WorkerId)
    requires Legal(run) && w in After(run).procs && After(run).procs[w].Stream? && After(run).procs[w].pc.BatchReturned?
    ensures var p := After(run).procs[w]; p.pc.err <==> EndsInError(Heard(run, w), p.final)
    ensures 0 < |Heard(run, w)| <= 7
  {
    AllTold(run, w);
  }

  // ---------------------------------------------------------------------------
  // The outcome of a batch
  // ---------------------------------------------------------------------------

  /** A delivery found the reason, and marked everything in the row failed for it. */
  ghost predicate FailedFor(run: seq<Label>, k: Key, row: Row) {
    exists n: nat, w, reason ::
      && n <= |run| && Found(run[..n], w, k, reason)
      && row.failedFiles == (map p | p in row.files :: reason) && row.failedDeletes == row.deletes
  }

  /** A delivery that found the session updatable was told exactly these failures by the pipeline. */
  ghost predicate IndexedAs(run: seq<Label>, k: Key, row: Row) {
    exists n: nat, w ::
      && n <= |run| && WasUpdatable(run[..n], w, k)
      && Heard(run[..n], w) == [Fine, Fine, Stats(Indexed(row.failedFiles, row.failedDeletes))]
  }

  ghost predicate OutcomeTold(run: seq<Label>, k: Key, row: Row) {
    && (row.state.RowFailed? ==> FailedFor(run, k, row))
    && (row.state.Succeeded? ==> IndexedAs(run, k, row))
  }

  lemma OutcomeStays(run: seq<Label>, l: Label, k: Key, row: Row)
    requires OutcomeTold(run, k, row)
    ensures OutcomeTold(run + [l], k, row)
  {
    if row.state.RowFailed? {
      var n: nat, w, reason :|
        && n <= |run| && Found(run[..n], w, k, reason)
        && row.failedFiles == (map p | p in row.files :: reason) && row.failedDeletes == row.deletes;
      assert (run + [l])[..n] == run[..n];
    }
    if row.state.Succeeded? {
      var n: nat, w :|
        && n <= |run| && WasUpdatable(run[..n], w, k)
        && Heard(run[..n], w) == [Fine, Fine, Stats(Indexed(row.failedFiles, row.failedDeletes))];
      assert (run + [l])[..n] == run[..n];
    }
  }

  lemma RowMoves(st: State, l: Label, k: Key)
    requires k in NextRows(st, l) && !NextRows(st, l)[k].state.Pending?
    ensures
      || (k in st.rows && NextRows(st, l)[k] == st.rows[k])
      || (l.Step? && l.w in st.procs && st.procs[l.w].Stream? && st.procs[l.w].key == k && k in st.rows
          && (st.procs[l.w].pc.AtMarkFailed? || st.procs[l.w].pc.AtMarkSucceeded?)
          && NextRows(st, l)[k] == MarkedRow(st.rows[k], st.procs[l.w].pc))
  {
  }

  lemma MarkTold(front: seq<Label>, l: Label, k: Key, row: Row, w: WorkerId, pc: BatchPc, final: bool)
    requires BatchTold(front, w, k, final, pc, Heard(front, w)) && (pc.AtMarkFailed? || pc.AtMarkSucceeded?)
    ensures OutcomeTold(front + [l], k, MarkedRow(row, pc))
  {
    var n, marked := |front|, MarkedRow(row, pc);
    assert (front + [l])[..n] == front;
    match pc
    case AtMarkFailed(reason) =>
      assert Found((front + [l])[..n], w, k, reason);
      assert marked.failedFiles == (map p | p in marked.files :: reason);
    case AtMarkSucceeded(_, _) =>
      assert WasUpdatable((front + [l])[..n], w, k);
      assert Heard((front + [l])[..n], w) == [Fine, Fine, Stats(Indexed(marked.failedFiles, marked.failedDeletes))];
  }

  /** What became of a batch is what a delivery of it found: a row is failed, all of it, for a reason that
      was true when the delivery met it, and succeeded with exactly the failures the pipeline told. */
  lemma {:induction false} BatchOutcome(run: seq<Label>, k: Key)
    requires Legal(run) && k in After(run).rows
    ensures OutcomeTold(run, k, After(run).rows[k])
  {
    if run == [] {
      NoSteps();
    } else {
      var front, l := run[..|run| - 1], run[|run| - 1];
      LastStep(run);
      assert run == front + [l];
      if !After(run).rows[k].state.Pending? {
        var st := After(front);
        RowMoves(st, l, k);
        if k in st.rows && NextRows(st, l)[k] == st.rows[k] {
          BatchOutcome(front, k);
          OutcomeStays(front, l, k, st.rows[k]);
        } else {
          var p := st.procs[l.w];
          AllTold(front, l.w);
          MarkTold(front, l, k, st.rows[k], l.w, p.pc, p.final);
        }
      }
    }
  }

  // ---------------------------------------------------------------------------
  // Retries of the queue
  // ---------------------------------------------------------------------------

  /** The deliveries of the task that returned an error since it came to the queue. */
  ghost function Errors(run: seq<Label>, t: Task): nat {
    if run == [] then 0
    else
      var front, l := run[..|run| - 1], run[|run| - 1];
      var st := After(front);
      if t !in st.queue then 0
      else if l.Finish? && l.w in st.procs && TaskOf(st.procs[l.w]) == t && !ReturnedOk(st.procs[l.w])
        then Errors(front, t) + 1
      else Errors(front, t)
  }

  /** The queue delivers a task again after every error and counts them. */
  lemma {:induction false} ErrorsCounted(run: seq<Label>, t: Task)
    requires Legal(run) && t in After(run).queue
    ensures After(run).queue[t] == Errors(run, t)
  {
    if run == [] {
      NoSteps();
    } else {
      var front, l := run[..|run| - 1], run[|run| - 1];
      LastStep(run);
      if t in After(front).queue {
        ErrorsCounted(front, t);
      }
    }
  }

  /** A delivery is the last one exactly when three have returned an error before it started; an error of
      any other one leaves the task in the queue. */
  lemma LastDelivery(run: seq<Label>, w: WorkerId, t: Task)
    requires Legal(run) && Enabled(After(run), Start(w, t))
    ensures Next(After(run), Start(w, t)).procs[w].final <==> Errors(run, t) >= 3
  {
    ErrorsCounted(run, t);
  }

  lemma ErrorRequeues(st: State, w: WorkerId)
    requires Enabled(st, Finish(w)) && TaskOf(st.procs[w]) in st.queue
    ensures TaskOf(st.procs[w]) in Next(st, Finish(w)).queue <==> !ReturnedOk(st.procs[w]) && !st.procs[w].final
    ensures TaskOf(st.procs[w]) in Next(st, Finish(w)).archived <==>
      TaskOf(st.procs[w]) in st.archived || (!ReturnedOk(st.procs[w]) && st.procs[w].final)
  {
  }
}
