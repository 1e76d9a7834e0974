/** What a batch identifier stands for. When every identifier stands for one batch, a delivery holds
    the content of its row, and a succeeded row leaves out of its failed part only what the indexer
    processed. */
module Meanings {
  import opened Digests
  import opened MerkleTree
  import opened SyncState
  import opened SyncMachine
  import opened BatchRows

  type Meaning = Key -> Batch

  /** The label stores or admits under an identifier what it stands for. */
  ghost predicate Meant(m: Meaning, l: Label) {
    (l.SetContent? || l.Admit? ==> l.batch == m(l.key))
  }

  ghost predicate AllIndexed(
    m: Meaning, hist: History, k: Key, failedFiles: map<Path, string>, failedDeletes: set<Path>)
  {
    && (forall p | p in m(k).files && p !in failedFiles :: (k, p, m(k).files[p]) in hist.indexedFiles)
    && (forall p | p in m(k).deletes && p !in failedDeletes :: (k, p) in hist.indexedDeletes)
  }

  ghost predicate RowMeant(m: Meaning, k: Key, row: Row) {
    && row.files == m(k).files && row.deletes == m(k).deletes
    && row.failedFiles.Keys <= row.files.Keys && row.failedDeletes <= row.deletes
  }

  ghost predicate StampMeant(m: Meaning, hist: History, k: Key, row: Row) {
    && RowMeant(m, k, row)
    && (row.state.Succeeded? ==> AllIndexed(m, hist, k, row.failedFiles, row.failedDeletes))
    && (row.state.RowFailed? ==> row.failedFiles.Keys == row.files.Keys && row.failedDeletes == row.deletes)
  }

  /** What a delivery holds is what its identifier stands for. */
  ghost predicate PcMeant(m: Meaning, hist: History, k: Key, pc: BatchPc) {
    match pc
    case AtLoadSession(files, deletes) => files == m(k).files && deletes == m(k).deletes
    case AtIndex(files, deletes) => files == m(k).files && deletes == m(k).deletes
    case AtMarkSucceeded(ff, fd) => ff.Keys <= m(k).files.Keys && fd <= m(k).deletes && AllIndexed(m, hist, k, ff, fd)
    case _ => true
  }

  ghost predicate ContentMeant(m: Meaning, k: Key, c: Content) {
    c.Intact? ==> c.files == m(k).files && c.deletes == m(k).deletes
  }

  ghost predicate RedisMeant(m: Meaning, redis: map<Key, Content>) {
    forall k | k in redis :: ContentMeant(m, k, redis[k])
  }

  ghost predicate RowsMeant(m: Meaning, rows: map<Key, Row>) {
    forall k | k in rows :: RowMeant(m, k, rows[k])
  }

  ghost predicate StampsMeant(m: Meaning, hist: History) {
    forall k | k in hist.stamped :: StampMeant(m, hist, k, hist.stamped[k])
  }

  ghost predicate PcsMeant(m: Meaning, hist: History, procs: map<WorkerId, Proc>) {
    forall w | w in procs && procs[w].Stream? :: PcMeant(m, hist, procs[w].key, procs[w].pc)
  }

  ghost predicate MeaningOk(m: Meaning, st: State) {
    RedisMeant(m, st.redis) && RowsMeant(m, st.rows) && StampsMeant(m, st.hist) && PcsMeant(m, st.hist, st.procs)
  }

  lemma RedisPreserved(m: Meaning, st: State, l: Label)
    requires RedisMeant(m, st.redis) && Meant(m, l)
    ensures RedisMeant(m, NextRedis(st, l))
  {
  }

  lemma RowsMeantPreserved(m: Meaning, st: State, l: Label)
    requires RowsMeant(m, st.rows) && PcsMeant(m, st.hist, st.procs) && Meant(m, l)
    ensures RowsMeant(m, NextRows(st, l))
  {
  }

  /** The row a delivery writes. */
  lemma MarkedMeant(m: Meaning, st: State, p: Proc, reply: Reply)
    requires RowsMeant(m, st.rows) && MarksRow(st, p, reply) && PcMeant(m, st.hist, p.key, p.pc)
    ensures StampMeant(m, st.hist, p.key, MarkedRow(st.rows[p.key], p.pc))
  {
    assert RowMeant(m, p.key, st.rows[p.key]);
  }

  lemma StampsMeantPreserved(m: Meaning, st: State, l: Label)
    requires MeaningOk(m, st) && BatchesOk(st)
    ensures StampsMeant(m, NextHist(st, l))
  {
    var hist := NextHist(st, l);
    HistoryPreserved(st, l);
    forall k | k in hist.stamped ensures StampMeant(m, hist, k, hist.stamped[k]) {
      if k in st.hist.stamped {
        assert StampMeant(m, st.hist, k, st.hist.stamped[k]);
      } else {
        var p := st.procs[l.w];
        assert PcMeant(m, st.hist, p.key, p.pc);
        MarkedMeant(m, st, p, l.reply);
      }
    }
  }

  lemma PcPreserved(m: Meaning, st: State, w: WorkerId, reply: Reply)
    requires RedisMeant(m, st.redis)
    requires w in st.procs && st.procs[w].Stream? && PcMeant(m, st.hist, st.procs[w].key, st.procs[w].pc)
    requires BatchReply(st.procs[w].pc, reply)
    ensures PcMeant(m, NextHist(st, Step(w, reply)), st.procs[w].key, NextBatchPc(st, st.procs[w], reply))
  {
    var p := st.procs[w];
    if p.pc.AtGet? && p.key in st.redis {
      assert ContentMeant(m, p.key, st.redis[p.key]);
    }
  }

  lemma PcsPreserved(m: Meaning, st: State, l: Label)
    requires MeaningOk(m, st) && BatchesOk(st)
    requires l.Step? ==> l.w in st.procs && (st.procs[l.w].Stream? ==> BatchReply(st.procs[l.w].pc, l.reply))
    ensures PcsMeant(m, NextHist(st, l), NextProcs(st, l))
  {
    var hist, procs := NextHist(st, l), NextProcs(st, l);
    HistoryPreserved(st, l);
    forall w | w in procs && procs[w].Stream? ensures PcMeant(m, hist, procs[w].key, procs[w].pc) {
      if l.Step? && l.w == w {
        PcPreserved(m, st, w, l.reply);
      } else if w in st.procs && procs[w] == st.procs[w] {
        assert PcMeant(m, st.hist, procs[w].key, procs[w].pc);
      }
    }
  }

  lemma MeaningPreserved(m: Meaning, st: State, l: Label)
    requires MeaningOk(m, st) && BatchesOk(st) && Enabled(st, l) && Meant(m, l)
    ensures MeaningOk(m, Next(st, l))
  {
    assert l.Step? ==> CanStep(st, l.w, l.reply);
    RedisPreserved(m, st, l);
    RowsMeantPreserved(m, st, l);
    StampsMeantPreserved(m, st, l);
    PcsPreserved(m, st, l);
  }
}
