/**
 * The import pipeline of the dashboard (src/app/dashboard/page.tsx):
 * `processFileMutation` normalises the chosen archive and hands the
 * conversations to `saveConversationsToFirestore`, which classifies them one
 * at a time, stages a labelled copy of each in a write batch, commits every
 * ten staged writes and the remainder at the end, and reports a progress
 * percentage before each conversation.
 *
 * The run is specified in closed form by `Plan`: how many conversations were
 * sent to the classifier, how many batches were committed, and how the run
 * ended. The method `Dashboard.SaveConversationsToFirestore` is proved to
 * leave exactly the state `Plan` describes, and the lemmas below prove what
 * that state means (commit sizes, progress values, what is stored on success
 * and on failure).
 */
module BatchWriter {
  import opened Types
  import opened Store
  import opened Classifier
  import ArchiveParser

  /** The most writes one batch carries before it is committed. */
  const BatchSize: nat := 10

  /** The hosted batch commit, by attempt number: `None` when it succeeds, the thrown error otherwise. */
  type Commit = nat -> Option<Thrown>

  /** How an import ends. */
  datatype Outcome = Done | Failed(error: Thrown)

  function Min(a: int, b: int): int {
    if a <= b then a else b
  }

  /** The number of batches `n` writes need: `ceil(n / 10)`. */
  function BatchCount(n: nat): (c: nat)
    ensures BatchSize * c >= n && BatchSize * c < n + BatchSize
  {
    (n + BatchSize - 1) / BatchSize
  }

  // ---------------------------------------------------------------------------
  // Classification and the write staged for one conversation

  /** The one-element input `tagData` receives for a conversation: its title and id. */
  function TagRequest(c: Conversation): (r: seq<Snippet>)
    ensures |r| == 1 && r[0].title == c.title && r[0].conversationId == c.conversationId
  {
    [Snippet(c.title, c.conversationId)]
  }

  /** The inputs `tagData` received for a run of conversations, one request each. */
  function TagRequests(cs: seq<Conversation>): (r: seq<seq<Snippet>>)
    ensures |r| == |cs|
  {
    seq(|cs|, i requires 0 <= i < |cs| => TagRequest(cs[i]))
  }

  /** `tagRes.classifications.at(0)?.prediction`: missing when the answer is empty or its first entry has none. */
  function FirstPrediction(cls: seq<Classification>): (p: Option<string>)
    ensures p.Some? <==> |cls| > 0 && cls[0].prediction.Some?
    ensures p.Some? ==> p == cls[0].prediction
  {
    if |cls| == 0 then None else cls[0].prediction
  }

  predicate Classified(c: Conversation, classify: Classify) {
    classify(TagRequest(c)).Returned?
  }

  /**
   * The write staged for `c`: its document in the user's collection, holding
   * `c` with the label the classifier returned. (For a conversation whose
   * classification throws the label is absent; such a write is never staged.)
   * The write goes to the conversation's id in the user's collection and
   * changes nothing but the label.
   */
  function PlannedWrite(uid: string, c: Conversation, classify: Classify): (w: Write)
    ensures w.ref == DocRef("conversations/" + uid + "/userConversations", c.conversationId)
    ensures w.doc.(category := c.category) == c
    ensures Classified(c, classify) ==>
      w.doc.category == FirstPrediction(classify([Snippet(c.title, c.conversationId)]).value)
    ensures !Classified(c, classify) ==> w.doc.category.None?
  {
    var answer := classify(TagRequest(c));
    Write(ConversationRef(uid, c.conversationId),
          c.(category := if answer.Returned? then FirstPrediction(answer.value) else None))
  }

  function PlannedWrites(uid: string, cs: seq<Conversation>, classify: Classify): (ws: seq<Write>)
    ensures |ws| == |cs|
  {
    seq(|cs|, i requires 0 <= i < |cs| => PlannedWrite(uid, cs[i], classify))
  }

  // ---------------------------------------------------------------------------
  // Batches

  /** The writes cut into consecutive batches of `BatchSize`, the last one possibly shorter. */
  function Chunks(ws: seq<Write>): (bs: seq<seq<Write>>)
    ensures |bs| == BatchCount(|ws|)
    decreases |ws|
  {
    if ws == [] then []
    else if |ws| <= BatchSize then [ws]
    else [ws[..BatchSize]] + Chunks(ws[BatchSize..])
  }

  /** Batch `j` holds writes `10 j` up to `10 j + 10` (or the end). */
  lemma {:induction false} ChunkAt(ws: seq<Write>, j: nat)
    requires j < BatchCount(|ws|)
    ensures |Chunks(ws)| == BatchCount(|ws|)
    ensures Chunks(ws)[j] == ws[BatchSize * j .. Min(BatchSize * j + BatchSize, |ws|)]
    decreases |ws|
  {
    if |ws| > BatchSize && j > 0 {
      var rest := ws[BatchSize..];
      ChunkAt(rest, j - 1);
      assert Chunks(ws)[j] == Chunks(rest)[j - 1];
      var lo := BatchSize * (j - 1);
      var hi := Min(lo + BatchSize, |rest|);
      assert BatchSize * j == lo + BatchSize;
      assert Min(BatchSize * j + BatchSize, |ws|) == hi + BatchSize;
      assert rest[lo..hi] == ws[lo + BatchSize .. hi + BatchSize];
    }
  }

  /** The batches hold every write exactly once, in order. */
  lemma {:induction false} ChunksFlatten(ws: seq<Write>)
    ensures Flatten(Chunks(ws)) == ws
    decreases |ws|
  {
    if |ws| > BatchSize {
      ChunksFlatten(ws[BatchSize..]);
      assert ws == ws[..BatchSize] + ws[BatchSize..];
    } else if ws != [] {
      assert Flatten(Chunks(ws)) == ws + Flatten([]);
    }
  }

  /** The first `j` batches hold exactly the first `10 j` writes. */
  lemma {:induction false} ChunksPrefix(ws: seq<Write>, j: nat)
    requires BatchSize * j <= |ws|
    ensures j <= |Chunks(ws)|
    ensures Flatten(Chunks(ws)[..j]) == ws[..BatchSize * j]
    decreases j
  {
    if j > 0 {
      var rest := ws[BatchSize..];
      ChunksPrefix(rest, j - 1);
      if |ws| == BatchSize {
        assert ws[..BatchSize] == ws && rest == [];
      }
      assert Chunks(ws) == [ws[..BatchSize]] + Chunks(rest);
      assert Chunks(ws)[..j] == [ws[..BatchSize]] + Chunks(rest)[..j - 1];
      assert ws[..BatchSize * j] == ws[..BatchSize] + rest[..BatchSize * (j - 1)];
    }
  }

  /** Commit sizes: `ceil(n / 10)` batches, each of 1 to 10 writes, all but the last exactly 10. */
  lemma ChunkSizes(ws: seq<Write>)
    ensures |Chunks(ws)| == BatchCount(|ws|)
    ensures forall j | 0 <= j < |Chunks(ws)| :: 1 <= |Chunks(ws)[j]| <= BatchSize
    ensures forall j | 0 <= j < |Chunks(ws)| - 1 :: |Chunks(ws)[j]| == BatchSize
    ensures |ws| > 0 ==> |Chunks(ws)[|Chunks(ws)| - 1]| == |ws| - BatchSize * (|Chunks(ws)| - 1)
  {
    forall j | 0 <= j < |Chunks(ws)|
      ensures 1 <= |Chunks(ws)[j]| <= BatchSize
      ensures j < |Chunks(ws)| - 1 ==> |Chunks(ws)[j]| == BatchSize
      ensures j == |Chunks(ws)| - 1 ==> |Chunks(ws)[j]| == |ws| - BatchSize * j
    {
      ChunkAt(ws, j);
    }
  }

  /** 23 conversations are committed as batches of 10, 10 and 3. */
  lemma TwentyThreeWrites(ws: seq<Write>)
    requires |ws| == 23
    ensures |Chunks(ws)| == 3
    ensures |Chunks(ws)[0]| == 10 && |Chunks(ws)[1]| == 10 && |Chunks(ws)[2]| == 3
  {
    ChunkSizes(ws);
  }

  // ---------------------------------------------------------------------------
  // Progress

  /**
   * `Math.round(i / n * 100)` on exact arithmetic: the integer nearest to
   * `100 i / n`, halves rounded up.
   */
  function Round(i: nat, n: nat): (r: int)
    requires n > 0
    ensures n * (2 * r - 1) <= 200 * i < n * (2 * r + 1)
  {
    (200 * i + n) / (2 * n)
  }

  /** The values reported before each of the first `k` of `n` conversations. */
  function Rounds(k: nat, n: nat): (r: seq<int>)
    requires k == 0 || n > 0
    ensures |r| == k
  {
    seq(k, i requires 0 <= i < k => Round(i, n))
  }

  lemma {:induction false} ScaleMono(n: nat, x: int, y: int)
    requires x <= y
    ensures n * x <= n * y
  {
    if n > 0 {
      ScaleMono(n - 1, x, y);
      assert n * x == (n - 1) * x + x && n * y == (n - 1) * y + y;
    }
  }

  /** Cancelling a positive factor on both sides of a strict inequality. */
  lemma ScaleLess(n: nat, x: int, y: int)
    requires n * x < n * y
    ensures x < y
  {
    if x >= y {
      ScaleMono(n, y, x);
    }
  }

  /** Progress starts at 0, never decreases and never exceeds 100. */
  lemma RoundBounds(i: nat, j: nat, n: nat)
    requires 0 < n && i <= j <= n
    ensures 0 <= Round(i, n) <= Round(j, n) <= 100
    ensures Round(0, n) == 0 && Round(n, n) == 100
  {
    var a, b := Round(i, n), Round(j, n);
    ScaleLess(n, -1, 2 * a + 1);
    ScaleLess(n, 2 * a - 1, 2 * b + 1);
    ScaleLess(n, 2 * b - 1, 201);
    var z := Round(0, n);
    ScaleLess(n, 0, 2 * z + 1);
    ScaleLess(n, 2 * z - 1, 1);
    var h := Round(n, n);
    ScaleLess(n, 2 * h - 1, 201);
    ScaleLess(n, 199, 2 * h + 1);
  }

  /**
   * Before the last conversations of a large import the rounded value can
   * already read 100: the value for item `i` of `n` is below 100 exactly when
   * `200 (n - i) > n`. For `n >= 200` the last item is announced at 100.
   */
  lemma RoundBelowHundred(i: nat, n: nat)
    requires 0 < n && i <= n
    ensures Round(i, n) < 100 <==> 200 * (n - i) > n
  {
    var r := Round(i, n);
    if 200 * (n - i) > n {
      ScaleLess(n, 2 * r - 1, 199);
    } else {
      ScaleLess(n, 199, 2 * r + 1);
    }
  }

  /** 199 of 200 conversations are reported as 100 before the last one is classified. */
  lemma EarlyHundred()
    ensures Round(199, 200) == 100
  {
  }

  // ---------------------------------------------------------------------------
  // The closed-form schedule of a run

  /** The first conversation whose classification throws, or `|cs|`. */
  function FirstUnclassified(cs: seq<Conversation>, classify: Classify): (f: nat)
    ensures f <= |cs|
    ensures forall i | 0 <= i < f :: Classified(cs[i], classify)
    ensures f < |cs| ==> !Classified(cs[f], classify)
  {
    if cs == [] || !Classified(cs[0], classify) then 0
    else 1 + FirstUnclassified(cs[1..], classify)
  }

  /** The first of the commit attempts `0 .. m - 1` that throws, or `m`. */
  function FirstFailedCommit(commit: Commit, m: nat): (j: nat)
    ensures j <= m
    ensures forall k | 0 <= k < j :: commit(k).None?
    ensures j < m ==> commit(j).Some?
  {
    if m == 0 then 0
    else
      var j := FirstFailedCommit(commit, m - 1);
      if j < m - 1 || commit(m - 1).Some? then j else m
  }

  /**
   * What a run does: `calls` conversations are sent to the classifier (and
   * announced by a progress value), the first `committed` batches are
   * committed, and the run ends with `outcome`.
   */
  datatype Schedule = Schedule(calls: nat, committed: nat, outcome: Outcome)

  function Plan(cs: seq<Conversation>, classify: Classify, commit: Commit): (s: Schedule)
    ensures s.calls <= |cs| && s.committed <= BatchCount(|cs|)
    ensures s.outcome.Done? ==> s.calls == |cs| && s.committed == BatchCount(|cs|)
    // a failed run has sent between one and ten conversations to the classifier since its last successful commit
    ensures s.outcome.Failed? ==> BatchSize * s.committed < s.calls <= BatchSize * s.committed + BatchSize
  {
    var n := |cs|;
    var f := FirstUnclassified(cs, classify);
    var attempted := if f < n then f / BatchSize else BatchCount(n);
    var j := FirstFailedCommit(commit, attempted);
    if j < attempted then Schedule(Min(BatchSize * j + BatchSize, n), j, Failed(commit(j).value))
    else if f < n then Schedule(f + 1, attempted, Failed(classify(TagRequest(cs[f])).error))
    else Schedule(n, attempted, Done)
  }

  /** A run succeeds exactly when every classification and every commit does; it then stores every write. */
  lemma SuccessfulImport(cs: seq<Conversation>, uid: string, classify: Classify, commit: Commit, db: Db)
    ensures Plan(cs, classify, commit).outcome.Done? <==>
      && (forall i | 0 <= i < |cs| :: Classified(cs[i], classify))
      && (forall k | 0 <= k < BatchCount(|cs|) :: commit(k).None?)
    ensures Plan(cs, classify, commit).outcome.Done? ==>
      var bs := Chunks(PlannedWrites(uid, cs, classify));
      && Plan(cs, classify, commit).committed == |bs|
      && ApplyBatches(db, bs) == ApplyWrites(db, PlannedWrites(uid, cs, classify))
  {
    var ws := PlannedWrites(uid, cs, classify);
    ChunksFlatten(ws);
    ApplyBatchesFlatten(db, Chunks(ws));
    var f := FirstUnclassified(cs, classify);
    if (forall i | 0 <= i < |cs| :: Classified(cs[i], classify)) {
      assert f == |cs|;
    }
  }

  /**
   * After a successful run each conversation's document holds that
   * conversation with its label, provided the conversation ids are distinct.
   */
  lemma ImportedDocuments(cs: seq<Conversation>, uid: string, classify: Classify, commit: Commit, db: Db, i: nat)
    requires Plan(cs, classify, commit).outcome.Done?
    requires forall a, b | 0 <= a < b < |cs| :: cs[a].conversationId != cs[b].conversationId
    requires i < |cs|
    ensures var stored := ApplyBatches(db, Chunks(PlannedWrites(uid, cs, classify)));
      && ConversationRef(uid, cs[i].conversationId) in stored
      && stored[ConversationRef(uid, cs[i].conversationId)] == PlannedWrite(uid, cs[i], classify).doc
      && stored[ConversationRef(uid, cs[i].conversationId)].(category := cs[i].category) == cs[i]
  {
    var ws := PlannedWrites(uid, cs, classify);
    SuccessfulImport(cs, uid, classify, commit, db);
    ApplyWritesLast(db, ws, i);
  }

  /**
   * A failed run leaves exactly the first `10 committed` writes in the store;
   * the writes staged after the last commit are never committed.
   */
  lemma FailedImport(cs: seq<Conversation>, uid: string, classify: Classify, commit: Commit, db: Db)
    requires Plan(cs, classify, commit).outcome.Failed?
    ensures var s, ws := Plan(cs, classify, commit), PlannedWrites(uid, cs, classify);
      && s.committed <= |Chunks(ws)|
      && ApplyBatches(db, Chunks(ws)[..s.committed]) == ApplyWrites(db, ws[..BatchSize * s.committed])
      && BatchSize * s.committed < s.calls
  {
    var s, ws := Plan(cs, classify, commit), PlannedWrites(uid, cs, classify);
    ChunksPrefix(ws, s.committed);
    ApplyBatchesFlatten(db, Chunks(ws)[..s.committed]);
  }

  /** An empty archive classifies nothing, commits nothing, succeeds and reports 100 at once. */
  lemma EmptyImport(s0: Snapshot, uid: string, classify: Classify, commit: Commit)
    ensures Plan([], classify, commit) == Schedule(0, 0, Done)
    ensures Expected(s0, [], uid, classify, 0, 0, true) ==
      s0.(progress := 100, progressLog := s0.progressLog + [100])
  {
    assert Rounds(0, 0) == [] && TagRequests([]) == [];
  }

  /** The schedule of a run stopped by the classifier at conversation `i`. */
  lemma PlanAtTagFailure(cs: seq<Conversation>, classify: Classify, commit: Commit, i: nat, j: nat)
    requires i < |cs| && !Classified(cs[i], classify)
    requires forall k | 0 <= k < i :: Classified(cs[k], classify)
    requires BatchSize * j <= i < BatchSize * j + BatchSize
    requires forall k | 0 <= k < j :: commit(k).None?
    ensures Plan(cs, classify, commit) ==
      Schedule(i + 1, j, Failed(classify(TagRequest(cs[i])).error))
  {
    assert FirstUnclassified(cs, classify) == i;
    assert i / BatchSize == j;
  }

  /** The schedule of a run stopped by commit attempt `j`, made once its batch was full or the archive ended. */
  lemma PlanAtCommitFailure(cs: seq<Conversation>, classify: Classify, commit: Commit, j: nat, staged: nat)
    requires BatchSize * j < staged <= |cs|
    requires staged == BatchSize * j + BatchSize || (staged == |cs| && staged < BatchSize * j + BatchSize)
    requires forall k | 0 <= k < staged :: Classified(cs[k], classify)
    requires forall k | 0 <= k < j :: commit(k).None?
    requires commit(j).Some?
    ensures Plan(cs, classify, commit) == Schedule(staged, j, Failed(commit(j).value))
  {
    var n := |cs|;
    var f := FirstUnclassified(cs, classify);
    assert f >= staged;
    var attempted := if f < n then f / BatchSize else BatchCount(n);
    assert j < attempted;
    assert FirstFailedCommit(commit, attempted) == j;
  }

  /** The schedule of a run in which nothing fails. */
  lemma PlanDone(cs: seq<Conversation>, classify: Classify, commit: Commit)
    requires forall k | 0 <= k < |cs| :: Classified(cs[k], classify)
    requires forall k | 0 <= k < BatchCount(|cs|) :: commit(k).None?
    ensures Plan(cs, classify, commit) == Schedule(|cs|, BatchCount(|cs|), Done)
  {
    assert FirstUnclassified(cs, classify) == |cs|;
    assert FirstFailedCommit(commit, BatchCount(|cs|)) == BatchCount(|cs|);
  }

  // ---------------------------------------------------------------------------
  // The state a run leaves behind

  /**
   * The parts of the dashboard's state an import changes: the progress value,
   * the conversation documents, and the record of every value reported, every
   * classifier input and every committed batch.
   */
  datatype Snapshot = Snapshot(
    progress: int,
    docs: Db,
    progressLog: seq<int>,
    tagRequests: seq<seq<Snippet>>,
    commits: seq<seq<Write>>)

  /**
   * The state after the first `i` conversations were announced and sent to the
   * classifier and the first `j` batches were committed, starting from `s0`;
   * `done` adds the closing report of 100.
   */
  function Expected(s0: Snapshot, cs: seq<Conversation>, uid: string, classify: Classify, i: nat, j: nat, done: bool): (s: Snapshot)
    requires i <= |cs| && j <= BatchCount(|cs|)
    ensures |s.progressLog| == |s0.progressLog| + i + (if done then 1 else 0)
    ensures |s.commits| == |s0.commits| + j
  {
    var bs := Chunks(PlannedWrites(uid, cs, classify));
    Snapshot(
      if done then 100 else if i > 0 then Round(i - 1, |cs|) else s0.progress,
      ApplyBatches(s0.docs, bs[..j]),
      s0.progressLog + Rounds(i, |cs|) + (if done then [100] else []),
      s0.tagRequests + TagRequests(cs[..i]),
      s0.commits + bs[..j])
  }

  /** Announcing conversation `i` and sending it to the classifier. */
  lemma ExpectedStage(s0: Snapshot, cs: seq<Conversation>, uid: string, classify: Classify, i: nat, j: nat)
    requires i < |cs| && j <= BatchCount(|cs|)
    ensures var s := Expected(s0, cs, uid, classify, i, j, false);
      Expected(s0, cs, uid, classify, i + 1, j, false) ==
        s.(progress := Round(i, |cs|),
           progressLog := s.progressLog + [Round(i, |cs|)],
           tagRequests := s.tagRequests + [TagRequest(cs[i])])
  {
    assert cs[..i + 1] == cs[..i] + [cs[i]];
    assert Rounds(i + 1, |cs|) == Rounds(i, |cs|) + [Round(i, |cs|)];
    assert TagRequests(cs[..i + 1]) == TagRequests(cs[..i]) + [TagRequest(cs[i])];
  }

  /** Committing batch `j`, which holds writes `10 j` up to `10 j + 10` or the end. */
  lemma ExpectedCommit(s0: Snapshot, cs: seq<Conversation>, uid: string, classify: Classify, i: nat, j: nat, batch: seq<Write>)
    requires i <= |cs| && BatchSize * j < i && i <= BatchSize * j + BatchSize
    requires batch == PlannedWrites(uid, cs, classify)[BatchSize * j .. Min(BatchSize * j + BatchSize, |cs|)]
    ensures var s := Expected(s0, cs, uid, classify, i, j, false);
      Expected(s0, cs, uid, classify, i, j + 1, false) ==
        s.(docs := ApplyWrites(s.docs, batch), commits := s.commits + [batch])
  {
    var ws := PlannedWrites(uid, cs, classify);
    var bs := Chunks(ws);
    ChunkAt(ws, j);
    assert bs[..j + 1] == bs[..j] + [bs[j]];
    ApplyBatchesSnoc(s0.docs, bs[..j], bs[j]);
  }

  /** The closing report of 100. */
  lemma ExpectedDone(s0: Snapshot, cs: seq<Conversation>, uid: string, classify: Classify, j: nat)
    requires j <= BatchCount(|cs|)
    ensures var s := Expected(s0, cs, uid, classify, |cs|, j, false);
      Expected(s0, cs, uid, classify, |cs|, j, true) ==
        s.(progress := 100, progressLog := s.progressLog + [100])
  {
  }

  /** Staging write `i` extends the batch under construction by that write. */
  lemma StageWrite(cs: seq<Conversation>, uid: string, classify: Classify, lo: nat, i: nat)
    requires lo <= i < |cs| && Classified(cs[i], classify)
    ensures var ws := PlannedWrites(uid, cs, classify);
      ws[lo..i + 1] == ws[lo..i] +
        [Write(ConversationRef(uid, cs[i].conversationId),
               cs[i].(category := FirstPrediction(classify(TagRequest(cs[i])).value)))]
  {
  }

  // ---------------------------------------------------------------------------
  // The dashboard's state and the two operations

  /** `file` after `file.text()` and `JSON.parse`: the parsed export array, or what the parse threw. */
  datatype File = File(parsed: Attempt<seq<ArchiveParser.RawConversation>>)

  const NoFileMessage: string := "No file selected"

  /**
   * The state the import touches: the component's `total` and `progress`, and
   * the conversation documents of the database. The ghost fields record what
   * the run did: every value passed to `setProgress`, every input passed to
   * `tagData` and every batch committed.
   */
  class Dashboard {
    var total: int
    var progress: int
    var docs: Db
    ghost var progressLog: seq<int>
    ghost var tagRequests: seq<seq<Snippet>>
    ghost var commits: seq<seq<Write>>

    constructor (docs: Db)
      ensures this.docs == docs && total == 0 && progress == 0
      ensures progressLog == [] && tagRequests == [] && commits == []
    {
      this.docs := docs;
      total, progress := 0, 0;
      progressLog, tagRequests, commits := [], [], [];
    }

    ghost function Snap(): Snapshot
      reads this
    {
      Snapshot(progress, docs, progressLog, tagRequests, commits)
    }

    /**
     * Where the loop of `saveConversationsToFirestore` stands before
     * conversation `i`: every earlier conversation was classified, batches
     * `0 .. totalBatches - 1` were committed, `batch` holds the writes staged
     * since, and the state is the one `Expected` describes.
     */
    ghost predicate Progressed(cs: seq<Conversation>, uid: string, classify: Classify, commit: Commit, s0: Snapshot,
                               i: nat, totalBatches: nat, batchCounter: nat, batch: seq<Write>)
      reads this
    {
      && i <= |cs| && total == |cs|
      && i == BatchSize * totalBatches + batchCounter && batchCounter < BatchSize
      && (forall k | 0 <= k < i :: Classified(cs[k], classify))
      && (forall k | 0 <= k < totalBatches :: commit(k).None?)
      && batch == PlannedWrites(uid, cs, classify)[BatchSize * totalBatches .. i]
      && Snap() == Expected(s0, cs, uid, classify, i, totalBatches, false)
    }

    /** The state a whole run leaves behind, starting from `s0`, as `Plan` describes it. */
    ghost predicate Finished(cs: seq<Conversation>, uid: string, classify: Classify, commit: Commit, s0: Snapshot, outcome: Outcome)
      reads this
    {
      var s := Plan(cs, classify, commit);
      && outcome == s.outcome
      && Snap() == Expected(s0, cs, uid, classify, s.calls, s.committed, s.outcome.Done?)
    }

    /** The state after a run of `saveConversationsToFirestore` over `cs`. */
    twostate predicate Saved(cs: seq<Conversation>, uid: Option<string>, classify: Classify, commit: Commit, outcome: Outcome)
      reads this
    {
      Finished(cs, UidText(uid), classify, commit, old(Snap()), outcome)
    }

    /** `setProgress(p)`. */
    method SetProgress(p: int)
      modifies this
      ensures Snap() == old(Snap()).(progress := p, progressLog := old(progressLog) + [p])
      ensures total == old(total)
    {
      progress := p;
      progressLog := progressLog + [p];
    }

    /** `batch.commit()`, attempt number `attempt`: either every staged write takes effect, or none and the error is thrown. */
    method CommitBatch(batch: seq<Write>, commit: Commit, attempt: nat) returns (error: Option<Thrown>)
      modifies this
      ensures error == commit(attempt)
      ensures error.None? ==>
        Snap() == old(Snap()).(docs := ApplyWrites(old(docs), batch), commits := old(commits) + [batch])
      ensures error.Some? ==> Snap() == old(Snap())
      ensures total == old(total)
    {
      error := commit(attempt);
      if error.None? {
        docs := ApplyWrites(docs, batch);
        commits := commits + [batch];
      }
    }

    /**
     * The start of the loop body for conversation `i`: report the progress so
     * far, then send the conversation's title and id to the classifier.
     */
    method ClassifyNext(cs: seq<Conversation>, uid: string, classify: Classify, commit: Commit, i: nat,
                        batch: seq<Write>, batchCounter: nat, totalBatches: nat, ghost s0: Snapshot)
      returns (tagRes: Attempt<seq<Classification>>)
      requires i < |cs| && Progressed(cs, uid, classify, commit, s0, i, totalBatches, batchCounter, batch)
      modifies this
      ensures total == old(total)
      ensures tagRes == classify(TagRequest(cs[i]))
      ensures Snap() == Expected(s0, cs, uid, classify, i + 1, totalBatches, false)
      ensures tagRes.Raised? ==> Finished(cs, uid, classify, commit, s0, Failed(tagRes.error))
    {
      ExpectedStage(s0, cs, uid, classify, i, totalBatches);
      // the value counts the conversations handled so far, not the current one
      SetProgress(Round(totalBatches * BatchSize + batchCounter, total));
      tagRes := TagData(TagRequest(cs[i]), classify);
      tagRequests := tagRequests + [TagRequest(cs[i])];
      if tagRes.Raised? {
        PlanAtTagFailure(cs, classify, commit, i, totalBatches);
      }
    }

    /**
     * `await batch.commit()` for batch number `totalBatches`, which holds the
     * writes of conversations `10 totalBatches .. staged - 1`: a full batch, or
     * the remainder once every conversation is staged.
     */
    method CommitStaged(cs: seq<Conversation>, uid: string, classify: Classify, commit: Commit, staged: nat,
                        batch: seq<Write>, totalBatches: nat, ghost s0: Snapshot)
      returns (failure: Option<Thrown>)
      requires BatchSize * totalBatches < staged <= |cs|
      requires staged == BatchSize * totalBatches + BatchSize || (staged == |cs| && staged < BatchSize * totalBatches + BatchSize)
      requires forall k | 0 <= k < staged :: Classified(cs[k], classify)
      requires forall k | 0 <= k < totalBatches :: commit(k).None?
      requires batch == PlannedWrites(uid, cs, classify)[BatchSize * totalBatches .. staged]
      requires Snap() == Expected(s0, cs, uid, classify, staged, totalBatches, false)
      modifies this
      ensures total == old(total)
      ensures failure == commit(totalBatches)
      ensures failure.None? ==> Snap() == Expected(s0, cs, uid, classify, staged, totalBatches + 1, false)
      ensures failure.Some? ==> Finished(cs, uid, classify, commit, s0, Failed(failure.value))
    {
      ExpectedCommit(s0, cs, uid, classify, staged, totalBatches, batch);
      failure := CommitBatch(batch, commit, totalBatches);
      if failure.Some? {
        PlanAtCommitFailure(cs, classify, commit, totalBatches, staged);
      }
    }

    /**
     * The rest of the loop body once conversation `i` is classified: stage its
     * labelled write and, when the batch holds ten writes, commit it and start
     * a new one.
     */
    method StageNext(cs: seq<Conversation>, uid: string, classify: Classify, commit: Commit, i: nat,
                     tagRes: Attempt<seq<Classification>>,
                     batch: seq<Write>, batchCounter: nat, totalBatches: nat, ghost s0: Snapshot)
      returns (batch': seq<Write>, batchCounter': nat, totalBatches': nat, failure: Option<Thrown>)
      requires i < |cs| && total == |cs| && tagRes == classify(TagRequest(cs[i])) && tagRes.Returned?
      requires i == BatchSize * totalBatches + batchCounter && batchCounter < BatchSize
      requires forall k | 0 <= k < i :: Classified(cs[k], classify)
      requires forall k | 0 <= k < totalBatches :: commit(k).None?
      requires batch == PlannedWrites(uid, cs, classify)[BatchSize * totalBatches .. i]
      requires Snap() == Expected(s0, cs, uid, classify, i + 1, totalBatches, false)
      modifies this
      ensures total == old(total)
      ensures failure.None? ==> Progressed(cs, uid, classify, commit, s0, i + 1, totalBatches', batchCounter', batch')
      ensures failure.Some? ==> Finished(cs, uid, classify, commit, s0, Failed(failure.value))
    {
      var conversation := cs[i];
      var conversationRef := ConversationRef(uid, conversation.conversationId);
      StageWrite(cs, uid, classify, BatchSize * totalBatches, i);
      batch' := batch + [Write(conversationRef, conversation.(category := FirstPrediction(tagRes.value)))];
      batchCounter' := batchCounter + 1;
      totalBatches' := totalBatches;
      failure := None;
      if batchCounter' == BatchSize {
        failure := CommitStaged(cs, uid, classify, commit, i + 1, batch', totalBatches, s0);
        if failure.None? {
          totalBatches' := totalBatches + 1;
          batch' := [];
          batchCounter' := 0;
        }
      }
    }

    /** One pass of the loop of `saveConversationsToFirestore`, for conversation `i`. */
    method ImportNext(cs: seq<Conversation>, uid: string, classify: Classify, commit: Commit, i: nat,
                      batch: seq<Write>, batchCounter: nat, totalBatches: nat, ghost s0: Snapshot)
      returns (batch': seq<Write>, batchCounter': nat, totalBatches': nat, failure: Option<Thrown>)
      requires i < |cs| && Progressed(cs, uid, classify, commit, s0, i, totalBatches, batchCounter, batch)
      modifies this
      ensures total == old(total)
      ensures failure.None? ==> Progressed(cs, uid, classify, commit, s0, i + 1, totalBatches', batchCounter', batch')
      ensures failure.Some? ==> Finished(cs, uid, classify, commit, s0, Failed(failure.value))
    {
      var tagRes := ClassifyNext(cs, uid, classify, commit, i, batch, batchCounter, totalBatches, s0);
      if tagRes.Raised? {
        return batch, batchCounter, totalBatches, Some(tagRes.error);
      }
      batch', batchCounter', totalBatches', failure :=
        StageNext(cs, uid, classify, commit, i, tagRes, batch, batchCounter, totalBatches, s0);
    }

    /** The end of `saveConversationsToFirestore`: commit what is left staged, then report 100. */
    method FinishImport(cs: seq<Conversation>, uid: string, classify: Classify, commit: Commit,
                        batch: seq<Write>, batchCounter: nat, totalBatches: nat, ghost s0: Snapshot)
      returns (outcome: Outcome)
      requires Progressed(cs, uid, classify, commit, s0, |cs|, totalBatches, batchCounter, batch)
      modifies this
      ensures total == old(total)
      ensures Finished(cs, uid, classify, commit, s0, outcome)
    {
      var committedBatches := totalBatches;
      if batchCounter > 0 {
        var failure := CommitStaged(cs, uid, classify, commit, |cs|, batch, totalBatches, s0);
        if failure.Some? {
          return Failed(failure.value);
        }
        committedBatches := totalBatches + 1;
      }
      PlanDone(cs, classify, commit);
      ExpectedDone(s0, cs, uid, classify, committedBatches);
      SetProgress(100);
      outcome := Done;
    }

    /** `saveConversationsToFirestore(conversations)` for the signed-in user `uid`. */
    method SaveConversationsToFirestore(conversations: seq<Conversation>, uid: Option<string>, classify: Classify, commit: Commit)
      returns (outcome: Outcome)
      requires total == |conversations|
      modifies this
      ensures total == old(total)
      ensures Saved(conversations, uid, classify, commit, outcome)
    {
      ghost var s0 := Snap();
      var batch: seq<Write> := [];
      var batchCounter: nat := 0;
      var totalBatches: nat := 0;
      for i := 0 to |conversations|
        invariant Progressed(conversations, UidText(uid), classify, commit, s0, i, totalBatches, batchCounter, batch)
      {
        var failure;
        batch, batchCounter, totalBatches, failure :=
          ImportNext(conversations, UidText(uid), classify, commit, i, batch, batchCounter, totalBatches, s0);
        if failure.Some? {
          return Failed(failure.value);
        }
      }
      outcome := FinishImport(conversations, UidText(uid), classify, commit, batch, batchCounter, totalBatches, s0);
    }

    /** `processFileMutation`: refuse a missing file, normalise the archive, then save it. */
    method ProcessFile(file: Option<File>, uid: Option<string>, classify: Classify, commit: Commit)
      returns (outcome: Outcome)
      modifies this
      ensures file.None? ==> outcome == Failed(Thrown(Some(NoFileMessage))) && unchanged(this)
      ensures file.Some? && file.value.parsed.Raised? ==>
        outcome == Failed(file.value.parsed.error) && unchanged(this)
      ensures file.Some? && file.value.parsed.Returned? ==>
        match ArchiveParser.ExtractChatData(file.value.parsed.value)
        case Raised(e) => outcome == Failed(e) && unchanged(this)
        case Returned(data) => total == |data| && Saved(data, uid, classify, commit, outcome)
    {
      if file.None? {
        return Failed(Thrown(Some(NoFileMessage)));
      }
      if file.value.parsed.Raised? {
        return Failed(file.value.parsed.error);
      }
      var data := ArchiveParser.ExtractChatData(file.value.parsed.value);
      if data.Raised? {
        return Failed(data.error);
      }
      total := |data.value|;
      outcome := SaveConversationsToFirestore(data.value, uid, classify, commit);
    }
  }
}
