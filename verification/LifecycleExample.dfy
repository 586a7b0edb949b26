/** A run in which an admitted batch leaves more uploads held than the limit: while its files are being
    written, a moderator withdraws a published upload. */
module LifecycleExample {
  import opened Wrappers
  import opened Policies
  import opened Uploads
  import opened Lifecycle
  import opened LifecycleTheorems

  ghost predicate Reachable(g: Settings, w: World) {
    exists worlds, actions :: IsRun(g, worlds, actions) && worlds[|worlds| - 1] == w
  }

  lemma Then(g: Settings, w: World, a: Move, next: World)
    requires Reachable(g, w) && Enabled(g, w, a) && Step(g, w, a) == next
    ensures Reachable(g, next)
  {
    var worlds, actions :| IsRun(g, worlds, actions) && worlds[|worlds| - 1] == w;
    var longer, more := worlds + [next], actions + [a];
    forall i: nat | i < |more|
      ensures StepsAt(g, longer, more, i)
    {
      if i < |actions| {
        assert StepsAt(g, worlds, actions, i);
      }
    }
    assert IsRun(g, longer, more);
  }

  lemma Take(g: Settings, w: World, a: Intake) returns (next: World)
    requires Reachable(g, w) && IntakeEnabled(g, w, a) == true
    ensures next == IntakeStep(g, w, a) && Reachable(g, next)
  {
    next := IntakeStep(g, w, a);
    Then(g, w, In(a), next);
  }

  lemma Decided(g: Settings, w: World, a: Settle) returns (next: World)
    requires Reachable(g, w) && SettleEnabled(g, w, a) == true
    ensures next == SettleStep(g, w, a) && Reachable(g, next)
  {
    next := SettleStep(g, w, a);
    Then(g, w, Fin(a), next);
  }

  lemma CommitNow(g: Settings, w: World) returns (next: World)
    requires Reachable(g, w) && w.processing.Taken? && w.processing.task.Finishing? && w.processing.task.stage.Ready?
    ensures next == CommitStep(w) && Reachable(g, next)
  {
    next := Decided(g, w, FinishCommit);
  }

  lemma Totals(g: Settings, w: World)
    requires Reachable(g, w)
    ensures HeldCount(w.db.uploads) == w.tally.enqueued + w.tally.withdrawn - w.tally.released - w.tally.removed
    ensures HeldBytes(w.db.uploads)
         == w.tally.enqueuedBytes + w.tally.withdrawnBytes - w.tally.releasedBytes - w.tally.removedBytes
  {
    var worlds, actions :| IsRun(g, worlds, actions) && worlds[|worlds| - 1] == w;
    HeldTotalsAreConserved(g, worlds, actions, |actions|);
  }

  function OneFile(): Batch { Batch([File([], "a.png")], 1, None) }

  // ---------------------------------------------------------------------------
  // Uploading one empty file
  // ---------------------------------------------------------------------------

  lemma Admit(g: Settings, w: World) returns (next: World)
    requires Reachable(g, w) && w.admission.Free?
    requires HeldCount(w.db.uploads) + 1 <= g.maxHeld && HeldBytes(w.db.uploads) <= g.maxHeldBytes
    ensures Reachable(g, next) && next == w.(admission := Taken(Admitted(OneFile(), w.tally)))
  {
    assert BatchBytes(OneFile().files) == 0;
    var w1 := Take(g, w, BatchStart(OneFile()));
    next := Take(g, w1, BatchAdmit);
  }

  lemma Post(g: Settings, w: World, budget: Tally) returns (next: World)
    requires Reachable(g, w) && w.admission == Taken(Admitted(OneFile(), budget))
    ensures Reachable(g, next)
    ensures next == w.(db := w.db.(messages := w.db.messages[w.nextId := 1]), nextId := w.nextId + 1,
                       admission := Taken(Storing(OneFile(), budget, w.nextId, [], None)))
  {
    next := Take(g, w, BatchPost);
  }

  lemma Open(g: Settings, w: World, budget: Tally, message: Id) returns (next: World)
    requires Reachable(g, w) && w.admission == Taken(Storing(OneFile(), budget, message, [], None))
    ensures Reachable(g, next)
    ensures next == w.(privateFiles := w.privateFiles[w.nextId := []], nextId := w.nextId + 1,
                       admission := Taken(Storing(OneFile(), budget, message, [], Some(w.nextId))))
  {
    next := Take(g, w, BatchOpen([]));
  }

  lemma Written(g: Settings, w: World, budget: Tally, message: Id, id: Id) returns (next: World)
    requires Reachable(g, w) && w.admission == Taken(Storing(OneFile(), budget, message, [], Some(id)))
    ensures Reachable(g, next)
    ensures next == w.(privateFiles := w.privateFiles[id := []],
                       admission := Taken(Storing(OneFile(), budget, message, [id], None)))
  {
    next := Take(g, w, BatchWritten);
    assert [] + [id] == [id];
  }

  lemma Write(g: Settings, w: World, budget: Tally, message: Id) returns (next: World)
    requires Reachable(g, w) && w.admission == Taken(Storing(OneFile(), budget, message, [], None))
    ensures Reachable(g, next)
    ensures next == w.(privateFiles := w.privateFiles[w.nextId := []], nextId := w.nextId + 1,
                       admission := Taken(Storing(OneFile(), budget, message, [w.nextId], None)))
  {
    var w1 := Open(g, w, budget, message);
    next := Written(g, w1, budget, message, w.nextId);
    assert w.privateFiles[w.nextId := []][w.nextId := []] == w.privateFiles[w.nextId := []];
  }

  function Queued(g: Settings, w: World, message: Id): Upload {
    Row(([], "a.png"), g.hash([]), message, 1, None, w.clock, w.clock + 86400)
  }

  lemma Insert(g: Settings, w: World, budget: Tally, message: Id, id: Id) returns (next: World)
    requires Reachable(g, w) && w.admission == Taken(Storing(OneFile(), budget, message, [id], None))
    ensures IntakeEnabled(g, w, BatchCommit(1)) && next == IntakeStep(g, w, BatchCommit(1)) && Reachable(g, next)
    ensures next == w.(db := w.db.(uploads := w.db.uploads[id := Queued(g, w, message)]),
                       tally := w.tally.(enqueued := w.tally.enqueued + 1), admission := Free)
  {
    next := Take(g, w, BatchCommit(1));
    var rows := NewRows(g, w, w.admission.task, 1);
    assert rows == [(id, Queued(g, w, message))] && rows[..0] == [];
    assert InsertRows(w.db, []) == w.db;
    assert InsertRows(w.db, rows) == w.db.(uploads := w.db.uploads[id := Queued(g, w, message)]);
    assert BatchBytes(OneFile().files) == 0;
  }

  // ---------------------------------------------------------------------------
  // Releasing it
  // ---------------------------------------------------------------------------

  function Task(id: Id, row: Upload, requested: Status, stage: Stage): ProcessingTask {
    Finishing(FromReview, id, row, requested, stage)
  }

  lemma Request(g: Settings, w: World, id: Id, row: Upload) returns (next: World)
    requires Reachable(g, w) && w.processing.Free? && w.publication.Free?
    requires id in w.db.uploads && w.db.uploads[id] == row && row.status.Pending? && row.expiresAt > w.clock
    ensures Reachable(g, next) && next == w.(processing := Taken(Task(id, row, Published, Waiting)))
  {
    next := Decided(g, w, ReviewStart(id, Published));
  }

  lemma Enter(g: Settings, w: World, id: Id, row: Upload, requested: Status) returns (next: World)
    requires Reachable(g, w) && w.processing == Taken(Task(id, row, requested, Waiting)) && w.publication.Free?
    ensures Reachable(g, next)
    ensures next == w.(processing := Taken(Task(id, row, requested, Entered)), publication := Taken(ForFinish))
  {
    next := Decided(g, w, FinishEnter);
  }

  lemma ReadBack(g: Settings, w: World, id: Id, row: Upload) returns (next: World)
    requires Reachable(g, w) && w.processing == Taken(Task(id, row, Published, Entered))
    requires MessageStands(w.db, row) && id in w.privateFiles && w.privateFiles[id] == [] && row.hash == g.hash([])
    ensures Reachable(g, next)
    ensures next == w.(processing := Taken(Task(id, row, Published, Saving([]))),
                       publicFiles := w.publicFiles[UrlOf(id, row) := []])
  {
    next := Decided(g, w, FinishRead([]));
  }

  lemma Saved(g: Settings, w: World, id: Id, row: Upload) returns (next: World)
    requires Reachable(g, w) && w.processing == Taken(Task(id, row, Published, Saving([])))
    ensures Reachable(g, next)
    ensures next == w.(processing := Taken(Task(id, row, Published, Ready(Published, true))),
                       publicFiles := w.publicFiles[UrlOf(id, row) := []])
  {
    next := Decided(g, w, FinishSaved);
  }

  lemma Copy(g: Settings, w: World, id: Id, row: Upload) returns (next: World)
    requires Reachable(g, w) && w.processing == Taken(Task(id, row, Published, Entered))
    requires MessageStands(w.db, row) && id in w.privateFiles && w.privateFiles[id] == [] && row.hash == g.hash([])
    ensures Reachable(g, next)
    ensures next == w.(processing := Taken(Task(id, row, Published, Ready(Published, true))),
                       publicFiles := w.publicFiles[UrlOf(id, row) := []])
  {
    var w1 := ReadBack(g, w, id, row);
    next := Saved(g, w1, id, row);
    assert w.publicFiles[UrlOf(id, row) := []][UrlOf(id, row) := []] == w.publicFiles[UrlOf(id, row) := []];
  }

  lemma Commit(g: Settings, w: World, id: Id, row: Upload) returns (next: World)
    requires Reachable(g, w) && w.processing == Taken(Task(id, row, Published, Ready(Published, true)))
    requires id in w.db.uploads && w.db.uploads[id] == row && row.status.Pending? && !row.fileRemoved
    requires MessageStands(w.db, row) && id !in w.db.attachments
    ensures Reachable(g, next)
    ensures next == w.(db := Record(w.db.(uploads := w.db.uploads[id := row.(status := Published)],
                                          attachments := w.db.attachments[id := Attachment(row.message, UrlOf(id, row))]),
                                    id, Published),
                       tally := TallyCommit(w.tally, row, Published),
                       processing := Taken(Task(id, row, Published, Committed(Published, true))))
  {
    next := CommitNow(g, w);
  }

  lemma Finish(g: Settings, w: World, id: Id, row: Upload) returns (next: World)
    requires Reachable(g, w) && w.processing == Taken(Task(id, row, Published, Committed(Published, true)))
    ensures Reachable(g, next)
    ensures next == w.(processing := Free, publication := Free, privateFiles := w.privateFiles - {id})
  {
    var w1 := Decided(g, w, FinishUnlink(true));
    next := Decided(g, w1, FinishLeave);
  }

  // ---------------------------------------------------------------------------
  // Withdrawing it
  // ---------------------------------------------------------------------------

  lemma Recall(g: Settings, w: World, id: Id, row: Upload) returns (next: World)
    requires Reachable(g, w) && w.processing.Free?
    requires id in w.db.uploads && w.db.uploads[id] == row && row.status.Published?
    requires id in w.db.attachments && w.db.attachments[id].url == UrlOf(id, row)
    ensures Reachable(g, next)
    ensures next == w.(processing := Taken(Copying(id, row, Quarantined, UrlOf(id, row), None)))
  {
    next := Decided(g, w, ReviewStart(id, Quarantined));
  }

  lemma CopyingBack(g: Settings, w: World, id: Id, row: Upload) returns (next: World)
    requires Reachable(g, w) && w.processing == Taken(Copying(id, row, Quarantined, UrlOf(id, row), None))
    requires UrlOf(id, row) in w.publicFiles && w.publicFiles[UrlOf(id, row)] == []
    ensures Reachable(g, next)
    ensures next == w.(processing := Taken(Copying(id, row, Quarantined, UrlOf(id, row), Some([]))),
                       privateFiles := w.privateFiles[id := []])
  {
    next := Decided(g, w, CopyOpen([]));
  }

  lemma CopiedBack(g: Settings, w: World, id: Id, row: Upload) returns (next: World)
    requires Reachable(g, w) && w.processing == Taken(Copying(id, row, Quarantined, UrlOf(id, row), Some([])))
    ensures Reachable(g, next)
    ensures next == w.(processing := Taken(Task(id, row, Quarantined, Waiting)), privateFiles := w.privateFiles[id := []])
  {
    next := Decided(g, w, CopyDone);
  }

  lemma CopyBack(g: Settings, w: World, id: Id, row: Upload) returns (next: World)
    requires Reachable(g, w) && w.processing == Taken(Copying(id, row, Quarantined, UrlOf(id, row), None))
    requires UrlOf(id, row) in w.publicFiles && w.publicFiles[UrlOf(id, row)] == []
    ensures Reachable(g, next)
    ensures next == w.(processing := Taken(Task(id, row, Quarantined, Waiting)), privateFiles := w.privateFiles[id := []])
  {
    var w1 := CopyingBack(g, w, id, row);
    next := CopiedBack(g, w1, id, row);
    assert w.privateFiles[id := []][id := []] == w.privateFiles[id := []];
  }

  lemma Direct(g: Settings, w: World, id: Id, row: Upload) returns (next: World)
    requires Reachable(g, w) && w.processing == Taken(Task(id, row, Quarantined, Entered))
    ensures Reachable(g, next) && next == w.(processing := Taken(Task(id, row, Quarantined, Ready(Quarantined, false))))
  {
    next := Decided(g, w, FinishDirect);
  }

  lemma Retract(g: Settings, w: World, id: Id, row: Upload) returns (next: World)
    requires Reachable(g, w) && w.processing == Taken(Task(id, row, Quarantined, Ready(Quarantined, false)))
    requires id in w.db.uploads && w.db.uploads[id] == row && row.status.Published?
    ensures Reachable(g, next) && next.admission == w.admission && next.clock == w.clock
    ensures next.tally == w.tally.(withdrawn := w.tally.withdrawn + 1, withdrawnBytes := w.tally.withdrawnBytes + row.size)
  {
    next := CommitNow(g, w);
  }

  // ---------------------------------------------------------------------------
  // The whole run
  // ---------------------------------------------------------------------------

  function EmptyWorld(): World {
    World(Tables(map[], map[], map[], {}, []), map[], map[], map[], {}, map[], 0, 0,
          Free, Free, Free, map[], Tally(0, 0, 0, 0, 0, 0, 0, 0))
  }

  lemma Enqueued(g: Settings) returns (w: World)
    requires g.maxHeld == 1
    ensures Reachable(g, w)
    ensures var base := EmptyWorld();
            w == base.(db := base.db.(messages := map[0 := 1], uploads := map[1 := Queued(g, base, 0)]),
                       privateFiles := map[1 := []], nextId := 2, tally := base.tally.(enqueued := 1))
  {
    var w0 := EmptyWorld();
    assert IsRun(g, [w0], []) && [w0][|[w0]| - 1] == w0;
    Totals(g, w0);
    var w1 := Admit(g, w0);
    var w2 := Post(g, w1, w0.tally);
    var w3 := Write(g, w2, w0.tally, 0);
    w := Insert(g, w3, w0.tally, 0, 1);
  }

  lemma CopiedOut(g: Settings) returns (w: World)
    requires g.maxHeld == 1
    ensures Reachable(g, w)
    ensures var base, row := EmptyWorld(), Queued(g, EmptyWorld(), 0);
            w == base.(db := base.db.(messages := map[0 := 1], uploads := map[1 := row]),
                       privateFiles := map[1 := []], publicFiles := map[UrlOf(1, row) := []], nextId := 2,
                       processing := Taken(Task(1, row, Published, Ready(Published, true))),
                       publication := Taken(ForFinish), tally := base.tally.(enqueued := 1))
  {
    var w0 := Enqueued(g);
    var row := Queued(g, EmptyWorld(), 0);
    var w1 := Request(g, w0, 1, row);
    var w2 := Enter(g, w1, 1, row, Published);
    w := Copy(g, w2, 1, row);
  }

  /** What the second batch starts from: one published upload, nothing held, nobody at work. */
  ghost predicate OnePublished(w: World, row: Upload) {
    && w.processing.Free? && w.publication.Free?
    && row.status.Published? && row.size == 0
    && 1 in w.db.uploads && w.db.uploads[1] == row
    && 1 in w.db.attachments && w.db.attachments[1].url == UrlOf(1, row)
    && UrlOf(1, row) in w.publicFiles && w.publicFiles[UrlOf(1, row)] == []
    && w.tally == Tally(1, 0, 1, 0, 0, 0, 0, 0)
  }

  lemma Released(g: Settings) returns (w: World, row: Upload)
    requires g.maxHeld == 1
    ensures Reachable(g, w) && OnePublished(w, row) && w.admission.Free?
  {
    var w0 := CopiedOut(g);
    var queued := Queued(g, EmptyWorld(), 0);
    var w1 := Commit(g, w0, 1, queued);
    w := Finish(g, w1, 1, queued);
    row := queued.(status := Published);
  }

  lemma StoredSecond(g: Settings) returns (w: World, row: Upload, message: Id, id: Id)
    requires g.maxHeld == 1
    ensures Reachable(g, w) && OnePublished(w, row)
    ensures w.admission == Taken(Storing(OneFile(), w.tally, message, [id], None))
  {
    var w0;
    w0, row := Released(g);
    Totals(g, w0);
    var w1 := Admit(g, w0);
    var w2 := Post(g, w1, w0.tally);
    message, id := w0.nextId, w2.nextId;
    w := Write(g, w2, w0.tally, message);
  }

  lemma Retracted(g: Settings, w: World, row: Upload) returns (next: World)
    requires Reachable(g, w) && OnePublished(w, row)
    ensures Reachable(g, next) && next.admission == w.admission && next.tally == w.tally.(withdrawn := 1)
  {
    var w1 := Recall(g, w, 1, row);
    var w2 := CopyBack(g, w1, 1, row);
    var w3 := Enter(g, w2, 1, row, Quarantined);
    var w4 := Direct(g, w3, 1, row);
    next := Retract(g, w4, 1, row);
  }

  /** The limit is one upload, and the commit of an admitted batch leaves two. */
  lemma CommitOverLimit(g: Settings) returns (before: World)
    requires g.maxHeld == 1
    ensures Reachable(g, before) && IntakeEnabled(g, before, BatchCommit(1))
    ensures HeldCount(IntakeStep(g, before, BatchCommit(1)).db.uploads) == 2
  {
    var w, row, message, id := StoredSecond(g);
    before := Retracted(g, w, row);
    var after := Insert(g, before, w.tally, message, id);
    Totals(g, after);
  }
}
