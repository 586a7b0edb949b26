/** What the upload protocol guarantees in every reachable state, whatever interleaves and wherever it stops. */
module LifecycleTheorems {
  import opened Wrappers
  import opened Policies
  import opened Uploads
  import opened Lifecycle
  import opened LifecycleInvariant

  // ---------------------------------------------------------------------------
  // Evidence and publication
  // ---------------------------------------------------------------------------

  /** A held upload never loses its original: the private file is there and hashes to the recorded digest. */
  lemma HeldOriginalSurvives(g: Settings, worlds: seq<World>, actions: seq<Move>, n: nat, id: Id)
    requires IsRun(g, worlds, actions) && n < |worlds|
    requires id in worlds[n].db.uploads && Held(worlds[n].db.uploads[id].status)
    ensures id in worlds[n].privateFiles
    ensures g.hash(worlds[n].privateFiles[id]) == worlds[n].db.uploads[id].hash
  {
    RunKeeps(g, worlds, actions, n);
    assert Original(g, worlds[n].privateFiles, id, worlds[n].db.uploads[id].hash);
  }

  /** The check in front of every download: a row with this URL that belongs to no unpublished upload. */
  ghost predicate Downloadable(db: Tables, url: Url) {
    exists i :: i in db.attachments && db.attachments[i].url == url
                && !(i in db.uploads && !db.uploads[i].status.Published?)
  }

  /** An upload has an attachment row only while it is published, under its own URL, and then the public
      file is on disk with the recorded digest, whatever the deletion queue holds. */
  lemma LiveUploadIsOnDisk(g: Settings, worlds: seq<World>, actions: seq<Move>, n: nat, id: Id)
    requires IsRun(g, worlds, actions) && n < |worlds|
    requires id in worlds[n].db.uploads && id in worlds[n].db.attachments
    ensures worlds[n].db.uploads[id].status.Published?
    ensures worlds[n].db.attachments[id].url == UrlOf(id, worlds[n].db.uploads[id])
    ensures Copied(g, worlds[n].publicFiles, UrlOf(id, worlds[n].db.uploads[id]), worlds[n].db.uploads[id].hash)
  {
    RunKeeps(g, worlds, actions, n);
  }

  /** The URL of a held or removed upload cannot be downloaded. A published one's can be, exactly while its row lives. */
  lemma DownloadsArePublished(g: Settings, worlds: seq<World>, actions: seq<Move>, n: nat, id: Id)
    requires IsRun(g, worlds, actions) && n < |worlds| && id in worlds[n].db.uploads
    ensures Downloadable(worlds[n].db, UrlOf(id, worlds[n].db.uploads[id])) <==> id in worlds[n].db.attachments
    ensures Downloadable(worlds[n].db, UrlOf(id, worlds[n].db.uploads[id])) ==> worlds[n].db.uploads[id].status.Published?
  {
    RunKeeps(g, worlds, actions, n);
  }

  /** So the second half of the download check never decides anything. */
  lemma StatusGateIsRedundant(g: Settings, worlds: seq<World>, actions: seq<Move>, n: nat, url: Url)
    requires IsRun(g, worlds, actions) && n < |worlds|
    ensures var db := worlds[n].db;
            Downloadable(db, url) <==> exists i :: i in db.attachments && db.attachments[i].url == url
  {
    RunKeeps(g, worlds, actions, n);
  }

  // ---------------------------------------------------------------------------
  // Decisions under concurrency
  // ---------------------------------------------------------------------------

  ghost predicate Injective(hash: Bytes -> Digest) {
    forall a, b :: hash(a) == hash(b) ==> a == b
  }

  ghost predicate WorkerAboutToCommit(w: World) {
    w.processing.Taken? && w.processing.task.Finishing? && w.processing.task.stage.Ready? && w.processing.task.origin.FromWorker?
  }

  /** Whatever happened while a worker was scanning, the status it commits is the decision on the row, the
      policy and the denylist of that very moment, on a pending row. When that is to publish but the message is
      gone, the upload is held, or nothing is committed if the public copy had been made already. */
  lemma WorkerCommitsTheCurrentDecision(g: Settings, worlds: seq<World>, actions: seq<Move>, n: nat)
    requires IsRun(g, worlds, actions) && n < |actions| && actions[n] == Fin(FinishCommit)
    requires WorkerAboutToCommit(worlds[n])
    ensures worlds[n].processing.task.id in worlds[n].db.uploads && worlds[n].processing.task.id in worlds[n + 1].db.uploads
    ensures var task := worlds[n].processing.task;
            var before, after := worlds[n].db.uploads[task.id], worlds[n + 1].db.uploads[task.id];
            var d := Decide(SubjectOf(before), PolicyFor(worlds[n].policies, before.space), worlds[n].denylist,
                            task.origin.ctx, task.origin.scan);
            && before.status.Pending? && d.Decided?
            && if !d.status.Published? then after.status == d.status
               else if MessageStands(worlds[n].db, before) then after.status.Published?
               else after.status.Quarantined? || worlds[n + 1].db == worlds[n].db
  {
    RunKeeps(g, worlds, actions, n);
    assert StepsAt(g, worlds, actions, n);
    CommitSucceeds(g, worlds[n]);
  }

  /** The scan it used, cached or fresh, is the model's answer on the very bytes that are stored. */
  lemma WorkerUsesTheFilesScan(g: Settings, worlds: seq<World>, actions: seq<Move>, n: nat)
    requires IsRun(g, worlds, actions) && n < |worlds| && Injective(g.hash)
    requires WorkerAboutToCommit(worlds[n]) && worlds[n].processing.task.origin.scan.Some?
    ensures var task := worlds[n].processing.task;
            task.id in worlds[n].privateFiles && g.model(worlds[n].privateFiles[task.id]) == task.origin.scan
  {
    RunKeeps(g, worlds, actions, n);
    var task := worlds[n].processing.task;
    assert Original(g, worlds[n].privateFiles, task.id, task.row.hash);
    assert ScanOf(g, task.row.hash, task.origin.scan.value);
  }

  /** A worker whose candidate somebody else has decided in the meantime leaves everything as it is: whatever
      the run before its claim was, the claim changes nothing but that it forgets the worker. */
  lemma StaleClaimIsHarmless(g: Settings, worlds: seq<World>, actions: seq<Move>, n: nat, k: nat, ctx: Context)
    requires IsRun(g, worlds, actions) && n < |actions| && actions[n] == Do(Claim(k, ctx))
    ensures k in worlds[n].workers && worlds[n].workers[k].id in worlds[n].db.uploads
    ensures !worlds[n].db.uploads[worlds[n].workers[k].id].status.Pending?
            <==> worlds[n + 1] == worlds[n].(workers := worlds[n].workers - {k})
  {
    RunKeeps(g, worlds, actions, n);
    assert StepsAt(g, worlds, actions, n);
    assert WorkerSound(g, worlds[n].db.uploads, worlds[n].workers[k]);
  }

  /** With a scan in hand a claim always decides, so a candidate is scanned at most once per worker. */
  lemma ScannedClaimDecides(g: Settings, w: World, k: nat, ctx: Context)
    requires WorkEnabled(g, w, Claim(k, ctx)) && w.workers[k].scan.Some?
    ensures k !in ClaimStep(w, k, ctx).workers
  {
    var id, scan := w.workers[k].id, w.workers[k].scan;
    if id in w.db.uploads {
      var row := w.db.uploads[id];
      var policy := PolicyFor(w.policies, row.space);
      if EarlyStatus(SubjectOf(row), policy, w.denylist, ctx).None? {
        WalkIsFirstMatch(policy.rules, FactsOf(SubjectOf(row), w.denylist, ctx), scan.value, 0);
      }
    }
  }

  /** A release never trips over its own file: the original is there and has the right digest. */
  lemma ReleaseFindsItsOriginal(g: Settings, worlds: seq<World>, actions: seq<Move>, n: nat, partial: Bytes)
    requires IsRun(g, worlds, actions) && n < |worlds| && worlds[n].processing.Taken?
    requires var task := worlds[n].processing.task;
             task.Finishing? && task.stage.Entered? && task.requested.Published? && MessageStands(worlds[n].db, task.row)
    ensures SettleEnabled(g, worlds[n], FinishRead(partial))
  {
    RunKeeps(g, worlds, actions, n);
  }

  /** The compare-and-set of a finishing task always finds the status it read, and its insert a free key. */
  lemma CompareAndSetNeverFails(g: Settings, worlds: seq<World>, actions: seq<Move>, n: nat)
    requires IsRun(g, worlds, actions) && n < |worlds|
    requires worlds[n].processing.Taken? && worlds[n].processing.task.Finishing? && worlds[n].processing.task.stage.Ready?
    ensures var task := worlds[n].processing.task;
            && task.id in worlds[n].db.uploads && worlds[n].db.uploads[task.id].status == task.row.status
            && (task.stage.published ==> task.id !in worlds[n].db.attachments)
            && (CommitDecision(worlds[n].db, VerdictOf(worlds[n], task)).None?
                <==> task.stage.published && !MessageStands(worlds[n].db, task.row))
  {
    RunKeeps(g, worlds, actions, n);
    CommitSucceeds(g, worlds[n]);
  }

  /** The tables before and after a finishing task's transaction. */
  ghost predicate TookEffect(g: Settings, w: World, after: Tables, task: ProcessingTask)
    requires task.Finishing? && task.stage.Ready?
  {
    && task.id in w.db.uploads && task.id in after.uploads
    && after.uploads[task.id].status == task.stage.status
    && (task.id in after.attachments ==> task.stage.status.Published?)
    && (task.stage.status.Published? ==> task.id in after.attachments && Downloadable(after, UrlOf(task.id, task.row)))
    && (task.row.status.Published? ==>
          && (task.id in w.db.attachments ==> w.db.attachments[task.id].url in after.deletions)
          && Original(g, w.privateFiles, task.id, task.row.hash)
          && after.uploads[task.id].expiresAt == w.clock + PolicyFor(w.policies, task.row.space).retentionDays * 86400)
    && after.events == w.db.events + [Event(Some(task.id), Became(task.stage.status))]
  }

  lemma CommitTakesEffect(g: Settings, w: World)
    requires w.processing.Taken? && w.processing.task.Finishing? && w.processing.task.stage.Ready?
    requires IdsInv(w) && FilesInv(g, w) && ProcessingInv(g, w) && FilesInv(g, CommitStep(w))
    requires CommitDecision(w.db, VerdictOf(w, w.processing.task)).Some?
    ensures TookEffect(g, w, CommitStep(w).db, w.processing.task)
  {
  }

  /** A decision that commits takes effect at once: the upload can be downloaded exactly if it is published
      now, a withdrawn one has its URL queued for deletion, its original back and a new retention period, and
      the ledger has one entry more. */
  lemma DecisionTakesEffect(g: Settings, worlds: seq<World>, actions: seq<Move>, n: nat)
    requires IsRun(g, worlds, actions) && n < |actions| && actions[n] == Fin(FinishCommit)
    requires worlds[n].processing.Taken? && worlds[n].processing.task.Finishing? && worlds[n].processing.task.stage.Ready?
    requires CommitDecision(worlds[n].db, VerdictOf(worlds[n], worlds[n].processing.task)).Some?
    ensures TookEffect(g, worlds[n], worlds[n + 1].db, worlds[n].processing.task)
  {
    RunKeeps(g, worlds, actions, n);
    RunKeeps(g, worlds, actions, n + 1);
    assert StepsAt(g, worlds, actions, n);
    assert worlds[n + 1] == CommitStep(worlds[n]);
    CommitTakesEffect(g, worlds[n]);
  }

  // ---------------------------------------------------------------------------
  // The history of a row
  // ---------------------------------------------------------------------------

  /** No step loses a row or changes what it is about; `removed` is final; the retention date moves only
      when a published upload is withdrawn. */
  ghost predicate Succeeds(a: Upload, b: Upload) {
    && b.message == a.message && b.channel == a.channel && b.space == a.space && b.filename == a.filename
    && b.size == a.size && b.hash == a.hash
    && (a.status.Removed? ==> b.status.Removed?)
    && (b.expiresAt != a.expiresAt ==> a.status.Published? && !b.status.Published?)
  }

  ghost predicate Extends(before: Tables, after: Tables, id: Id)
    requires id in before.uploads
  {
    id in after.uploads && Succeeds(before.uploads[id], after.uploads[id]) && before.events <= after.events
  }

  lemma EnvironmentExtends(g: Settings, w: World, a: Environment, id: Id)
    requires EnvironmentEnabled(w, a) && id in w.db.uploads
    ensures Extends(w.db, EnvironmentStep(w, a).db, id)
  {
  }

  lemma IntakeExtends(g: Settings, w: World, a: Intake, id: Id)
    requires Inv(g, w) && IntakeEnabled(g, w, a) && id in w.db.uploads
    ensures Extends(w.db, IntakeStep(g, w, a).db, id)
  {
    if a.BatchCommit? {
      BatchRows(g, w, a.retentionDays);
    }
  }

  lemma ClaimKeepsTables(w: World, k: nat, ctx: Context)
    requires k in w.workers && w.workers[k].Claiming?
    ensures ClaimStep(w, k, ctx).db == w.db
  {
  }

  lemma WorkExtends(g: Settings, w: World, a: Work, id: Id)
    requires WorkEnabled(g, w, a) && id in w.db.uploads
    ensures Extends(w.db, WorkStep(g, w, a).db, id)
  {
    if a.Claim? {
      ClaimKeepsTables(w, a.k, a.ctx);
    } else if a.ScanFail? {
      assert w.db.events <= ScanFailStep(w, a.k, a.noted).db.events;
    }
  }

  lemma CommitRow(db: Tables, v: Judgement, id: Id)
    requires CommitDecision(db, v).Some? && id in db.uploads
    requires Current(db.uploads, v.id, v.row) && !v.row.status.Removed? && !(v.row.status.Published? && v.status.Published?)
    ensures Extends(db, CommitDecision(db, v).value, id)
  {
  }

  lemma CommitIsJudged(g: Settings, w: World)
    requires Inv(g, w) && w.processing.Taken? && w.processing.task.Finishing? && w.processing.task.stage.Ready?
    ensures Current(w.db.uploads, w.processing.task.id, w.processing.task.row) && !w.processing.task.row.status.Removed?
    ensures w.processing.task.row.status.Published? ==> !w.processing.task.stage.status.Published?
  {
  }

  lemma CommitExtends(g: Settings, w: World, id: Id)
    requires Inv(g, w) && SettleEnabled(g, w, FinishCommit) && id in w.db.uploads
    ensures Extends(w.db, CommitStep(w).db, id)
  {
    CommitIsJudged(g, w);
    if CommitDecision(w.db, VerdictOf(w, w.processing.task)).Some? {
      CommitRow(w.db, VerdictOf(w, w.processing.task), id);
    }
  }

  lemma SettleExtends(g: Settings, w: World, a: Settle, id: Id)
    requires Inv(g, w) && SettleEnabled(g, w, a) && id in w.db.uploads
    ensures Extends(w.db, SettleStep(g, w, a).db, id)
  {
    if a.FinishCommit? {
      CommitExtends(g, w, id);
    } else if a.Reschedule? {
      RescheduleShape(g, w);
    } else {
      SettleKeepsTables(g, w, a);
    }
  }

  lemma SettleKeepsTables(g: Settings, w: World, a: Settle)
    requires SettleEnabled(g, w, a) && !a.FinishCommit? && !a.Reschedule?
    ensures SettleStep(g, w, a).db == w.db
  {
  }

  lemma HousekeepingExtends(g: Settings, w: World, a: Housekeeping, id: Id)
    requires HousekeepingEnabled(w, a) && id in w.db.uploads
    ensures Extends(w.db, HousekeepingStep(w, a).db, id)
  {
  }

  lemma StepExtends(g: Settings, w: World, a: Move, id: Id)
    requires Inv(g, w) && Enabled(g, w, a) && id in w.db.uploads
    ensures Extends(w.db, Step(g, w, a).db, id)
  {
    match a
    case Env(e) => EnvironmentExtends(g, w, e, id);
    case In(i) => IntakeExtends(g, w, i, id);
    case Do(work) => WorkExtends(g, w, work, id);
    case Fin(s) => SettleExtends(g, w, s, id);
    case Keep(h) => HousekeepingExtends(g, w, h, id);
  }

  lemma RunExtends(g: Settings, worlds: seq<World>, actions: seq<Move>, n: nat, id: Id)
    requires IsRun(g, worlds, actions) && n < |actions| && id in worlds[n].db.uploads
    ensures Extends(worlds[n].db, worlds[n + 1].db, id)
  {
    RunKeeps(g, worlds, actions, n);
    assert StepsAt(g, worlds, actions, n);
    StepExtends(g, worlds[n], actions[n], id);
  }

  lemma LedgerHolds(g: Settings, worlds: seq<World>, actions: seq<Move>, n: nat)
    requires IsRun(g, worlds, actions) && n < |worlds|
    ensures LedgerInv(worlds[n].db.uploads, worlds[n].db.events)
  {
    RunKeeps(g, worlds, actions, n);
  }

  /** Removed uploads stay removed for good. */
  lemma {:induction false} RemovedIsFinal(g: Settings, worlds: seq<World>, actions: seq<Move>, n: nat, m: nat, id: Id)
    requires IsRun(g, worlds, actions) && n <= m < |worlds|
    requires id in worlds[n].db.uploads && worlds[n].db.uploads[id].status.Removed?
    ensures id in worlds[m].db.uploads && worlds[m].db.uploads[id].status.Removed?
  {
    if n < m {
      RemovedIsFinal(g, worlds, actions, n, m - 1, id);
      RunExtends(g, worlds, actions, m - 1, id);
    }
  }

  lemma PrefixTransitive(a: seq<Event>, b: seq<Event>, c: seq<Event>)
    requires a <= b <= c
    ensures a <= c
  {
  }

  /** From its enqueueing on, an upload keeps its row and identity, the ledger only grows, and replaying it
      gives the upload's status. */
  lemma {:induction false} LedgerTellsTheStatus(g: Settings, worlds: seq<World>, actions: seq<Move>, n: nat, m: nat, id: Id)
    requires IsRun(g, worlds, actions) && n <= m < |worlds| && id in worlds[n].db.uploads
    ensures id in worlds[m].db.uploads && worlds[m].db.uploads[id].hash == worlds[n].db.uploads[id].hash
    ensures worlds[n].db.events <= worlds[m].db.events
    ensures Replayed(worlds[m].db.events, id) == worlds[m].db.uploads[id].status
  {
    LedgerHolds(g, worlds, actions, m);
    if n < m {
      LedgerTellsTheStatus(g, worlds, actions, n, m - 1, id);
      RunExtends(g, worlds, actions, m - 1, id);
      PrefixTransitive(worlds[n].db.events, worlds[m - 1].db.events, worlds[m].db.events);
    }
  }

  // ---------------------------------------------------------------------------
  // The budget of held uploads
  // ---------------------------------------------------------------------------

  /** What is held is what was enqueued or withdrawn, less what was released or removed. Only withdrawals,
      which nobody admits, can carry the total over its limit. */
  lemma HeldTotalsAreConserved(g: Settings, worlds: seq<World>, actions: seq<Move>, n: nat)
    requires IsRun(g, worlds, actions) && n < |worlds|
    ensures var w, t := worlds[n], worlds[n].tally;
            && HeldCount(w.db.uploads) == t.enqueued + t.withdrawn - t.released - t.removed
            && HeldBytes(w.db.uploads) == t.enqueuedBytes + t.withdrawnBytes - t.releasedBytes - t.removedBytes
            && HeldCount(w.db.uploads) <= g.maxHeld + t.withdrawn
            && HeldBytes(w.db.uploads) <= g.maxHeldBytes + t.withdrawnBytes
  {
    RunKeeps(g, worlds, actions, n);
  }

  /** What a tally accounts for: the number of uploads held at its time, and their bytes. */
  function Balance(t: Tally): int { t.enqueued + t.withdrawn - t.released - t.removed }
  function BalanceBytes(t: Tally): int { t.enqueuedBytes + t.withdrawnBytes - t.releasedBytes - t.removedBytes }

  /** A batch is admitted against the totals of its check. When it commits, the totals are within the limit
      but for what was withdrawn since then; and exactly within it if the withdrawals since then fit into
      what was free at the check or became free since. */
  lemma BatchCommitsWithinBudget(g: Settings, worlds: seq<World>, actions: seq<Move>, n: nat)
    requires IsRun(g, worlds, actions) && n < |actions| && actions[n].In? && actions[n].i.BatchCommit?
    requires StepsAt(g, worlds, actions, n)
    ensures var task, t, after := worlds[n].admission.task, worlds[n].tally, worlds[n + 1].db.uploads;
            var since := task.budget;
            && since.withdrawn <= t.withdrawn && since.withdrawnBytes <= t.withdrawnBytes
            && HeldCount(after) <= g.maxHeld + t.withdrawn - since.withdrawn
            && HeldBytes(after) <= g.maxHeldBytes + t.withdrawnBytes - since.withdrawnBytes
            && (HeldCount(after) <= g.maxHeld
                <==> t.withdrawn - since.withdrawn
                     <= g.maxHeld - Balance(since) - |task.batch.files| + (t.released - since.released) + (t.removed - since.removed))
            && (HeldBytes(after) <= g.maxHeldBytes
                <==> t.withdrawnBytes - since.withdrawnBytes
                     <= g.maxHeldBytes - BalanceBytes(since) - BatchBytes(task.batch.files)
                        + (t.releasedBytes - since.releasedBytes) + (t.removedBytes - since.removedBytes))
  {
    RunKeeps(g, worlds, actions, n);
    RunKeeps(g, worlds, actions, n + 1);
    HeldTotalsAreConserved(g, worlds, actions, n);
    HeldTotalsAreConserved(g, worlds, actions, n + 1);
  }
}
