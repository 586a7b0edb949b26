/** What every step of the upload protocol keeps. */
module LifecycleInvariant {
  import opened Wrappers
  import opened Policies
  import opened Uploads
  import opened Lifecycle
  import opened HeldTotals

  // ---------------------------------------------------------------------------
  // Files
  // ---------------------------------------------------------------------------

  ghost predicate Original(g: Settings, files: map<Id, Bytes>, id: Id, hash: Digest) {
    id in files && g.hash(files[id]) == hash
  }

  ghost predicate Copied(g: Settings, files: map<Url, Bytes>, url: Url, hash: Digest) {
    url in files && g.hash(files[url]) == hash
  }

  /** Every held upload has its private original, byte for byte. */
  ghost predicate HeldHaveOriginal(g: Settings, uploads: map<Id, Upload>, files: map<Id, Bytes>) {
    forall id :: id in uploads && Held(uploads[id].status) ==> Original(g, files, id, uploads[id].hash)
  }

  /** A published upload's public file is right, if it is there. */
  ghost predicate PublishedAreSound(g: Settings, uploads: map<Id, Upload>, files: map<Url, Bytes>) {
    forall id :: id in uploads && uploads[id].status.Published? ==>
      UrlOf(id, uploads[id]) in files ==> Copied(g, files, UrlOf(id, uploads[id]), uploads[id].hash)
  }

  /** An attachment row of an upload belongs to a published one, and its file is there and right. */
  ghost predicate LiveArePublic(g: Settings, uploads: map<Id, Upload>, attachments: map<Id, Attachment>, files: map<Url, Bytes>) {
    forall id :: id in uploads && id in attachments ==>
      && uploads[id].status.Published?
      && attachments[id].url == UrlOf(id, uploads[id])
      && Copied(g, files, UrlOf(id, uploads[id]), uploads[id].hash)
  }

  ghost predicate FilesInv(g: Settings, w: World) {
    && HeldHaveOriginal(g, w.db.uploads, w.privateFiles)
    && PublishedAreSound(g, w.db.uploads, w.publicFiles)
    && LiveArePublic(g, w.db.uploads, w.db.attachments, w.publicFiles)
  }

  /** Generated IDs are fresh, and a local URL names its own attachment. */
  ghost predicate IdsInv(w: World) {
    && OwnUrls(w.db.attachments)
    && (forall id :: id in w.db.uploads ==> id < w.nextId && w.db.uploads[id].message < w.nextId)
    && (forall id :: id in w.db.attachments ==> id < w.nextId)
    && (forall id :: id in w.db.messages ==> id < w.nextId)
    && (forall id :: id in w.privateFiles ==> id < w.nextId)
  }

  // ---------------------------------------------------------------------------
  // The ledger
  // ---------------------------------------------------------------------------

  /** The status the ledger tells for an upload: the last one recorded, pending if there is none. */
  function Replayed(events: seq<Event>, id: Id): Status {
    if events == [] then Pending
    else
      var last := events[|events| - 1];
      if last.upload == Some(id) && last.what.Became? then last.what.status
      else Replayed(events[..|events| - 1], id)
  }

  ghost predicate LedgerInv(uploads: map<Id, Upload>, events: seq<Event>) {
    && (forall id :: id in uploads ==> Replayed(events, id) == uploads[id].status)
    && (forall i :: 0 <= i < |events| && events[i].upload.Some? ==> events[i].upload.value in uploads)
  }

  // ---------------------------------------------------------------------------
  // Scans
  // ---------------------------------------------------------------------------

  /** `r` is what the model says about some content with this digest. */
  ghost predicate ScanOf(g: Settings, hash: Digest, r: ScanResult) {
    exists b :: g.hash(b) == hash && g.model(b) == Some(r)
  }

  ghost predicate CacheSound(g: Settings, cache: map<Digest, ScanResult>) {
    forall h :: h in cache ==> ScanOf(g, h, cache[h])
  }

  ghost predicate WorkerSound(g: Settings, uploads: map<Id, Upload>, worker: Worker) {
    worker.id in uploads &&
    match worker
    case Claiming(id, scan) => scan.Some? ==> ScanOf(g, uploads[id].hash, scan.value)
    case Scanning(id, row, bytes) => row.hash == uploads[id].hash && (bytes.Some? ==> g.hash(bytes.value) == row.hash)
  }

  ghost predicate ScansInv(g: Settings, uploads: map<Id, Upload>, cache: map<Digest, ScanResult>, workers: map<nat, Worker>) {
    && CacheSound(g, cache)
    && forall k :: k in workers ==> WorkerSound(g, uploads, workers[k])
  }

  // ---------------------------------------------------------------------------
  // The tasks inside the locks
  // ---------------------------------------------------------------------------

  ghost predicate Unclaimed(w: World, id: Id) { id < w.nextId && id !in w.db.uploads }

  ghost predicate Unused(w: World, id: Id) { Unclaimed(w, id) && id !in w.db.attachments }

  ghost predicate AdmissionSound(w: World, task: AdmissionTask) {
    match task
    case Preflighting(_) => true
    case Admitted(_, _) => true
    case Storing(batch, _, message, stored, writing) =>
      && message < w.nextId
      && |stored| <= |batch.files| && (writing.Some? ==> |stored| < |batch.files|)
      && (forall i :: 0 <= i < |stored| ==>
            Unused(w, stored[i]) && stored[i] in w.privateFiles && w.privateFiles[stored[i]] == batch.files[i].bytes)
      && (forall i, j :: 0 <= i < j < |stored| ==> stored[i] != stored[j])
      && (writing.Some? ==> Unused(w, writing.value) && writing.value !in stored)
    case Undoing(_, leftovers) => forall id :: id in leftovers ==> Unclaimed(w, id)
    case Reaping(target) => target.Some? ==> Unclaimed(w, target.value)
  }

  ghost predicate AdmissionInv(w: World) {
    w.admission.Taken? ==> AdmissionSound(w, w.admission.task)
  }

  /** A row snapshot is still the row, as far as decisions go. */
  ghost predicate Current(uploads: map<Id, Upload>, id: Id, row: Upload) {
    id in uploads && SameDecisionColumns(uploads[id], row)
  }

  ghost predicate AllCurrent(uploads: map<Id, Upload>, todo: map<Id, Upload>) {
    forall id :: id in todo ==> Current(uploads, id, todo[id]) && Held(todo[id].status)
  }

  /** A worker's request is the decision on the row, policy and denylist as they stand now. */
  ghost predicate DecidedBy(g: Settings, w: World, row: Upload, requested: Status, ctx: Context, scan: Option<ScanResult>) {
    && (scan.Some? ==> ScanOf(g, row.hash, scan.value))
    && var d := Decide(SubjectOf(row), PolicyFor(w.policies, row.space), w.denylist, ctx, scan);
       d.Decided? && d.status == requested
  }

  ghost predicate Requested(g: Settings, w: World, origin: Origin, row: Upload, requested: Status) {
    match origin
    case FromWorker(ctx, scan) => row.status.Pending? && DecidedBy(g, w, row, requested, ctx, scan)
    case FromReview => !row.status.Removed? && !(row.status.Published? && requested.Published?)
    case FromCleanup(_) => requested.Removed? && Held(row.status)
  }

  ghost predicate StageSound(g: Settings, w: World, id: Id, row: Upload, requested: Status, stage: Stage)
    requires id in w.db.uploads
  {
    match stage
    case Waiting => true
    case Entered => true
    case Saving(bytes) => requested.Published? && g.hash(bytes) == row.hash
    case Ready(status, published) =>
      && (published <==> status.Published?)
      && (status == requested || (requested.Published? && status.Quarantined? && !MessageStands(w.db, row)))
      && (published ==> Copied(g, w.publicFiles, UrlOf(id, row), row.hash))
    case Committed(status, unlink) =>
      && w.db.uploads[id].status == status
      && (unlink ==> Terminal(status))
  }

  ghost predicate ProcessingSound(g: Settings, w: World, task: ProcessingTask) {
    match task
    case Copying(id, row, next, source, bytes) =>
      && Current(w.db.uploads, id, row) && row.status.Published? && !next.Published? && source == UrlOf(id, row)
      && (bytes.Some? ==> g.hash(bytes.value) == row.hash)
    case Finishing(origin, id, row, requested, stage) =>
      && id in w.db.uploads
      && (!stage.Committed? ==>
            && Current(w.db.uploads, id, row)
            && Requested(g, w, origin, row, requested)
            && Original(g, w.privateFiles, id, row.hash))
      && StageSound(g, w, id, row, requested, stage)
      && (origin.FromCleanup? ==> AllCurrent(w.db.uploads, origin.rest) && id !in origin.rest)
    case Rescheduling(id) => id in w.db.uploads
    case Expiring(todo) => AllCurrent(w.db.uploads, todo)
    case Sweeping(ids, _) => forall id :: id in ids ==> id in w.db.uploads && Terminal(w.db.uploads[id].status)
  }

  ghost predicate ProcessingInv(g: Settings, w: World) {
    w.processing.Taken? ==> ProcessingSound(g, w, w.processing.task)
  }

  /** Inside `publication` stands a finisher exactly when the task in `processing` has entered it;
      and a drain never dooms the URL of an upload with a live attachment row. */
  ghost predicate PublicationInv(w: World) {
    && (w.publication == Taken(ForFinish) <==>
          w.processing.Taken? && w.processing.task.Finishing? && !w.processing.task.stage.Waiting?)
    && (w.publication.Taken? ==> SparesLive(w, w.publication.task))
  }

  ghost predicate SparesLive(w: World, task: PublicationTask) {
    task.Draining? && task.live.Some? ==>
      forall id :: id in w.db.uploads && id in w.db.attachments && w.db.attachments[id].url in task.rows
                   ==> w.db.attachments[id].url in task.live.value
  }

  // ---------------------------------------------------------------------------
  // Budgets
  // ---------------------------------------------------------------------------

  /** Conservation: what is held is what came in or back, less what left. */
  ghost predicate Conserved(uploads: map<Id, Upload>, t: Tally) {
    && HeldCount(uploads) + t.released + t.removed == t.enqueued + t.withdrawn
    && HeldBytes(uploads) + t.releasedBytes + t.removedBytes == t.enqueuedBytes + t.withdrawnBytes
  }

  ghost predicate WithinBudget(g: Settings, uploads: map<Id, Upload>, t: Tally, since: Tally, more: nat, moreBytes: nat) {
    && since.withdrawn <= t.withdrawn && since.withdrawnBytes <= t.withdrawnBytes
    && HeldCount(uploads) + more <= g.maxHeld + t.withdrawn - since.withdrawn
    && HeldBytes(uploads) + moreBytes <= g.maxHeldBytes + t.withdrawnBytes - since.withdrawnBytes
  }

  const NOTHING := Tally(0, 0, 0, 0, 0, 0, 0, 0)

  ghost predicate BudgetInv(g: Settings, w: World) {
    && Conserved(w.db.uploads, w.tally)
    && WithinBudget(g, w.db.uploads, w.tally, NOTHING, 0, 0)
    && (w.admission.Taken? && (w.admission.task.Admitted? || w.admission.task.Storing?) ==>
          && w.tally.enqueued == w.admission.task.budget.enqueued
          && w.tally.enqueuedBytes == w.admission.task.budget.enqueuedBytes
          && WithinBudget(g, w.db.uploads, w.tally, w.admission.task.budget,
                          |w.admission.task.batch.files|, BatchBytes(w.admission.task.batch.files)))
  }

  ghost predicate Inv(g: Settings, w: World) {
    && IdsInv(w)
    && FilesInv(g, w)
    && LedgerInv(w.db.uploads, w.db.events)
    && ScansInv(g, w.db.uploads, w.cache, w.workers)
    && AdmissionInv(w)
    && ProcessingInv(g, w)
    && PublicationInv(w)
    && BudgetInv(g, w)
  }

  lemma InitialHolds(g: Settings, w: World)
    requires Initial(w)
    ensures Inv(g, w)
  {
  }

  // ---------------------------------------------------------------------------
  // The environment
  // ---------------------------------------------------------------------------

  lemma EnvironmentFiles(g: Settings, w: World, a: Environment)
    requires IdsInv(w) && FilesInv(g, w) && EnvironmentEnabled(w, a)
    ensures IdsInv(EnvironmentStep(w, a)) && FilesInv(g, EnvironmentStep(w, a))
  {
  }

  lemma AdmissionFrame(w: World, n: World)
    requires AdmissionInv(w) && n.admission == w.admission && n.db.uploads == w.db.uploads
    requires forall id :: id in w.privateFiles && id !in w.db.uploads ==>
               id in n.privateFiles && n.privateFiles[id] == w.privateFiles[id]
    requires w.nextId <= n.nextId && forall id :: id in n.db.attachments && id < w.nextId ==> id in w.db.attachments
    ensures AdmissionInv(n)
  {
  }

  lemma EnvironmentAdmission(g: Settings, w: World, a: Environment)
    requires IdsInv(w) && AdmissionInv(w) && EnvironmentEnabled(w, a)
    ensures AdmissionInv(EnvironmentStep(w, a))
  {
    if !a.AbandonAdmission? && !a.Crash? {
      AdmissionFrame(w, EnvironmentStep(w, a));
    }
  }

  ghost predicate NoOldMessageReturns(w: World, n: World) {
    forall m :: m in n.db.messages && m < w.nextId ==> m in w.db.messages && n.db.messages[m] == w.db.messages[m]
  }

  /** Originals of known uploads stay where they are. */
  ghost predicate OriginalsStay(w: World, n: World) {
    forall id :: id in w.db.uploads && id in w.privateFiles ==> id in n.privateFiles && n.privateFiles[id] == w.privateFiles[id]
  }

  /** The task in `processing` sees only rows, settings, public files, and originals of known uploads. */
  lemma ProcessingFrame(g: Settings, w: World, n: World)
    requires ProcessingInv(g, w) && IdsInv(w) && NoOldMessageReturns(w, n)
    requires n.processing == w.processing && n.db.uploads == w.db.uploads && n.publicFiles == w.publicFiles
    requires n.policies == w.policies && n.denylist == w.denylist
    requires OriginalsStay(w, n)
    ensures ProcessingInv(g, n)
  {
  }

  lemma AttachProcessing(g: Settings, w: World, message: Id, filename: string, bytes: Bytes)
    requires IdsInv(w) && ProcessingInv(g, w) && message in w.db.messages
    ensures ProcessingInv(g, EnvironmentStep(w, AttachDirectly(message, filename, bytes)))
  {
  }

  lemma EnvironmentProcessing(g: Settings, w: World, a: Environment)
    requires IdsInv(w) && ProcessingInv(g, w) && EnvironmentEnabled(w, a)
    ensures ProcessingInv(g, EnvironmentStep(w, a))
  {
    if a.AttachDirectly? {
      AttachProcessing(g, w, a.message, a.filename, a.bytes);
    } else if EnvironmentStep(w, a).processing.Taken? {
      ProcessingFrame(g, w, EnvironmentStep(w, a));
    }
  }

  lemma EnvironmentPublication(g: Settings, w: World, a: Environment)
    requires IdsInv(w) && FilesInv(g, w) && PublicationInv(w) && EnvironmentEnabled(w, a)
    ensures PublicationInv(EnvironmentStep(w, a))
  {
  }

  lemma EnvironmentRecords(g: Settings, w: World, a: Environment)
    requires LedgerInv(w.db.uploads, w.db.events) && ScansInv(g, w.db.uploads, w.cache, w.workers) && BudgetInv(g, w)
    requires EnvironmentEnabled(w, a)
    ensures var n := EnvironmentStep(w, a);
            LedgerInv(n.db.uploads, n.db.events) && ScansInv(g, n.db.uploads, n.cache, n.workers) && BudgetInv(g, n)
  {
  }

  lemma EnvironmentKeeps(g: Settings, w: World, a: Environment)
    requires Inv(g, w) && EnvironmentEnabled(w, a)
    ensures Inv(g, EnvironmentStep(w, a))
  {
    EnvironmentFiles(g, w, a);
    EnvironmentAdmission(g, w, a);
    EnvironmentProcessing(g, w, a);
    EnvironmentPublication(g, w, a);
    EnvironmentRecords(g, w, a);
  }

  // ---------------------------------------------------------------------------
  // Changes that decisions do not see
  // ---------------------------------------------------------------------------

  /** Only the retry columns and the unlink flag may differ. */
  ghost predicate SameRows(a: map<Id, Upload>, b: map<Id, Upload>) {
    a.Keys == b.Keys && forall id :: id in a ==> SameDecisionColumns(a[id], b[id])
  }

  lemma SameRowsWeighTheSame(a: map<Id, Upload>, b: map<Id, Upload>)
    requires SameRows(a, b)
    ensures HeldCount(a) == HeldCount(b) && HeldBytes(a) == HeldBytes(b)
  {
    assert HeldIds(a) == HeldIds(b);
    SizeSumSame(a, b, HeldIds(a));
  }

  function WithUploads(w: World, uploads: map<Id, Upload>): World { w.(db := w.db.(uploads := uploads)) }

  lemma RetryColumnsKeepFiles(g: Settings, w: World, uploads: map<Id, Upload>)
    requires IdsInv(w) && FilesInv(g, w) && SameRows(w.db.uploads, uploads)
    ensures IdsInv(WithUploads(w, uploads)) && FilesInv(g, WithUploads(w, uploads))
  {
  }

  lemma RetryColumnsKeepProcessing(g: Settings, w: World, uploads: map<Id, Upload>)
    requires ProcessingInv(g, w) && SameRows(w.db.uploads, uploads)
    ensures ProcessingInv(g, WithUploads(w, uploads))
  {
  }

  lemma RetryColumnsKeep(g: Settings, w: World, uploads: map<Id, Upload>)
    requires Inv(g, w) && SameRows(w.db.uploads, uploads)
    ensures Inv(g, WithUploads(w, uploads))
  {
    RetryColumnsKeepFiles(g, w, uploads);
    RetryColumnsKeepProcessing(g, w, uploads);
    SameRowsWeighTheSame(w.db.uploads, uploads);
  }

  lemma NoteKeeps(g: Settings, w: World, upload: Option<Id>, what: Happening)
    requires Inv(g, w) && !what.Became? && (upload.Some? ==> upload.value in w.db.uploads)
    ensures Inv(g, w.(db := Note(w.db, upload, what)))
  {
  }

  // ---------------------------------------------------------------------------
  // Intake
  // ---------------------------------------------------------------------------

  lemma IntakeIds(g: Settings, w: World, a: Intake)
    requires IdsInv(w) && AdmissionInv(w) && IntakeEnabled(g, w, a) && !a.BatchCommit?
    ensures IdsInv(IntakeStep(g, w, a))
  {
  }

  lemma IntakeFiles(g: Settings, w: World, a: Intake)
    requires IdsInv(w) && FilesInv(g, w) && AdmissionInv(w) && IntakeEnabled(g, w, a) && !a.BatchCommit?
    ensures FilesInv(g, IntakeStep(g, w, a))
  {
  }

  lemma IntakeAdmission(g: Settings, w: World, a: Intake)
    requires IdsInv(w) && AdmissionInv(w) && IntakeEnabled(g, w, a) && !a.BatchCommit?
    ensures AdmissionInv(IntakeStep(g, w, a))
  {
  }

  lemma IntakeOriginals(g: Settings, w: World, a: Intake)
    requires IdsInv(w) && AdmissionInv(w) && IntakeEnabled(g, w, a) && !a.BatchCommit?
    ensures OriginalsStay(w, IntakeStep(g, w, a))
  {
  }

  lemma IntakeProcessing(g: Settings, w: World, a: Intake)
    requires IdsInv(w) && AdmissionInv(w) && ProcessingInv(g, w) && IntakeEnabled(g, w, a) && !a.BatchCommit?
    ensures ProcessingInv(g, IntakeStep(g, w, a))
  {
    IntakeOriginals(g, w, a);
    ProcessingFrame(g, w, IntakeStep(g, w, a));
  }

  lemma IntakePublication(g: Settings, w: World, a: Intake)
    requires PublicationInv(w) && IntakeEnabled(g, w, a) && !a.BatchCommit?
    ensures PublicationInv(IntakeStep(g, w, a))
  {
  }

  lemma IntakeRecords(g: Settings, w: World, a: Intake)
    requires LedgerInv(w.db.uploads, w.db.events) && ScansInv(g, w.db.uploads, w.cache, w.workers)
    requires AdmissionInv(w) && BudgetInv(g, w)
    requires IntakeEnabled(g, w, a) && !a.BatchCommit?
    ensures var n := IntakeStep(g, w, a);
            LedgerInv(n.db.uploads, n.db.events) && ScansInv(g, n.db.uploads, n.cache, n.workers) && BudgetInv(g, n)
  {
  }

  ghost predicate FreshRow(g: Settings, w: World, id: Id, row: Upload) {
    Unused(w, id) && row.status.Pending? && row.message < w.nextId && Original(g, w.privateFiles, id, row.hash)
  }

  /** Rows are only added, for files stored in full. */
  ghost predicate Grown(g: Settings, w: World, n: Tables) {
    && n == w.db.(uploads := n.uploads)
    && (forall id :: id in w.db.uploads ==> id in n.uploads && n.uploads[id] == w.db.uploads[id])
    && (forall id :: id in n.uploads && id !in w.db.uploads ==> FreshRow(g, w, id, n.uploads[id]))
  }

  lemma NewRowsAreFresh(g: Settings, w: World, retentionDays: nat)
    requires IdsInv(w) && AdmissionInv(w) && IntakeEnabled(g, w, BatchCommit(retentionDays))
    ensures var rows := NewRows(g, w, w.admission.task, retentionDays);
            NewPendingRows(w.db, rows) && forall k :: 0 <= k < |rows| ==> FreshRow(g, w, rows[k].0, rows[k].1)
  {
    var rows := NewRows(g, w, w.admission.task, retentionDays);
    assert forall i :: 0 <= i < |rows| ==> rows[i].0 == w.admission.task.stored[i];
  }

  lemma RowsGrow(g: Settings, w: World, rows: seq<(Id, Upload)>)
    requires NewPendingRows(w.db, rows) && forall k :: 0 <= k < |rows| ==> FreshRow(g, w, rows[k].0, rows[k].1)
    ensures Grown(g, w, InsertRows(w.db, rows))
  {
    var n := InsertRows(w.db, rows);
    InsertFrame(w.db, rows, w.nextId);
    forall id | id in w.db.uploads
      ensures id in n.uploads && n.uploads[id] == w.db.uploads[id]
    {
      InsertFrame(w.db, rows, id);
    }
    forall id | id in n.uploads && id !in w.db.uploads
      ensures FreshRow(g, w, id, n.uploads[id])
    {
      if forall i :: 0 <= i < |rows| ==> rows[i].0 != id {
        InsertFrame(w.db, rows, id);
      }
      var k :| 0 <= k < |rows| && rows[k].0 == id;
      InsertedRow(w.db, rows, k);
    }
  }

  /** What the enqueue transaction of a fully stored batch does to the upload table. */
  lemma BatchRows(g: Settings, w: World, retentionDays: nat)
    requires IdsInv(w) && AdmissionInv(w) && IntakeEnabled(g, w, BatchCommit(retentionDays))
    ensures var rows := NewRows(g, w, w.admission.task, retentionDays);
            NewPendingRows(w.db, rows) && Grown(g, w, InsertRows(w.db, rows))
  {
    NewRowsAreFresh(g, w, retentionDays);
    RowsGrow(g, w, NewRows(g, w, w.admission.task, retentionDays));
  }

  lemma {:induction false} NoEventsMeansPending(events: seq<Event>, id: Id)
    requires forall i :: 0 <= i < |events| ==> events[i].upload != Some(id)
    ensures Replayed(events, id) == Pending
  {
    if events != [] {
      NoEventsMeansPending(events[..|events| - 1], id);
    }
  }

  lemma BatchCommitProcessing(g: Settings, w: World, retentionDays: nat)
    requires IdsInv(w) && AdmissionInv(w) && ProcessingInv(g, w) && IntakeEnabled(g, w, BatchCommit(retentionDays))
    ensures ProcessingInv(g, IntakeStep(g, w, BatchCommit(retentionDays)))
  {
    BatchRows(g, w, retentionDays);
    GrownProcessing(g, w, IntakeStep(g, w, BatchCommit(retentionDays)));
  }

  lemma GrownProcessing(g: Settings, w: World, n: World)
    requires ProcessingInv(g, w) && Grown(g, w, n.db) && n == w.(db := n.db, tally := n.tally, admission := n.admission)
    ensures ProcessingInv(g, n)
  {
  }

  lemma BatchCommitBudget(g: Settings, w: World, retentionDays: nat)
    requires IdsInv(w) && AdmissionInv(w) && BudgetInv(g, w) && IntakeEnabled(g, w, BatchCommit(retentionDays))
    ensures BudgetInv(g, IntakeStep(g, w, BatchCommit(retentionDays)))
  {
    BatchRows(g, w, retentionDays);
    var task := w.admission.task;
    var rows := NewRows(g, w, task, retentionDays);
    InsertedWeight(w.db, rows);
    NewRowsWeigh(g, w, task, retentionDays, |rows|);
    assert rows[..|rows|] == rows && task.batch.files[..|rows|] == task.batch.files;
  }

  lemma BatchCommitLedger(g: Settings, w: World, n: Tables)
    requires LedgerInv(w.db.uploads, w.db.events) && Grown(g, w, n)
    ensures LedgerInv(n.uploads, n.events)
  {
    forall id | id in n.uploads
      ensures Replayed(n.events, id) == n.uploads[id].status
    {
      if id !in w.db.uploads {
        NoEventsMeansPending(w.db.events, id);
      }
    }
  }

  lemma BatchCommitFiles(g: Settings, w: World, n: World)
    requires IdsInv(w) && FilesInv(g, w) && Grown(g, w, n.db)
    requires n == w.(db := n.db, tally := n.tally, admission := n.admission)
    ensures IdsInv(n) && FilesInv(g, n)
  {
  }

  lemma BatchCommitOthers(g: Settings, w: World, n: World)
    requires IdsInv(w) && ScansInv(g, w.db.uploads, w.cache, w.workers) && PublicationInv(w) && Grown(g, w, n.db)
    requires n == w.(db := n.db, tally := n.tally, admission := Free)
    ensures ScansInv(g, n.db.uploads, n.cache, n.workers) && AdmissionInv(n) && PublicationInv(n)
  {
  }

  lemma BatchCommitKeeps(g: Settings, w: World, retentionDays: nat)
    requires Inv(g, w) && IntakeEnabled(g, w, BatchCommit(retentionDays))
    ensures Inv(g, IntakeStep(g, w, BatchCommit(retentionDays)))
  {
    var n := IntakeStep(g, w, BatchCommit(retentionDays));
    BatchRows(g, w, retentionDays);
    BatchCommitFiles(g, w, n);
    BatchCommitLedger(g, w, n.db);
    BatchCommitOthers(g, w, n);
    BatchCommitProcessing(g, w, retentionDays);
    BatchCommitBudget(g, w, retentionDays);
  }

  lemma IntakeKeeps(g: Settings, w: World, a: Intake)
    requires Inv(g, w) && IntakeEnabled(g, w, a)
    ensures Inv(g, IntakeStep(g, w, a))
  {
    if a.BatchCommit? {
      BatchCommitKeeps(g, w, a.retentionDays);
    } else {
      IntakeIds(g, w, a);
      IntakeFiles(g, w, a);
      IntakeAdmission(g, w, a);
      IntakeProcessing(g, w, a);
      IntakePublication(g, w, a);
      IntakeRecords(g, w, a);
    }
  }

  // ---------------------------------------------------------------------------
  // The worker
  // ---------------------------------------------------------------------------

  lemma WorkFiles(g: Settings, w: World, a: Work)
    requires IdsInv(w) && FilesInv(g, w) && WorkEnabled(g, w, a) && !a.Claim? && !a.ScanFail?
    ensures IdsInv(WorkStep(g, w, a)) && FilesInv(g, WorkStep(g, w, a))
  {
  }

  lemma WorkAdmission(g: Settings, w: World, a: Work)
    requires IdsInv(w) && AdmissionInv(w) && WorkEnabled(g, w, a) && !a.Claim? && !a.ScanFail?
    ensures AdmissionInv(WorkStep(g, w, a))
  {
  }

  lemma WorkProcessing(g: Settings, w: World, a: Work)
    requires ProcessingInv(g, w) && WorkEnabled(g, w, a) && !a.Claim? && !a.ScanFail?
    ensures ProcessingInv(g, WorkStep(g, w, a))
  {
  }

  lemma WorkPublication(g: Settings, w: World, a: Work)
    requires PublicationInv(w) && WorkEnabled(g, w, a) && !a.Claim? && !a.ScanFail?
    ensures PublicationInv(WorkStep(g, w, a))
  {
  }

  lemma WorkRecords(g: Settings, w: World, a: Work)
    requires LedgerInv(w.db.uploads, w.db.events) && ScansInv(g, w.db.uploads, w.cache, w.workers) && BudgetInv(g, w)
    requires WorkEnabled(g, w, a) && !a.Claim? && !a.ScanFail?
    ensures var n := WorkStep(g, w, a);
            LedgerInv(n.db.uploads, n.db.events) && ScansInv(g, n.db.uploads, n.cache, n.workers) && BudgetInv(g, n)
  {
  }

  /** Any worker may forget what it was doing. */
  lemma ForgetKeeps(g: Settings, w: World, k: nat)
    requires Inv(g, w)
    ensures Inv(g, w.(workers := w.workers - {k}))
  {
  }

  lemma ScanningKeeps(g: Settings, w: World, k: nat)
    requires Inv(g, w) && k in w.workers && w.workers[k].id in w.db.uploads
    ensures Inv(g, w.(workers := w.workers[k := Scanning(w.workers[k].id, w.db.uploads[w.workers[k].id], None)]))
  {
  }

  lemma DecidingKeeps(g: Settings, w: World, id: Id, ctx: Context, scan: Option<ScanResult>, requested: Status)
    requires Inv(g, w) && w.processing.Free? && id in w.db.uploads && w.db.uploads[id].status.Pending?
    requires DecidedBy(g, w, w.db.uploads[id], requested, ctx, scan)
    ensures Inv(g, w.(processing := Taken(Finishing(FromWorker(ctx, scan), id, w.db.uploads[id], requested, Waiting))))
  {
  }

  lemma ClaimKeeps(g: Settings, w: World, k: nat, ctx: Context)
    requires Inv(g, w) && WorkEnabled(g, w, Claim(k, ctx))
    ensures Inv(g, ClaimStep(w, k, ctx))
  {
    var id, scan := w.workers[k].id, w.workers[k].scan;
    assert WorkerSound(g, w.db.uploads, w.workers[k]);
    if !w.db.uploads[id].status.Pending? {
      ForgetKeeps(g, w, k);
    } else {
      var row := w.db.uploads[id];
      var decision := Decide(SubjectOf(row), PolicyFor(w.policies, row.space), w.denylist, ctx, scan);
      if decision.ScanFirst? {
        ScanningKeeps(g, w, k);
      } else {
        assert DecidedBy(g, w, row, decision.status, ctx, scan);
        DecidingKeeps(g, w, id, ctx, scan, decision.status);
        ForgetKeeps(g, ClaimStep(w, k, ctx).(workers := w.workers), k);
      }
    }
  }

  lemma RetryRowsAreSame(w: World, id: Id)
    requires id in w.db.uploads
    ensures SameRows(w.db.uploads, RetryLater(w, id, false).uploads) && id in RetryLater(w, id, false).uploads
  {
  }

  lemma RetryShape(w: World, id: Id)
    ensures var v := WithUploads(w, RetryLater(w, id, false).uploads);
            && w.(db := RetryLater(w, id, false)) == v
            && w.(db := RetryLater(w, id, true)) == v.(db := Note(v.db, Some(id), ScanFailed))
  {
  }

  lemma RetryLaterKeeps(g: Settings, w: World, id: Id, noted: bool)
    requires Inv(g, w) && id in w.db.uploads
    ensures Inv(g, w.(db := RetryLater(w, id, noted)))
  {
    var v := WithUploads(w, RetryLater(w, id, false).uploads);
    RetryShape(w, id);
    RetryRowsAreSame(w, id);
    RetryColumnsKeep(g, w, v.db.uploads);
    NoteKeeps(g, v, Some(id), ScanFailed);
  }

  lemma ScanFailKeeps(g: Settings, w: World, k: nat, noted: bool)
    requires Inv(g, w) && WorkEnabled(g, w, ScanFail(k, noted))
    ensures Inv(g, ScanFailStep(w, k, noted))
  {
    assert WorkerSound(g, w.db.uploads, w.workers[k]);
    RetryLaterKeeps(g, w, w.workers[k].id, noted);
    ForgetKeeps(g, w.(db := RetryLater(w, w.workers[k].id, noted)), k);
  }

  lemma WorkKeeps(g: Settings, w: World, a: Work)
    requires Inv(g, w) && WorkEnabled(g, w, a)
    ensures Inv(g, WorkStep(g, w, a))
  {
    if a.Claim? {
      ClaimKeeps(g, w, a.k, a.ctx);
    } else if a.ScanFail? {
      ScanFailKeeps(g, w, a.k, a.noted);
    } else {
      WorkFiles(g, w, a);
      WorkAdmission(g, w, a);
      WorkProcessing(g, w, a);
      WorkPublication(g, w, a);
      WorkRecords(g, w, a);
    }
  }

  // ---------------------------------------------------------------------------
  // Decisions
  // ---------------------------------------------------------------------------

  lemma SettleIds(g: Settings, w: World, a: Settle)
    requires IdsInv(w) && ProcessingInv(g, w) && SettleEnabled(g, w, a) && !a.FinishCommit? && !a.Reschedule?
    ensures IdsInv(SettleStep(g, w, a))
  {
  }

  lemma SettleFiles(g: Settings, w: World, a: Settle)
    requires IdsInv(w) && FilesInv(g, w) && ProcessingInv(g, w) && PublicationInv(w)
    requires SettleEnabled(g, w, a) && !a.FinishCommit? && !a.Reschedule?
    ensures FilesInv(g, SettleStep(g, w, a))
  {
  }

  lemma SettleAdmission(g: Settings, w: World, a: Settle)
    requires IdsInv(w) && AdmissionInv(w) && ProcessingInv(g, w)
    requires SettleEnabled(g, w, a) && !a.FinishCommit? && !a.Reschedule?
    ensures AdmissionInv(SettleStep(g, w, a))
  {
    AdmissionFrame(w, SettleStep(g, w, a));
  }

  lemma SettleProcessing(g: Settings, w: World, a: Settle)
    requires IdsInv(w) && FilesInv(g, w) && ProcessingInv(g, w) && PublicationInv(w)
    requires SettleEnabled(g, w, a) && !a.FinishCommit? && !a.Reschedule?
    ensures ProcessingInv(g, SettleStep(g, w, a))
  {
  }

  lemma SettlePublication(g: Settings, w: World, a: Settle)
    requires ProcessingInv(g, w) && PublicationInv(w) && SettleEnabled(g, w, a) && !a.FinishCommit? && !a.Reschedule?
    ensures PublicationInv(SettleStep(g, w, a))
  {
  }

  lemma SettleRecords(g: Settings, w: World, a: Settle)
    requires LedgerInv(w.db.uploads, w.db.events) && ScansInv(g, w.db.uploads, w.cache, w.workers) && BudgetInv(g, w)
    requires SettleEnabled(g, w, a) && !a.FinishCommit? && !a.Reschedule?
    ensures var n := SettleStep(g, w, a);
            LedgerInv(n.db.uploads, n.db.events) && ScansInv(g, n.db.uploads, n.cache, n.workers) && BudgetInv(g, n)
  {
  }

  /** The transaction a finishing task is about to run always succeeds: the row is as it was read, and
      an upload that is not published has no attachment row to collide with. Only a message deleted
      since the public copy was made refuses it. */
  lemma CommitSucceeds(g: Settings, w: World)
    requires Inv(g, w) && w.processing.Taken? && w.processing.task.Finishing? && w.processing.task.stage.Ready?
    ensures StatusUnchanged(w.db, VerdictOf(w, w.processing.task))
    ensures w.processing.task.stage.published ==> w.processing.task.id !in w.db.attachments
    ensures CommitDecision(w.db, VerdictOf(w, w.processing.task)).Some?
            <==> (w.processing.task.stage.published ==> MessageStands(w.db, w.processing.task.row))
  {
  }

  lemma CommitIds(g: Settings, w: World)
    requires IdsInv(w) && ProcessingInv(g, w) && SettleEnabled(g, w, FinishCommit)
    requires CommitDecision(w.db, VerdictOf(w, w.processing.task)).Some?
    ensures IdsInv(CommitStep(w))
  {
  }

  lemma CommitFiles(g: Settings, w: World)
    requires IdsInv(w) && FilesInv(g, w) && ProcessingInv(g, w) && SettleEnabled(g, w, FinishCommit)
    requires CommitDecision(w.db, VerdictOf(w, w.processing.task)).Some?
    ensures FilesInv(g, CommitStep(w))
  {
  }

  lemma CommitTasks(g: Settings, w: World)
    requires ProcessingInv(g, w) && SettleEnabled(g, w, FinishCommit)
    requires CommitDecision(w.db, VerdictOf(w, w.processing.task)).Some?
    ensures ProcessingInv(g, CommitStep(w))
  {
  }

  lemma CommitOthers(g: Settings, w: World)
    requires IdsInv(w) && AdmissionInv(w) && ProcessingInv(g, w) && PublicationInv(w)
    requires SettleEnabled(g, w, FinishCommit)
    requires CommitDecision(w.db, VerdictOf(w, w.processing.task)).Some?
    ensures AdmissionInv(CommitStep(w)) && PublicationInv(CommitStep(w))
  {
  }

  lemma CommitScans(g: Settings, w: World)
    requires ScansInv(g, w.db.uploads, w.cache, w.workers) && ProcessingInv(g, w) && SettleEnabled(g, w, FinishCommit)
    requires CommitDecision(w.db, VerdictOf(w, w.processing.task)).Some?
    ensures ScansInv(g, CommitStep(w).db.uploads, CommitStep(w).cache, CommitStep(w).workers)
  {
  }

  /** One row decided: the ledger follows. */
  lemma LedgerAfter(uploads: map<Id, Upload>, events: seq<Event>, id: Id, row: Upload)
    requires LedgerInv(uploads, events) && id in uploads
    ensures LedgerInv(uploads[id := row], events + [Event(Some(id), Became(row.status))])
  {
  }

  /** One row decided: the totals follow the tally. */
  lemma BudgetAfter(g: Settings, w: World, n: World, id: Id, row: Upload)
    requires BudgetInv(g, w) && id in w.db.uploads && w.db.uploads[id].size == row.size
    requires Held(row.status) ==> Held(w.db.uploads[id].status) || w.db.uploads[id].status.Published?
    requires n.db.uploads == w.db.uploads[id := row] && n.admission == w.admission
    requires n.tally == TallyCommit(w.tally, w.db.uploads[id], row.status)
    ensures BudgetInv(g, n)
  {
    HeldUpdate(w.db.uploads, id, row);
  }

  /** What a successful decision does to rows, ledger and tally. */
  lemma CommitShape(g: Settings, w: World)
    requires ProcessingInv(g, w) && SettleEnabled(g, w, FinishCommit)
    requires CommitDecision(w.db, VerdictOf(w, w.processing.task)).Some?
    ensures var n, task := CommitStep(w), w.processing.task;
            && task.id in w.db.uploads && task.id in n.db.uploads
            && var before, after := w.db.uploads[task.id], n.db.uploads[task.id];
               && n.db.uploads == w.db.uploads[task.id := after] && after.size == before.size
               && (Held(after.status) ==> Held(before.status) || before.status.Published?)
               && n.db.events == w.db.events + [Event(Some(task.id), Became(after.status))]
               && n.tally == TallyCommit(w.tally, before, after.status) && n.admission == w.admission
  {
  }

  lemma CommitRecords(g: Settings, w: World)
    requires Inv(g, w) && SettleEnabled(g, w, FinishCommit)
    requires CommitDecision(w.db, VerdictOf(w, w.processing.task)).Some?
    ensures LedgerInv(CommitStep(w).db.uploads, CommitStep(w).db.events) && BudgetInv(g, CommitStep(w))
  {
    CommitShape(g, w);
    var n, id := CommitStep(w), w.processing.task.id;
    LedgerAfter(w.db.uploads, w.db.events, id, n.db.uploads[id]);
    BudgetAfter(g, w, n, id, n.db.uploads[id]);
  }

  lemma CommitKeeps(g: Settings, w: World)
    requires Inv(g, w) && SettleEnabled(g, w, FinishCommit)
    requires CommitDecision(w.db, VerdictOf(w, w.processing.task)).Some?
    ensures Inv(g, CommitStep(w))
  {
    CommitIds(g, w);
    CommitFiles(g, w);
    CommitTasks(g, w);
    CommitOthers(g, w);
    CommitScans(g, w);
    CommitRecords(g, w);
  }

  lemma RescheduleKeeps(g: Settings, w: World)
    requires Inv(g, w) && SettleEnabled(g, w, Reschedule)
    ensures Inv(g, SettleStep(g, w, Reschedule))
  {
    var uploads := SettleStep(g, w, Reschedule).db.uploads;
    RescheduleShape(g, w);
    RetryColumnsKeep(g, w, uploads);
    EnvironmentKeeps(g, WithUploads(w, uploads), AbandonProcessing);
  }

  lemma RescheduleShape(g: Settings, w: World)
    requires PublicationInv(w) && SettleEnabled(g, w, Reschedule)
    ensures var n := SettleStep(g, w, Reschedule);
            SameRows(w.db.uploads, n.db.uploads) && n == LeaveProcessing(WithUploads(w, n.db.uploads))
  {
  }

  lemma SettleKeeps(g: Settings, w: World, a: Settle)
    requires Inv(g, w) && SettleEnabled(g, w, a)
    ensures Inv(g, SettleStep(g, w, a))
  {
    if a.FinishCommit? {
      if CommitDecision(w.db, VerdictOf(w, w.processing.task)).None? {
        EnvironmentKeeps(g, w, AbandonProcessing);
      } else {
        CommitKeeps(g, w);
      }
    } else if a.Reschedule? {
      RescheduleKeeps(g, w);
    } else {
      SettleIds(g, w, a);
      SettleFiles(g, w, a);
      SettleAdmission(g, w, a);
      SettleProcessing(g, w, a);
      SettlePublication(g, w, a);
      SettleRecords(g, w, a);
    }
  }

  // ---------------------------------------------------------------------------
  // Housekeeping
  // ---------------------------------------------------------------------------

  lemma HousekeepingIds(g: Settings, w: World, a: Housekeeping)
    requires IdsInv(w) && HousekeepingEnabled(w, a) && !a.SweepMark?
    ensures IdsInv(HousekeepingStep(w, a))
  {
  }

  lemma HousekeepingFiles(g: Settings, w: World, a: Housekeeping)
    requires IdsInv(w) && FilesInv(g, w) && ProcessingInv(g, w) && PublicationInv(w)
    requires HousekeepingEnabled(w, a) && !a.SweepMark?
    ensures FilesInv(g, HousekeepingStep(w, a))
  {
  }

  lemma HousekeepingAdmission(g: Settings, w: World, a: Housekeeping)
    requires IdsInv(w) && AdmissionInv(w) && ProcessingInv(g, w) && HousekeepingEnabled(w, a) && !a.SweepMark?
    ensures AdmissionInv(HousekeepingStep(w, a))
  {
    AdmissionFrame(w, HousekeepingStep(w, a));
  }

  lemma HousekeepingProcessing(g: Settings, w: World, a: Housekeeping)
    requires FilesInv(g, w) && ProcessingInv(g, w) && PublicationInv(w) && HousekeepingEnabled(w, a) && !a.SweepMark?
    ensures ProcessingInv(g, HousekeepingStep(w, a))
  {
  }

  lemma HousekeepingPublication(g: Settings, w: World, a: Housekeeping)
    requires PublicationInv(w) && HousekeepingEnabled(w, a) && !a.SweepMark?
    ensures PublicationInv(HousekeepingStep(w, a))
  {
  }

  lemma HousekeepingRecords(g: Settings, w: World, a: Housekeeping)
    requires LedgerInv(w.db.uploads, w.db.events) && ScansInv(g, w.db.uploads, w.cache, w.workers) && BudgetInv(g, w)
    requires HousekeepingEnabled(w, a) && !a.SweepMark?
    ensures var n := HousekeepingStep(w, a);
            LedgerInv(n.db.uploads, n.db.events) && ScansInv(g, n.db.uploads, n.cache, n.workers) && BudgetInv(g, n)
  {
  }

  lemma ResweepKeeps(g: Settings, w: World, ids: set<Id>)
    requires Inv(g, w) && w.processing.Taken? && w.processing.task.Sweeping? && ids <= w.processing.task.ids
    ensures Inv(g, w.(processing := Taken(Sweeping(ids, None))))
  {
  }

  lemma SweepMarkShape(w: World)
    requires HousekeepingEnabled(w, SweepMark)
    ensures var n, task := HousekeepingStep(w, SweepMark), w.processing.task;
            && SameRows(w.db.uploads, n.db.uploads)
            && n == WithUploads(w, n.db.uploads).(processing := Taken(Sweeping(task.ids - {task.unlinked.value}, None)))
  {
  }

  lemma SweepMarkKeeps(g: Settings, w: World)
    requires Inv(g, w) && HousekeepingEnabled(w, SweepMark)
    ensures Inv(g, HousekeepingStep(w, SweepMark))
  {
    var uploads := HousekeepingStep(w, SweepMark).db.uploads;
    SweepMarkShape(w);
    RetryColumnsKeep(g, w, uploads);
    ResweepKeeps(g, WithUploads(w, uploads), w.processing.task.ids - {w.processing.task.unlinked.value});
  }

  lemma HousekeepingKeeps(g: Settings, w: World, a: Housekeeping)
    requires Inv(g, w) && HousekeepingEnabled(w, a)
    ensures Inv(g, HousekeepingStep(w, a))
  {
    if a.SweepMark? {
      SweepMarkKeeps(g, w);
    } else {
      HousekeepingIds(g, w, a);
      HousekeepingFiles(g, w, a);
      HousekeepingAdmission(g, w, a);
      HousekeepingProcessing(g, w, a);
      HousekeepingPublication(g, w, a);
      HousekeepingRecords(g, w, a);
    }
  }

  // ---------------------------------------------------------------------------
  // Every step, every run
  // ---------------------------------------------------------------------------

  lemma StepKeeps(g: Settings, w: World, a: Move)
    requires Inv(g, w) && Enabled(g, w, a)
    ensures Inv(g, Step(g, w, a))
  {
    match a
    case Env(e) => EnvironmentKeeps(g, w, e);
    case In(i) => IntakeKeeps(g, w, i);
    case Do(work) => WorkKeeps(g, w, work);
    case Fin(s) => SettleKeeps(g, w, s);
    case Keep(h) => HousekeepingKeeps(g, w, h);
  }

  lemma StepAtKeeps(g: Settings, worlds: seq<World>, actions: seq<Move>, i: nat)
    requires |worlds| == |actions| + 1 && i < |actions| && StepsAt(g, worlds, actions, i) && Inv(g, worlds[i])
    ensures Inv(g, worlds[i + 1])
  {
    StepKeeps(g, worlds[i], actions[i]);
  }

  lemma {:induction false} RunKeeps(g: Settings, worlds: seq<World>, actions: seq<Move>, n: nat)
    requires IsRun(g, worlds, actions) && n < |worlds|
    ensures Inv(g, worlds[n])
  {
    if n == 0 {
      InitialHolds(g, worlds[0]);
    } else {
      RunKeeps(g, worlds, actions, n - 1);
      StepAtKeeps(g, worlds, actions, n - 1);
    }
  }
}
