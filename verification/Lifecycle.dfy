/** The AutoMod upload protocol as a step system.

    A mutex is a slot that is free or holds the local state of the task inside its critical section, so
    mutual exclusion is built in and everything else is not. SQL transactions are one step; every file
    operation is a step of its own, a write being two (a file in between holds arbitrary bytes). Any task
    can be abandoned before any step, by an error, a dropped request or a crash. */
module Lifecycle {
  import opened Wrappers
  import opened Policies
  import opened Uploads

  /** `hash` is the content digest and `model` the scanner, both functions of the bytes. */
  datatype Settings = Settings(hash: Bytes -> Digest, model: Bytes -> Option<ScanResult>,
                               maxHeld: nat, maxHeldBytes: nat)

  datatype Lock<+T> = Free | Taken(task: T)

  datatype File = File(bytes: Bytes, filename: string)

  datatype Batch = Batch(files: seq<File>, channel: Id, space: Option<Id>)

  /** Tasks inside `admission`. `budget` is the tally as it stood at the capacity check. */
  datatype AdmissionTask =
    | Preflighting(batch: Batch)
    | Admitted(batch: Batch, budget: Tally)
    | Storing(batch: Batch, budget: Tally, message: Id, stored: seq<Id>, writing: Option<Id>)
    | Undoing(message: Id, leftovers: set<Id>)
    | Reaping(target: Option<Id>)

  /** Who called `finish`. */
  datatype Origin =
    | FromWorker(ctx: Context, scan: Option<ScanResult>)
    | FromReview
    | FromCleanup(rest: map<Id, Upload>)

  datatype Stage =
    | Waiting
    | Entered
    | Saving(bytes: Bytes)
    | Ready(status: Status, published: bool)
    | Committed(status: Status, unlink: bool)

  /** Tasks inside `processing`. */
  datatype ProcessingTask =
    | Copying(id: Id, row: Upload, next: Status, source: Url, bytes: Option<Bytes>)
    | Finishing(origin: Origin, id: Id, row: Upload, requested: Status, stage: Stage)
    | Rescheduling(id: Id)
    | Expiring(todo: map<Id, Upload>)
    | Sweeping(ids: set<Id>, unlinked: Option<Id>)

  /** Tasks inside `publication`. A finishing task is in `processing` and `publication` at once. */
  datatype PublicationTask =
    | ForFinish
    | Draining(rows: set<Url>, live: Option<set<Url>>, unlinked: Option<Url>)

  /** A worker while it holds no lock: about to claim its candidate, or scanning it. */
  datatype Worker =
    | Claiming(id: Id, scan: Option<ScanResult>)
    | Scanning(id: Id, row: Upload, bytes: Option<Bytes>)

  /** Bookkeeping of the model: how many uploads, of how many bytes, entered and left the held states, by cause. */
  datatype Tally = Tally(enqueued: nat, withdrawn: nat, released: nat, removed: nat,
                         enqueuedBytes: nat, withdrawnBytes: nat, releasedBytes: nat, removedBytes: nat)

  datatype World = World(db: Tables, privateFiles: map<Id, Bytes>, publicFiles: map<Url, Bytes>,
                         policies: map<Option<Id>, Policy>, denylist: Denylist, cache: map<Digest, ScanResult>,
                         clock: int, nextId: nat,
                         admission: Lock<AdmissionTask>, processing: Lock<ProcessingTask>,
                         publication: Lock<PublicationTask>, workers: map<nat, Worker>, tally: Tally)

  // ---------------------------------------------------------------------------
  // Held uploads
  // ---------------------------------------------------------------------------

  ghost function HeldIds(uploads: map<Id, Upload>): set<Id> {
    set id | id in uploads && Held(uploads[id].status)
  }

  ghost function HeldCount(uploads: map<Id, Upload>): nat { |HeldIds(uploads)| }

  ghost function SizeSum(uploads: map<Id, Upload>, ids: set<Id>): nat
    requires ids <= uploads.Keys
  {
    if ids == {} then 0 else
      var id :| id in ids;
      uploads[id].size + SizeSum(uploads, ids - {id})
  }

  ghost function HeldBytes(uploads: map<Id, Upload>): nat { SizeSum(uploads, HeldIds(uploads)) }

  function BatchBytes(files: seq<File>): nat {
    if files == [] then 0 else BatchBytes(files[..|files| - 1]) + |files[|files| - 1].bytes|
  }

  function TallyEnqueue(t: Tally, batch: Batch): Tally {
    t.(enqueued := t.enqueued + |batch.files|, enqueuedBytes := t.enqueuedBytes + BatchBytes(batch.files))
  }

  function TallyCommit(t: Tally, row: Upload, status: Status): Tally {
    if Held(row.status) && status.Published? then
      t.(released := t.released + 1, releasedBytes := t.releasedBytes + row.size)
    else if Held(row.status) && status.Removed? then
      t.(removed := t.removed + 1, removedBytes := t.removedBytes + row.size)
    else if row.status.Published? && Held(status) then
      t.(withdrawn := t.withdrawn + 1, withdrawnBytes := t.withdrawnBytes + row.size)
    else t
  }

  // ---------------------------------------------------------------------------
  // Policies
  // ---------------------------------------------------------------------------

  const DefaultPolicy := Policy(false, [
    Rule("blocked-file", HashDenylist, All, Quarantine),
    Rule("explicit-image", Media(["FEMALE_BREAST_EXPOSED", "FEMALE_GENITALIA_EXPOSED",
                                  "MALE_GENITALIA_EXPOSED", "ANUS_EXPOSED"], 0.8), NonNsfw, Quarantine)],
    [], ["manage_messages"], 7)

  /** A space's own policy, else the instance's (`None`), else the default. */
  function PolicyFor(policies: map<Option<Id>, Policy>, space: Option<Id>): Policy {
    if space in policies then policies[space]
    else if None in policies then policies[None]
    else DefaultPolicy
  }

  // ---------------------------------------------------------------------------
  // Everybody else: clock, messages, other uploads, settings, abandonment
  // ---------------------------------------------------------------------------

  datatype Environment =
    | Tick(to: int)
    | PostMessage(channel: Id)
    | RemoveMessages(doomed: set<Id>)
    | AttachDirectly(message: Id, filename: string, bytes: Bytes)
    | QueueUrls(urls: set<Url>)
    | SetPolicy(scope: Option<Id>, policy: Option<Policy>)
    | BlockHash(scope: Option<Id>, hash: Digest)
    | UnblockHash(scope: Option<Id>, hash: Digest)
    | EvictCache(hashes: set<Digest>)
    | AbandonAdmission
    | AbandonProcessing
    | AbandonDrain
    | AbandonWorker(k: nat)
    | Crash

  ghost predicate EnvironmentEnabled(w: World, e: Environment) {
    match e
    case Tick(to) => w.clock <= to
    case AttachDirectly(message, _, _) => message in w.db.messages
    case SetPolicy(_, _) => w.processing.Free?
    case BlockHash(_, _) => w.processing.Free? && w.admission.Free?
    case UnblockHash(_, _) => w.processing.Free?
    case AbandonAdmission => w.admission.Taken?
    case AbandonProcessing => w.processing.Taken?
    case AbandonDrain => w.publication.Taken? && w.publication.task.Draining?
    case AbandonWorker(k) => k in w.workers
    case _ => true
  }

  /** The critical sections of an abandoned task end; what it wrote stays. */
  function LeaveProcessing(w: World): World {
    w.(processing := Free, publication := if w.publication == Taken(ForFinish) then Free else w.publication)
  }

  function Note(db: Tables, upload: Option<Id>, what: Happening): Tables {
    db.(events := db.events + [Event(upload, what)])
  }

  ghost function EnvironmentStep(w: World, e: Environment): World
    requires EnvironmentEnabled(w, e)
  {
    match e
    case Tick(to) => w.(clock := to)
    case PostMessage(channel) =>
      w.(db := w.db.(messages := w.db.messages[w.nextId := channel]), nextId := w.nextId + 1)
    case RemoveMessages(doomed) => w.(db := DeleteMessages(w.db, doomed))
    case AttachDirectly(message, filename, bytes) =>
      var url := Local(w.db.messages[message], w.nextId, filename);
      w.(publicFiles := w.publicFiles[url := bytes],
         db := w.db.(attachments := w.db.attachments[w.nextId := Attachment(message, url)]),
         nextId := w.nextId + 1)
    case QueueUrls(urls) => w.(db := w.db.(deletions := w.db.deletions + urls))
    case SetPolicy(scope, policy) =>
      w.(policies := if policy.Some? then w.policies[scope := policy.value] else w.policies - {scope},
         db := Note(w.db, None, PolicyChanged))
    case BlockHash(scope, hash) =>
      w.(denylist := w.denylist + {(scope, hash)}, db := Note(w.db, None, DenylistChanged))
    case UnblockHash(scope, hash) =>
      w.(denylist := w.denylist - {(scope, hash)}, db := Note(w.db, None, DenylistChanged))
    case EvictCache(hashes) => w.(cache := w.cache - hashes)
    case AbandonAdmission => w.(admission := Free)
    case AbandonProcessing => LeaveProcessing(w)
    case AbandonDrain => w.(publication := Free)
    case AbandonWorker(k) => w.(workers := w.workers - {k})
    case Crash => w.(admission := Free, processing := Free, publication := Free, workers := map[])
  }

  // ---------------------------------------------------------------------------
  // Uploading a batch, and reaping what a crashed upload left
  // ---------------------------------------------------------------------------

  datatype Intake =
    | BatchStart(batch: Batch)
    | BatchAdmit
    | BatchPost
    | BatchOpen(partial: Bytes)
    | BatchWritten
    | BatchCommit(retentionDays: nat)
    | BatchFail
    | UndoFile(id: Id)
    | UndoMessage
    | ReapStart
    | ReapFind(id: Id)
    | ReapUnlink
    | ReapEnd

  ghost predicate IntakeEnabled(g: Settings, w: World, a: Intake) {
    if a.BatchStart? || a.ReapStart? then w.admission.Free?
    else
      w.admission.Taken? &&
      var task := w.admission.task;
      match a
      case BatchStart(_) => false
      case BatchAdmit =>
        && task.Preflighting?
        && HeldCount(w.db.uploads) + |task.batch.files| <= g.maxHeld
        && HeldBytes(w.db.uploads) + BatchBytes(task.batch.files) <= g.maxHeldBytes
      case BatchPost => task.Admitted?
      case BatchOpen(_) => task.Storing? && task.writing.None? && |task.stored| < |task.batch.files|
      case BatchWritten => task.Storing? && task.writing.Some? && |task.stored| < |task.batch.files|
      case BatchCommit(_) => task.Storing? && task.writing.None? && |task.stored| == |task.batch.files|
      case BatchFail => task.Storing?
      case UndoFile(id) => task.Undoing? && id in task.leftovers
      case UndoMessage => task.Undoing? && task.leftovers == {}
      case ReapStart => false
      case ReapFind(id) => task.Reaping? && task.target.None? && id in w.privateFiles && id !in w.db.uploads
      case ReapUnlink => task.Reaping? && task.target.Some?
      case ReapEnd => task.Reaping? && task.target.None?
  }

  function NewRow(g: Settings, w: World, task: AdmissionTask, retentionDays: nat, i: nat): (Id, Upload)
    requires task.Storing? && |task.stored| == |task.batch.files| && i < |task.stored|
  {
    var f := task.batch.files[i];
    (task.stored[i], Row((f.bytes, f.filename), g.hash(f.bytes), task.message, task.batch.channel, task.batch.space,
                         w.clock, w.clock + retentionDays * 86400))
  }

  function NewRows(g: Settings, w: World, task: AdmissionTask, retentionDays: nat): (rows: seq<(Id, Upload)>)
    requires task.Storing? && |task.stored| == |task.batch.files|
    ensures |rows| == |task.stored| && forall i :: 0 <= i < |rows| ==> rows[i] == NewRow(g, w, task, retentionDays, i)
  {
    seq(|task.stored|, i requires 0 <= i < |task.stored| => NewRow(g, w, task, retentionDays, i))
  }

  ghost function IntakeStep(g: Settings, w: World, a: Intake): World
    requires IntakeEnabled(g, w, a)
  {
    match a
    case BatchStart(batch) => w.(admission := Taken(Preflighting(batch)))
    case BatchAdmit => w.(admission := Taken(Admitted(w.admission.task.batch, w.tally)))
    case BatchPost =>
      var task := w.admission.task;
      w.(db := w.db.(messages := w.db.messages[w.nextId := task.batch.channel]), nextId := w.nextId + 1,
         admission := Taken(Storing(task.batch, task.budget, w.nextId, [], None)))
    case BatchOpen(partial) =>
      w.(privateFiles := w.privateFiles[w.nextId := partial], nextId := w.nextId + 1,
         admission := Taken(w.admission.task.(writing := Some(w.nextId))))
    case BatchWritten =>
      var task := w.admission.task;
      var id := task.writing.value;
      w.(privateFiles := w.privateFiles[id := task.batch.files[|task.stored|].bytes],
         admission := Taken(task.(stored := task.stored + [id], writing := None)))
    case BatchCommit(retentionDays) =>
      w.(db := InsertRows(w.db, NewRows(g, w, w.admission.task, retentionDays)),
         tally := TallyEnqueue(w.tally, w.admission.task.batch), admission := Free)
    case BatchFail =>
      var task := w.admission.task;
      w.(admission := Taken(Undoing(task.message, (set id | id in task.stored)
                                                  + if task.writing.Some? then {task.writing.value} else {})))
    case UndoFile(id) =>
      w.(privateFiles := w.privateFiles - {id},
         admission := Taken(w.admission.task.(leftovers := w.admission.task.leftovers - {id})))
    case UndoMessage => w.(db := DeleteMessages(w.db, {w.admission.task.message}), admission := Free)
    case ReapStart => w.(admission := Taken(Reaping(None)))
    case ReapFind(id) => w.(admission := Taken(Reaping(Some(id))))
    case ReapUnlink => w.(privateFiles := w.privateFiles - {w.admission.task.target.value}, admission := Taken(Reaping(None)))
    case ReapEnd => w.(admission := Free)
  }

  // ---------------------------------------------------------------------------
  // The worker, up to its decision
  // ---------------------------------------------------------------------------

  datatype Work =
    | Pick(k: nat, id: Id)
    | Claim(k: nat, ctx: Context)
    | ScanCached(k: nat)
    | ScanRead(k: nat)
    | ScanInfer(k: nat)
    | ScanFail(k: nat, noted: bool)

  ghost predicate WorkEnabled(g: Settings, w: World, a: Work) {
    match a
    case Pick(k, id) =>
      && w.processing.Free? && w.admission.Free? && k !in w.workers
      && id in w.db.uploads && w.db.uploads[id].status.Pending? && w.db.uploads[id].nextAttempt <= w.clock
    case Claim(k, ctx) => w.processing.Free? && k in w.workers && w.workers[k].Claiming? && ctx.now == w.clock
    case ScanCached(k) => k in w.workers && w.workers[k].Scanning? && w.workers[k].row.hash in w.cache
    case ScanRead(k) =>
      && k in w.workers && w.workers[k].Scanning? && w.workers[k].id in w.privateFiles
      && g.hash(w.privateFiles[w.workers[k].id]) == w.workers[k].row.hash
    case ScanInfer(k) =>
      k in w.workers && w.workers[k].Scanning? && w.workers[k].bytes.Some? && g.model(w.workers[k].bytes.value).Some?
    case ScanFail(k, _) => k in w.workers && w.workers[k].Scanning?
  }

  const RETRY_DELAY_SECS := 60

  /** A claim reloads the row; a row that is no longer pending is left alone. */
  function ClaimStep(w: World, k: nat, ctx: Context): World
    requires k in w.workers && w.workers[k].Claiming?
  {
    var id, scan := w.workers[k].id, w.workers[k].scan;
    if id !in w.db.uploads || !w.db.uploads[id].status.Pending? then w.(workers := w.workers - {k})
    else
      var row := w.db.uploads[id];
      var decision := Decide(SubjectOf(row), PolicyFor(w.policies, row.space), w.denylist, ctx, scan);
      if decision.ScanFirst? then w.(workers := w.workers[k := Scanning(id, row, None)])
      else w.(workers := w.workers - {k},
              processing := Taken(Finishing(FromWorker(ctx, scan), id, row, decision.status, Waiting)))
  }

  /** A failed scan touches the retry columns of a still pending row, and never its status. */
  function RetryLater(w: World, id: Id, noted: bool): Tables {
    var db := if id in w.db.uploads && w.db.uploads[id].status.Pending? then
                var row := w.db.uploads[id];
                w.db.(uploads := w.db.uploads[id := row.(attempts := row.attempts + 1,
                                                         nextAttempt := w.clock + RETRY_DELAY_SECS)])
              else w.db;
    if noted then Note(db, Some(id), ScanFailed) else db
  }

  function ScanFailStep(w: World, k: nat, noted: bool): World
    requires k in w.workers && w.workers[k].Scanning?
  {
    w.(workers := w.workers - {k}, db := RetryLater(w, w.workers[k].id, noted))
  }

  ghost function WorkStep(g: Settings, w: World, a: Work): World
    requires WorkEnabled(g, w, a)
  {
    match a
    case Pick(k, id) => w.(workers := w.workers[k := Claiming(id, None)])
    case Claim(k, ctx) => ClaimStep(w, k, ctx)
    case ScanCached(k) =>
      w.(workers := w.workers[k := Claiming(w.workers[k].id, Some(w.cache[w.workers[k].row.hash]))])
    case ScanRead(k) =>
      w.(workers := w.workers[k := w.workers[k].(bytes := Some(w.privateFiles[w.workers[k].id]))])
    case ScanInfer(k) =>
      var r := g.model(w.workers[k].bytes.value);
      w.(cache := w.cache[w.workers[k].row.hash := r.value], workers := w.workers[k := Claiming(w.workers[k].id, r)])
    case ScanFail(k, noted) => ScanFailStep(w, k, noted)
  }

  // ---------------------------------------------------------------------------
  // Review, and the common end of every decision
  // ---------------------------------------------------------------------------

  datatype Settle =
    | ReviewStart(id: Id, next: Status)
    | CopyOpen(partial: Bytes)
    | CopyDone
    | FinishEnter
    | FinishDivert
    | FinishRead(partial: Bytes)
    | FinishSaved
    | FinishDirect
    | FinishCommit
    | FinishUnlink(success: bool)
    | FinishLeave
    | Reschedule

  predicate MessageStands(db: Tables, row: Upload) {
    row.message in db.messages && db.messages[row.message] == row.channel
  }

  ghost predicate SettleEnabled(g: Settings, w: World, a: Settle) {
    if a.ReviewStart? then
      && w.processing.Free? && a.id in w.db.uploads
      && var row := w.db.uploads[a.id];
         && !row.status.Removed? && (row.status.Published? || row.expiresAt > w.clock)
         && !(row.status.Published? && a.next.Published?)
         && (row.status.Published? ==> a.id in w.db.attachments && w.db.attachments[a.id].url.Local?)
    else
      w.processing.Taken? &&
      var task := w.processing.task;
      match a
      case ReviewStart(_, _) => false
      case CopyOpen(_) => task.Copying? && task.bytes.None? && task.source in w.publicFiles
      case CopyDone => task.Copying? && task.bytes.Some?
      case FinishEnter => task.Finishing? && task.stage.Waiting? && w.publication.Free?
      case FinishDivert =>
        task.Finishing? && task.stage.Entered? && task.requested.Published? && !MessageStands(w.db, task.row)
      case FinishRead(_) =>
        && task.Finishing? && task.stage.Entered? && task.requested.Published? && MessageStands(w.db, task.row)
        && task.id in w.privateFiles && g.hash(w.privateFiles[task.id]) == task.row.hash
      case FinishSaved => task.Finishing? && task.stage.Saving?
      case FinishDirect => task.Finishing? && task.stage.Entered? && !task.requested.Published?
      case FinishCommit => task.Finishing? && task.stage.Ready?
      case FinishUnlink(_) => task.Finishing? && task.stage.Committed? && task.stage.unlink
      case FinishLeave => task.Finishing? && task.stage.Committed? && !task.stage.unlink
      case Reschedule => task.Rescheduling?
  }

  function At(task: ProcessingTask, stage: Stage): Lock<ProcessingTask>
    requires task.Finishing?
  {
    Taken(task.(stage := stage))
  }

  function ReviewTask(w: World, id: Id, next: Status): ProcessingTask
    requires id in w.db.uploads && (w.db.uploads[id].status.Published? ==> id in w.db.attachments)
  {
    var row := w.db.uploads[id];
    if row.status.Published? then Copying(id, row, next, w.db.attachments[id].url, None)
    else Finishing(FromReview, id, row, next, Waiting)
  }

  function VerdictOf(w: World, task: ProcessingTask): Judgement
    requires task.Finishing? && task.stage.Ready?
  {
    Judgement(task.id, task.row, task.stage.status, task.stage.published,
                    w.clock + PolicyFor(w.policies, task.row.space).retentionDays * 86400)
  }

  /** A refused transaction is an error: the task gives up and changes nothing. */
  function CommitStep(w: World): World
    requires w.processing.Taken? && w.processing.task.Finishing? && w.processing.task.stage.Ready?
  {
    var task := w.processing.task;
    var status := task.stage.status;
    var outcome := CommitDecision(w.db, VerdictOf(w, task));
    if outcome.None? then LeaveProcessing(w)
    else w.(db := outcome.value, tally := TallyCommit(w.tally, task.row, status),
            processing := At(task, Committed(status, status.Published? || status.Removed?)))
  }

  function LeaveStep(w: World): World
    requires w.processing.Taken? && w.processing.task.Finishing?
  {
    var task := w.processing.task;
    w.(publication := Free,
       processing := match task.origin
                     case FromWorker(_, _) => Free
                     case FromReview => if task.requested.Pending? then Taken(Rescheduling(task.id)) else Free
                     case FromCleanup(rest) => Taken(Expiring(rest)))
  }

  ghost function SettleStep(g: Settings, w: World, a: Settle): World
    requires SettleEnabled(g, w, a)
  {
    match a
    case ReviewStart(id, next) => w.(processing := Taken(ReviewTask(w, id, next)))
    case CopyOpen(partial) =>
      var task := w.processing.task;
      w.(privateFiles := w.privateFiles[task.id := partial],
         processing := Taken(task.(bytes := Some(w.publicFiles[task.source]))))
    case CopyDone =>
      var task := w.processing.task;
      w.(privateFiles := w.privateFiles[task.id := task.bytes.value],
         processing := Taken(Finishing(FromReview, task.id, task.row, task.next, Waiting)))
    case FinishEnter => w.(publication := Taken(ForFinish), processing := At(w.processing.task, Entered))
    case FinishDivert => w.(processing := At(w.processing.task, Ready(Quarantined, false)))
    case FinishRead(partial) =>
      var task := w.processing.task;
      w.(publicFiles := w.publicFiles[UrlOf(task.id, task.row) := partial],
         processing := At(task, Saving(w.privateFiles[task.id])))
    case FinishSaved =>
      var task := w.processing.task;
      w.(publicFiles := w.publicFiles[UrlOf(task.id, task.row) := task.stage.bytes],
         processing := At(task, Ready(Published, true)))
    case FinishDirect => w.(processing := At(w.processing.task, Ready(w.processing.task.requested, false)))
    case FinishCommit => CommitStep(w)
    case FinishUnlink(success) =>
      var task := w.processing.task;
      w.(privateFiles := if success then w.privateFiles - {task.id} else w.privateFiles,
         processing := At(task, Committed(task.stage.status, false)))
    case FinishLeave => LeaveStep(w)
    case Reschedule =>
      var id := w.processing.task.id;
      w.(db := if id in w.db.uploads then
                 w.db.(uploads := w.db.uploads[id := w.db.uploads[id].(nextAttempt := w.clock)]) else w.db,
         processing := Free)
  }

  // ---------------------------------------------------------------------------
  // Housekeeping: expiry, retried unlinks, and the deletion queue
  // ---------------------------------------------------------------------------

  datatype Housekeeping =
    | ExpireStart(due: set<Id>)
    | ExpireNext(id: Id)
    | SweepStart(due: set<Id>)
    | SweepUnlink(id: Id)
    | SweepMark
    | SweepEnd
    | DrainStart(urls: set<Url>)
    | DrainCheck
    | DrainUnlink(url: Url)
    | DrainForget(url: Url)
    | DrainEnd

  predicate Terminal(status: Status) { status.Published? || status.Removed? }

  function LiveUrls(db: Tables, rows: set<Url>): set<Url> {
    set i | i in db.attachments && db.attachments[i].url in rows :: db.attachments[i].url
  }

  predicate Unlinkable(task: PublicationTask, url: Url) {
    task.Draining? && task.live.Some? && url.Local? && url !in task.live.value
  }

  ghost predicate HousekeepingEnabled(w: World, a: Housekeeping) {
    match a
    case ExpireStart(due) =>
      && w.processing.Free?
      && forall id :: id in due ==> id in w.db.uploads && Held(w.db.uploads[id].status) && w.db.uploads[id].expiresAt <= w.clock
    case ExpireNext(id) => w.processing.Taken? && w.processing.task.Expiring? && id in w.processing.task.todo
    case SweepStart(due) =>
      && w.processing.Taken? && w.processing.task.Expiring? && w.processing.task.todo == map[]
      && forall id :: id in due ==> id in w.db.uploads && Terminal(w.db.uploads[id].status) && !w.db.uploads[id].fileRemoved
    case SweepUnlink(id) =>
      w.processing.Taken? && w.processing.task.Sweeping? && w.processing.task.unlinked.None? && id in w.processing.task.ids
    case SweepMark => w.processing.Taken? && w.processing.task.Sweeping? && w.processing.task.unlinked.Some?
    case SweepEnd => w.processing.Taken? && w.processing.task.Sweeping? && w.processing.task.ids == {}
    case DrainStart(urls) => w.publication.Free? && urls <= w.db.deletions
    case DrainCheck => w.publication.Taken? && w.publication.task.Draining? && w.publication.task.live.None?
    case DrainUnlink(url) =>
      w.publication.Taken? && Unlinkable(w.publication.task, url) && url in w.publication.task.rows
    case DrainForget(url) =>
      && w.publication.Taken? && w.publication.task.Draining? && w.publication.task.live.Some? && url in w.publication.task.rows
      && (Unlinkable(w.publication.task, url) ==> w.publication.task.unlinked == Some(url))
    case DrainEnd => w.publication.Taken? && w.publication.task.Draining? && w.publication.task.rows == {}
  }

  ghost function HousekeepingStep(w: World, a: Housekeeping): World
    requires HousekeepingEnabled(w, a)
  {
    match a
    case ExpireStart(due) => w.(processing := Taken(Expiring(map id | id in due :: w.db.uploads[id])))
    case ExpireNext(id) =>
      var todo := w.processing.task.todo;
      w.(processing := Taken(Finishing(FromCleanup(todo - {id}), id, todo[id], Removed, Waiting)))
    case SweepStart(due) => w.(processing := Taken(Sweeping(due, None)))
    case SweepUnlink(id) =>
      w.(privateFiles := w.privateFiles - {id}, processing := Taken(w.processing.task.(unlinked := Some(id))))
    case SweepMark =>
      var id := w.processing.task.unlinked.value;
      w.(db := if id in w.db.uploads then
                 w.db.(uploads := w.db.uploads[id := w.db.uploads[id].(fileRemoved := true)]) else w.db,
         processing := Taken(Sweeping(w.processing.task.ids - {id}, None)))
    case SweepEnd => w.(processing := Free)
    case DrainStart(urls) => w.(publication := Taken(Draining(urls, None, None)))
    case DrainCheck =>
      w.(publication := Taken(w.publication.task.(live := Some(LiveUrls(w.db, w.publication.task.rows)))))
    case DrainUnlink(url) =>
      w.(publicFiles := w.publicFiles - {url}, publication := Taken(w.publication.task.(unlinked := Some(url))))
    case DrainForget(url) =>
      w.(db := w.db.(deletions := w.db.deletions - {url}),
         publication := Taken(w.publication.task.(rows := w.publication.task.rows - {url})))
    case DrainEnd => w.(publication := Free)
  }

  // ---------------------------------------------------------------------------
  // Runs
  // ---------------------------------------------------------------------------

  datatype Move = Env(e: Environment) | In(i: Intake) | Do(work: Work) | Fin(s: Settle) | Keep(h: Housekeeping)

  ghost predicate Enabled(g: Settings, w: World, a: Move) {
    match a
    case Env(e) => EnvironmentEnabled(w, e)
    case In(i) => IntakeEnabled(g, w, i)
    case Do(work) => WorkEnabled(g, w, work)
    case Fin(s) => SettleEnabled(g, w, s)
    case Keep(h) => HousekeepingEnabled(w, h)
  }

  ghost function Step(g: Settings, w: World, a: Move): World
    requires Enabled(g, w, a)
  {
    match a
    case Env(e) => EnvironmentStep(w, e)
    case In(i) => IntakeStep(g, w, i)
    case Do(work) => WorkStep(g, w, work)
    case Fin(s) => SettleStep(g, w, s)
    case Keep(h) => HousekeepingStep(w, h)
  }

  ghost predicate OwnUrls(attachments: map<Id, Attachment>) {
    forall id :: id in attachments && attachments[id].url.Local? ==> attachments[id].url.attachment == id
  }

  /** A server that has not seen an upload yet; files, messages and settings are arbitrary. */
  ghost predicate Initial(w: World) {
    && w.db.uploads == map[] && w.db.events == []
    && w.cache == map[] && w.workers == map[]
    && w.admission.Free? && w.processing.Free? && w.publication.Free?
    && (forall id :: id in w.privateFiles ==> id < w.nextId)
    && (forall id :: id in w.db.messages ==> id < w.nextId)
    && (forall id :: id in w.db.attachments ==> id < w.nextId) && OwnUrls(w.db.attachments)
    && w.tally == Tally(0, 0, 0, 0, 0, 0, 0, 0)
  }

  ghost predicate StepsAt(g: Settings, worlds: seq<World>, actions: seq<Move>, i: nat)
    requires |worlds| == |actions| + 1 && i < |actions|
  {
    Enabled(g, worlds[i], actions[i]) && worlds[i + 1] == Step(g, worlds[i], actions[i])
  }

  ghost predicate IsRun(g: Settings, worlds: seq<World>, actions: seq<Move>) {
    && |worlds| == |actions| + 1
    && Initial(worlds[0])
    && forall i: nat :: i < |actions| ==> StepsAt(g, worlds, actions, i)
  }
}
