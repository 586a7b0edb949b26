/** The tables AutoMod shares, and the transactions that change them. A transaction is one atomic
    function on `Tables`; the class at the end performs them statement by statement, as the server does. */
module Uploads {
  import opened Wrappers
  import opened Policies

  type Bytes = seq<bv8>

  /** Public URLs of stored files. The attachment ID is a path component, so URLs of different IDs differ. */
  datatype Url = Local(channel: Id, attachment: Id, filename: string) | Remote(address: string)

  datatype Upload = Upload(message: Id, channel: Id, space: Option<Id>, filename: string, size: nat, hash: Digest,
                           status: Status, expiresAt: int, nextAttempt: int, attempts: nat, fileRemoved: bool)

  datatype Attachment = Attachment(message: Id, url: Url)

  /** The append-only ledger. Events about something other than an upload carry no ID. */
  datatype Event = Event(upload: Option<Id>, what: Happening)
  datatype Happening = Became(status: Status) | ScanFailed | PolicyChanged | DenylistChanged

  datatype Tables = Tables(uploads: map<Id, Upload>, attachments: map<Id, Attachment>, messages: map<Id, Id>,
                           deletions: set<Url>, events: seq<Event>)

  predicate Held(status: Status) { status.Pending? || status.Quarantined? || status.Rejected? }

  function UrlOf(id: Id, row: Upload): Url { Local(row.channel, id, row.filename) }

  function SubjectOf(row: Upload): Subject { Subject(row.space, row.hash, row.expiresAt) }

  /** The columns a decision depends on. The scan retry columns may change without a lock. */
  predicate SameDecisionColumns(a: Upload, b: Upload) {
    && a.message == b.message && a.channel == b.channel && a.space == b.space && a.filename == b.filename
    && a.size == b.size && a.hash == b.hash && a.status == b.status && a.expiresAt == b.expiresAt
  }

  // ---------------------------------------------------------------------------
  // Transactions
  // ---------------------------------------------------------------------------

  /** The trigger on `attachments`: every deleted row queues its URL. */
  function DeleteAttachment(db: Tables, id: Id): Tables {
    if id in db.attachments then
      db.(attachments := db.attachments - {id}, deletions := db.deletions + {db.attachments[id].url})
    else db
  }

  /** Deleting messages cascades to their attachment rows, whose URLs the trigger queues. */
  function DeleteMessages(db: Tables, doomed: set<Id>): Tables {
    var gone := set i | i in db.attachments && db.attachments[i].message in doomed;
    db.(messages := db.messages - doomed,
        attachments := db.attachments - gone,
        deletions := db.deletions + set i | i in gone :: db.attachments[i].url)
  }

  function Row(file: (Bytes, string), hash: Digest, message: Id, channel: Id, space: Option<Id>, now: int, expires: int): Upload {
    Upload(message, channel, space, file.1, |file.0|, hash, Pending, expires, now, 0, false)
  }

  /** Everything `finish` has worked out before it opens its transaction. */
  datatype Judgement = Judgement(id: Id, row: Upload, status: Status, published: bool, expiry: int)

  function ExpiryAfter(v: Judgement): int {
    if v.row.status.Published? then v.expiry else v.row.expiresAt
  }

  function SetStatus(db: Tables, v: Judgement): Tables
    requires v.id in db.uploads
  {
    db.(uploads := db.uploads[v.id := db.uploads[v.id].(status := v.status, expiresAt := ExpiryAfter(v), fileRemoved := false)])
  }

  function Withdraw(db: Tables, v: Judgement): Tables {
    if v.row.status.Published? && !v.status.Published? then DeleteAttachment(db, v.id) else db
  }

  /** May the attachment row be inserted? Its message must exist in its channel and its key be free. */
  predicate CanInsert(db: Tables, v: Judgement) {
    v.row.message in db.messages && db.messages[v.row.message] == v.row.channel && v.id !in db.attachments
  }

  function Publish(db: Tables, v: Judgement): Tables {
    if v.published then db.(attachments := db.attachments[v.id := Attachment(v.row.message, UrlOf(v.id, v.row))]) else db
  }

  function Record(db: Tables, id: Id, status: Status): Tables {
    db.(events := db.events + [Event(Some(id), Became(status))])
  }

  /** The compare-and-set of the status column. */
  predicate StatusUnchanged(db: Tables, v: Judgement) {
    v.id in db.uploads && db.uploads[v.id].status == v.row.status
  }

  /** The decision transaction: all of it, or nothing (`None`). */
  function CommitDecision(db: Tables, v: Judgement): Option<Tables> {
    if !StatusUnchanged(db, v) then None
    else
      var withdrawn := Withdraw(SetStatus(db, v), v);
      if v.published && !CanInsert(withdrawn, v) then None
      else Some(Record(Publish(withdrawn, v), v.id, v.status))
  }

  /** The enqueue transaction: one pending row per stored file. */
  function InsertRows(db: Tables, rows: seq<(Id, Upload)>): Tables {
    if rows == [] then db
    else
      var before := InsertRows(db, rows[..|rows| - 1]);
      before.(uploads := before.uploads[rows[|rows| - 1].0 := rows[|rows| - 1].1])
  }

  // ---------------------------------------------------------------------------
  // The same, statement by statement on a connection
  // ---------------------------------------------------------------------------

  /** A database connection. `tx` is the transaction's private view; nothing reaches `committed` before `Commit`. */
  class Connection {
    var committed: Tables
    var tx: Tables

    constructor (db: Tables)
      ensures committed == db
    {
      committed, tx := db, db;
    }

    method Begin()
      modifies this`tx
      ensures tx == committed
    {
      tx := committed;
    }

    method Commit()
      modifies this`committed
      ensures committed == tx
    {
      committed := tx;
    }

    /** `UPDATE automod_uploads SET status … WHERE id=? AND status=?`; returns the rows affected. */
    method UpdateStatus(v: Judgement) returns (affected: nat)
      modifies this`tx
      ensures affected == if StatusUnchanged(old(tx), v) then 1 else 0
      ensures tx == if StatusUnchanged(old(tx), v) then SetStatus(old(tx), v) else old(tx)
    {
      affected := 0;
      if v.id in tx.uploads && tx.uploads[v.id].status == v.row.status {
        var expiresAt := if v.row.status.Published? then v.expiry else v.row.expiresAt;
        var row := tx.uploads[v.id].(status := v.status, expiresAt := expiresAt, fileRemoved := false);
        tx := tx.(uploads := tx.uploads[v.id := row]);
        affected := 1;
      }
    }

    /** The transaction at the end of `finish`. On any refusal it returns early and the view is dropped. */
    method Finish(v: Judgement) returns (ok: bool)
      modifies this
      ensures ok <==> CommitDecision(old(committed), v).Some?
      ensures committed == if ok then CommitDecision(old(committed), v).value else old(committed)
    {
      Begin();
      var affected := UpdateStatus(v);
      if affected != 1 {
        return false;
      }
      if v.row.status.Published? && !v.status.Published? {
        if v.id in tx.attachments {
          tx := tx.(deletions := tx.deletions + {tx.attachments[v.id].url}, attachments := tx.attachments - {v.id});
        }
      }
      if v.published {
        if v.row.message !in tx.messages || tx.messages[v.row.message] != v.row.channel || v.id in tx.attachments {
          return false;
        }
        tx := tx.(attachments := tx.attachments[v.id := Attachment(v.row.message, UrlOf(v.id, v.row))]);
      }
      tx := tx.(events := tx.events + [Event(Some(v.id), Became(v.status))]);
      Commit();
      return true;
    }

    /** The transaction of `enqueue`, once all its files are written. */
    method Enqueue(rows: seq<(Id, Upload)>)
      modifies this
      ensures committed == InsertRows(old(committed), rows)
    {
      Begin();
      for i := 0 to |rows|
        invariant tx == InsertRows(committed, rows[..i])
        invariant committed == old(committed)
      {
        assert rows[..i + 1][..i] == rows[..i];
        tx := tx.(uploads := tx.uploads[rows[i].0 := rows[i].1]);
      }
      assert rows[..|rows|] == rows;
      Commit();
    }

    /** Message deletion with its cascade, attachment row by attachment row. */
    method Delete(doomed: set<Id>)
      modifies this
      ensures committed == DeleteMessages(old(committed), doomed)
    {
      Begin();
      ghost var gone := set i | i in committed.attachments && committed.attachments[i].message in doomed;
      var rest := set i | i in tx.attachments && tx.attachments[i].message in doomed;
      while rest != {}
        invariant rest <= gone && committed == old(committed)
        invariant tx.attachments == committed.attachments - (gone - rest)
        invariant tx.deletions == committed.deletions + set i | i in gone - rest :: committed.attachments[i].url
        invariant tx == committed.(attachments := tx.attachments, deletions := tx.deletions)
        decreases rest
      {
        var i :| i in rest;
        tx := tx.(deletions := tx.deletions + {tx.attachments[i].url}, attachments := tx.attachments - {i});
        rest := rest - {i};
      }
      tx := tx.(messages := tx.messages - doomed);
      Commit();
    }
  }
}
