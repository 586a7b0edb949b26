/** How the number and total size of held uploads move when one row changes. */
module HeldTotals {
  import opened Wrappers
  import opened Policies
  import opened Uploads
  import opened Lifecycle

  lemma {:induction false} SizeSumPick(uploads: map<Id, Upload>, ids: set<Id>, x: Id)
    requires ids <= uploads.Keys && x in ids
    ensures SizeSum(uploads, ids) == uploads[x].size + SizeSum(uploads, ids - {x})
    decreases ids
  {
    var id :| id in ids && SizeSum(uploads, ids) == uploads[id].size + SizeSum(uploads, ids - {id});
    if id != x {
      SizeSumPick(uploads, ids - {id}, x);
      SizeSumPick(uploads, ids - {x}, id);
      assert ids - {id} - {x} == ids - {x} - {id};
    }
  }

  lemma {:induction false} SizeSumSame(a: map<Id, Upload>, b: map<Id, Upload>, ids: set<Id>)
    requires ids <= a.Keys && ids <= b.Keys
    requires forall id :: id in ids ==> a[id].size == b[id].size
    ensures SizeSum(a, ids) == SizeSum(b, ids)
    decreases ids
  {
    if ids != {} {
      var id :| id in ids;
      SizeSumPick(a, ids, id);
      SizeSumPick(b, ids, id);
      SizeSumSame(a, b, ids - {id});
    }
  }

  function CountIf(b: bool): nat { if b then 1 else 0 }
  function SizeIf(b: bool, size: nat): nat { if b then size else 0 }

  predicate HeldIn(uploads: map<Id, Upload>, id: Id) {
    id in uploads && Held(uploads[id].status)
  }

  /** Writing one row, old or new, moves the totals by that row alone. */
  lemma HeldUpdate(uploads: map<Id, Upload>, id: Id, row: Upload)
    requires id in uploads ==> uploads[id].size == row.size
    ensures var next := uploads[id := row];
            && HeldCount(next) + CountIf(HeldIn(uploads, id)) == HeldCount(uploads) + CountIf(Held(row.status))
            && HeldBytes(next) + SizeIf(HeldIn(uploads, id), row.size) == HeldBytes(uploads) + SizeIf(Held(row.status), row.size)
  {
    var next := uploads[id := row];
    var others := HeldIds(uploads) - {id};
    assert HeldIds(next) - {id} == others;
    SizeSumSame(uploads, next, others);
    HeldSplit(uploads, id);
    HeldSplit(next, id);
  }

  lemma HeldSplit(uploads: map<Id, Upload>, id: Id)
    ensures HeldCount(uploads) == |HeldIds(uploads) - {id}| + CountIf(HeldIn(uploads, id))
    ensures HeldBytes(uploads) == SizeSum(uploads, HeldIds(uploads) - {id})
                                  + if HeldIn(uploads, id) then uploads[id].size else 0
  {
    if HeldIn(uploads, id) {
      SizeSumPick(uploads, HeldIds(uploads), id);
    } else {
      assert HeldIds(uploads) - {id} == HeldIds(uploads);
    }
  }

  function RowBytes(rows: seq<(Id, Upload)>): nat {
    if rows == [] then 0 else RowBytes(rows[..|rows| - 1]) + rows[|rows| - 1].1.size
  }

  ghost predicate NewPendingRows(db: Tables, rows: seq<(Id, Upload)>) {
    && (forall i :: 0 <= i < |rows| ==> rows[i].0 !in db.uploads && rows[i].1.status.Pending?)
    && (forall i, j :: 0 <= i < j < |rows| ==> rows[i].0 != rows[j].0)
  }

  /** The enqueue transaction changes no other table and no other row. */
  lemma {:induction false} InsertFrame(db: Tables, rows: seq<(Id, Upload)>, id: Id)
    requires forall i :: 0 <= i < |rows| ==> rows[i].0 != id
    ensures var next := InsertRows(db, rows);
            && next == db.(uploads := next.uploads)
            && (id in next.uploads <==> id in db.uploads)
            && (id in db.uploads ==> next.uploads[id] == db.uploads[id])
  {
    if rows != [] {
      assert rows[|rows| - 1].0 != id;
      InsertFrame(db, rows[..|rows| - 1], id);
    }
  }

  /** Each row it was given is there afterwards. */
  lemma {:induction false} InsertedRow(db: Tables, rows: seq<(Id, Upload)>, k: nat)
    requires k < |rows| && forall i, j :: 0 <= i < j < |rows| ==> rows[i].0 != rows[j].0
    ensures var next := InsertRows(db, rows);
            rows[k].0 in next.uploads && next.uploads[rows[k].0] == rows[k].1
  {
    if k < |rows| - 1 {
      assert rows[k].0 != rows[|rows| - 1].0;
      InsertedRow(db, rows[..|rows| - 1], k);
    }
  }

  /** It adds exactly the weight of its rows to the held totals. */
  lemma {:induction false} InsertedWeight(db: Tables, rows: seq<(Id, Upload)>)
    requires NewPendingRows(db, rows)
    ensures HeldCount(InsertRows(db, rows).uploads) == HeldCount(db.uploads) + |rows|
    ensures HeldBytes(InsertRows(db, rows).uploads) == HeldBytes(db.uploads) + RowBytes(rows)
  {
    if rows != [] {
      var init, last := rows[..|rows| - 1], rows[|rows| - 1];
      InsertedWeight(db, init);
      assert forall i :: 0 <= i < |init| ==> init[i].0 != last.0;
      InsertFrame(db, init, last.0);
      HeldUpdate(InsertRows(db, init).uploads, last.0, last.1);
    }
  }

  lemma {:induction false} NewRowsWeigh(g: Settings, w: World, task: AdmissionTask, retentionDays: nat, n: nat)
    requires task.Storing? && |task.stored| == |task.batch.files| && n <= |task.stored|
    ensures RowBytes(NewRows(g, w, task, retentionDays)[..n]) == BatchBytes(task.batch.files[..n])
  {
    if n > 0 {
      var rows := NewRows(g, w, task, retentionDays);
      NewRowsWeigh(g, w, task, retentionDays, n - 1);
      var files := task.batch.files;
      assert rows[..n][..n - 1] == rows[..n - 1] && rows[..n][n - 1] == rows[n - 1];
      assert files[..n][..n - 1] == files[..n - 1] && files[..n][n - 1] == files[n - 1];
      assert rows[n - 1] == NewRow(g, w, task, retentionDays, n - 1);
    }
  }
}
