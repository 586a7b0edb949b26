/** Failed deliveries: which statements, when the database does not execute them, lose an event for good, and
    which leave it to be delivered again. Statement 0 marks the event, statement 1 looks for its row, the writes
    follow, and the last takes the mark back if something failed. */
module Redelivery {
  import opened Wrappers
  import opened Mapping
  import opened Replica
  import opened ReplicaTheorems
  import opened ReplicaEffects
  import Inbox

  // ---------------------------------------------------------------------------
  // Marks
  // ---------------------------------------------------------------------------

  lemma PerformKeepsMarks(db: Tables, w: Write)
    ensures Perform(db, w).dedup == db.dedup
  {
  }

  lemma {:induction false} ExecAllKeepsMarks(s: Store, ws: seq<Write>)
    ensures ExecAll(s, ws).db.dedup == s.db.dedup
  {
    if ws != [] {
      ExecAllKeepsMarks(s, ws[..|ws| - 1]);
      PerformKeepsMarks(ExecAll(s, ws[..|ws| - 1]).db, ws[|ws| - 1]);
    }
  }

  lemma ApplyKeepsMarks(sv: Server, s: Store, peer: string, env: Envelope)
    ensures Apply(sv, s, peer, env).db.dedup == s.db.dedup
  {
    var plan := PlanOf(sv, s.db, peer, env);
    if plan.Act? {
      ExecAllKeepsMarks(s, plan.writes);
      ExecAllKeepsMarks(Look(s), plan.writes);
    }
  }

  lemma MarksStay(sv: Server, db: Tables, d: Delivery, env: Envelope)
    requires Seen(db, env)
    ensures Seen(After(sv, db, d).0, env)
    ensures d.env == env ==> After(sv, db, d).0 == db
  {
    if !Seen(db, d.env) {
      ApplyKeepsMarks(sv, Start(db, d), d.peer, d.env);
    }
  }

  /** A marked event is marked for good: whatever else is delivered in between and whatever fails, delivering it
      changes nothing. */
  lemma {:induction false} MarkedIsLeftAlone(sv: Server, ds: seq<Delivery>, dbs: seq<Tables>, n: nat, env: Envelope)
    requires IsRun(sv, ds, dbs) && n < |dbs| && Seen(dbs[0], env)
    ensures Seen(dbs[n], env)
    ensures n < |ds| && ds[n].env == env ==> dbs[n + 1] == dbs[n]
  {
    if n > 0 {
      MarkedIsLeftAlone(sv, ds, dbs, n - 1, env);
      MarksStay(sv, dbs[n - 1], ds[n - 1], env);
    }
    if n < |ds| {
      MarksStay(sv, dbs[n], ds[n], env);
    }
  }

  /** An event that was acknowledged is never applied again. */
  lemma AcknowledgedOnce(sv: Server, db: Tables, d: Delivery, again: Delivery)
    requires again.env == d.env && again.peer == d.peer && After(sv, db, d).1.Acknowledged?
    ensures var t := After(sv, db, d).0;
            After(sv, t, again) == (t, if 0 in again.failing then Failed else Acknowledged)
  {
    ApplyKeepsMarks(sv, Start(db, d), d.peer, d.env);
  }

  // ---------------------------------------------------------------------------
  // The three endings of a first delivery
  // ---------------------------------------------------------------------------

  /** Every write was executed, or there was nothing to write. */
  ghost predicate Complete(sv: Server, db: Tables, d: Delivery) {
    var plan := PlanOf(sv, db, d.peer, d.env);
    && Writing(sv, db, d).ok
    && (plan.Ignore? || (plan.Act? && plan.succeeds && ExecAll(Writing(sv, db, d), plan.writes).ok))
  }

  /** The row of the event could not be looked for, which the applier takes for a row it does not mirror. */
  predicate Overlooked(sv: Server, d: Delivery) {
    LooksUp(sv, d.peer, d.env) && 1 in d.failing && !d.env.event.EmojiRemove?
  }

  /** The statement that takes the mark back. */
  function Unmarking(sv: Server, db: Tables, d: Delivery): nat { Apply(sv, Start(db, d), d.peer, d.env).at }

  lemma ApplySucceeds(sv: Server, db: Tables, d: Delivery)
    ensures Apply(sv, Start(db, d), d.peer, d.env).ok <==> Complete(sv, db, d) || Overlooked(sv, d)
  {
    PlansIgnoreMarks(sv, db, Marked(db, d.env).dedup, d.peer, d.env);
  }

  /** A first delivery is acknowledged exactly if it was complete or overlooked. Otherwise it failed, and the
      event is open for another delivery exactly if it could not be marked or its mark could be taken back. An
      event that is neither complete nor open is lost, since a marked one is never applied. */
  lemma FirstDeliveryEnds(sv: Server, db: Tables, d: Delivery)
    requires Check(d.peer, d.env.origin, d.env.space) && !Seen(db, d.env)
    ensures var (t, r) := After(sv, db, d);
            var finished := Complete(sv, db, d) || Overlooked(sv, d);
            && (r.Acknowledged? <==> 0 !in d.failing && finished)
            && (Seen(t, d.env) <==> 0 !in d.failing && (finished || Unmarking(sv, db, d) in d.failing))
            && (0 in d.failing || (Overlooked(sv, d) && !Complete(sv, db, d)) ==> t == db.(dedup := t.dedup))
  {
    ApplySucceeds(sv, db, d);
    ApplyKeepsMarks(sv, Start(db, d), d.peer, d.env);
  }

  // ---------------------------------------------------------------------------
  // Where the writes stop
  // ---------------------------------------------------------------------------

  /** The first `k` writes are executed and the next is not. */
  ghost predicate StopsAt(s: Store, ws: seq<Write>, k: nat) {
    k < |ws| && ExecAll(s, ws[..k]).ok && !Exec(ExecAll(s, ws[..k]), ws[k]).ok
  }

  lemma {:induction false} CompleteCount(s: Store, ws: seq<Write>)
    requires s.ok && ExecAll(s, ws).ok
    ensures ExecAll(s, ws).at == s.at + |ws| && ExecAll(s, ws).failing == s.failing
  {
    if ws != [] {
      CompleteCount(s, ws[..|ws| - 1]);
    }
  }

  lemma StoppedAt(s: Store, ws: seq<Write>, k: nat)
    requires s.ok && StopsAt(s, ws, k)
    ensures !ExecAll(s, ws).ok && ExecAll(s, ws).at == s.at + k + 1 && ExecAll(s, ws).db == ExecAll(s, ws[..k]).db
  {
    CompleteCount(s, ws[..k]);
    assert ws == ws[..k + 1] + ws[k + 1..] && ws[..k + 1] == ws[..k] + [ws[k]];
    Inbox.RunMore(s, ws[..k], ws[k]);
    Inbox.RunThen(s, ws[..k + 1], ws[k + 1..]);
    Inbox.FailedStays(ExecAll(s, ws[..k + 1]), ws[k + 1..]);
  }

  /** The mark of an event whose writes stopped is taken back by the statement after the one that failed. */
  lemma UnmarkingFollows(sv: Server, db: Tables, d: Delivery, k: nat)
    requires PlanOf(sv, db, d.peer, d.env).Act? && Writing(sv, db, d).ok
    requires StopsAt(Writing(sv, db, d), PlanOf(sv, db, d.peer, d.env).writes, k)
    ensures !Complete(sv, db, d) && Unmarking(sv, db, d) == Writing(sv, db, d).at + k + 1
  {
    PlansIgnoreMarks(sv, db, Marked(db, d.env).dedup, d.peer, d.env);
    StoppedAt(Writing(sv, db, d), PlanOf(sv, db, d.peer, d.env).writes, k);
  }

  predicate NoneFails(failing: set<nat>, from: nat, to: nat) { forall j: nat :: from <= j < to ==> j !in failing }

  function Healthy(s: Store): Store { s.(failing := {}, ok := true) }

  lemma {:induction false} SameWhileHealthy(s: Store, ws: seq<Write>)
    requires s.ok && NoneFails(s.failing, s.at, s.at + |ws|)
    ensures ExecAll(s, ws) == ExecAll(Healthy(s), ws).(failing := s.failing) && ExecAll(Healthy(s), ws).failing == {}
    ensures ExecAll(s, ws).ok ==> ExecAll(s, ws).at == s.at + |ws|
  {
    if ws != [] {
      SameWhileHealthy(s, ws[..|ws| - 1]);
    }
  }

  lemma PartsRun(s: Store, ws: seq<Write>, k: nat)
    requires k <= |ws| && ExecAll(s, ws).ok
    ensures ExecAll(s, ws[..k]).ok
  {
    assert ws == ws[..k] + ws[k..];
    BothRun(s, ws[..k], ws[k..]);
  }

  /** Writes that the database would accept stop at the first it does not execute. */
  lemma AcceptableStops(s: Store, ws: seq<Write>, k: nat)
    requires s.ok && ExecAll(Healthy(s), ws).ok && k < |ws|
    requires NoneFails(s.failing, s.at, s.at + k) && s.at + k in s.failing
    ensures StopsAt(s, ws, k)
  {
    PartsRun(Healthy(s), ws, k);
    PrefixStops(s, ws[..k], ws[k]);
  }

  lemma PrefixStops(s: Store, ws: seq<Write>, w: Write)
    requires s.ok && ExecAll(Healthy(s), ws).ok
    requires NoneFails(s.failing, s.at, s.at + |ws|) && s.at + |ws| in s.failing
    ensures ExecAll(s, ws).ok && !Exec(ExecAll(s, ws), w).ok
  {
    HealthyRun(s, ws);
    ExecFails(ExecAll(s, ws), w);
  }

  lemma HealthyRun(s: Store, ws: seq<Write>)
    requires s.ok && ExecAll(Healthy(s), ws).ok && NoneFails(s.failing, s.at, s.at + |ws|)
    ensures var t := ExecAll(s, ws); t.ok && t.at == s.at + |ws| && t.failing == s.failing
  {
    SameWhileHealthy(s, ws);
  }

  lemma ExecFails(s: Store, w: Write)
    requires s.at in s.failing
    ensures !Exec(s, w).ok
  {
  }

  // ---------------------------------------------------------------------------
  // Failures of the database
  // ---------------------------------------------------------------------------

  /** A database that executes everything would have the event applied. */
  ghost predicate Acceptable(sv: Server, db: Tables, d: Delivery) {
    var plan := PlanOf(sv, db, d.peer, d.env);
    && Check(d.peer, d.env.origin, d.env.space) && !Seen(db, d.env)
    && plan.Act? && plan.succeeds && ExecAll(Healthy(Writing(sv, db, d)), plan.writes).ok
  }

  function WriteCount(sv: Server, db: Tables, d: Delivery): nat {
    var plan := PlanOf(sv, db, d.peer, d.env); if plan.Act? then |plan.writes| else 0
  }

  /** The number of statements of a delivery that succeeds. */
  function Statements(sv: Server, db: Tables, d: Delivery): nat { Writing(sv, db, d).at + WriteCount(sv, db, d) }

  lemma AllExecuted(sv: Server, db: Tables, d: Delivery)
    requires Acceptable(sv, db, d) && NoneFails(d.failing, 0, Statements(sv, db, d))
    ensures Complete(sv, db, d)
  {
    HealthyRun(Writing(sv, db, d), PlanOf(sv, db, d.peer, d.env).writes);
  }

  lemma LookupFails(sv: Server, db: Tables, d: Delivery)
    requires LooksUp(sv, d.peer, d.env) && 1 in d.failing
    ensures !Complete(sv, db, d) && Unmarking(sv, db, d) == 2
  {
  }

  lemma WriteFails(sv: Server, db: Tables, d: Delivery, k: nat)
    requires Acceptable(sv, db, d) && Writing(sv, db, d).ok && Writing(sv, db, d).at <= k < Statements(sv, db, d)
    requires NoneFails(d.failing, 0, k) && k in d.failing
    ensures !Complete(sv, db, d) && Unmarking(sv, db, d) == k + 1
  {
    var s, ws := Writing(sv, db, d), PlanOf(sv, db, d.peer, d.env).writes;
    var i := k - s.at;
    assert NoneFails(s.failing, s.at, s.at + i) && s.at + i in s.failing && i < |ws|;
    AcceptableStops(s, ws, i);
    UnmarkingFollows(sv, db, d, i);
  }

  /** An acceptable event is complete exactly if none of its statements fails; if the first that fails is `k`,
      the next takes the mark back. */
  lemma AcceptableIsComplete(sv: Server, db: Tables, d: Delivery, k: nat)
    requires Acceptable(sv, db, d) && 0 !in d.failing
    requires k <= Statements(sv, db, d) && NoneFails(d.failing, 0, k)
    ensures k == Statements(sv, db, d) ==> Complete(sv, db, d)
    ensures k < Statements(sv, db, d) && k in d.failing ==> !Complete(sv, db, d) && Unmarking(sv, db, d) == k + 1
  {
    if k == Statements(sv, db, d) {
      AllExecuted(sv, db, d);
    } else if k in d.failing {
      if k == 1 && LooksUp(sv, d.peer, d.env) {
        LookupFails(sv, db, d);
      } else {
        WriteFails(sv, db, d, k);
      }
    }
  }

  /** Nothing fails before statement `k`, and everything from there to the last. */
  predicate BreaksAt(failing: set<nat>, k: nat, last: nat) {
    NoneFails(failing, 0, k) && forall j: nat :: k <= j <= last ==> j in failing
  }

  /** A database that breaks at statement `k` for good loses an acceptable event exactly if it breaks after the
      mark and before the last write: then the mark cannot be taken back either. */
  lemma BrokenDatabase(sv: Server, db: Tables, d: Delivery, k: nat)
    requires Acceptable(sv, db, d) && BreaksAt(d.failing, k, Statements(sv, db, d))
    ensures var t := After(sv, db, d).0;
            && (Complete(sv, db, d) && k > 0 <==> k >= Statements(sv, db, d))
            && (!Seen(t, d.env) <==> k == 0)
            && (Seen(t, d.env) && !Complete(sv, db, d) <==> 0 < k < Statements(sv, db, d))
  {
    FirstDeliveryEnds(sv, db, d);
    if 0 < k < Statements(sv, db, d) {
      AcceptableIsComplete(sv, db, d, k);
    } else if k > 0 {
      AcceptableIsComplete(sv, db, d, Statements(sv, db, d));
    }
  }

  /** If only statement `k` fails, an acceptable event is lost exactly if that is the lookup whose failure reads
      like a missing row; any other failure leaves it to be delivered again. */
  lemma OneFailure(sv: Server, db: Tables, d: Delivery, k: nat)
    requires Acceptable(sv, db, d) && d.failing == {k}
    ensures var (t, r) := After(sv, db, d);
            var overlooked := k == 1 && LooksUp(sv, d.peer, d.env) && !d.env.event.EmojiRemove?;
            && (Seen(t, d.env) && !Complete(sv, db, d) <==> overlooked)
            && (overlooked ==> r.Acknowledged? && t == Marked(db, d.env))
            && (!Seen(t, d.env) <==> k < Statements(sv, db, d) && !overlooked)
  {
    FirstDeliveryEnds(sv, db, d);
    ApplyKeepsMarks(sv, Start(db, d), d.peer, d.env);
    if 0 < k < Statements(sv, db, d) {
      AcceptableIsComplete(sv, db, d, k);
    } else if k > 0 {
      AcceptableIsComplete(sv, db, d, Statements(sv, db, d));
    }
  }

  /** An event that is refused, by an applier or by a constraint, is open for another delivery when nothing fails. */
  lemma RefusedStaysOpen(sv: Server, db: Tables, d: Delivery)
    requires Check(d.peer, d.env.origin, d.env.space) && !Seen(db, d.env) && d.failing == {}
    ensures var (t, r) := After(sv, db, d);
            (Seen(t, d.env) <==> Complete(sv, db, d)) && (r.Acknowledged? <==> Complete(sv, db, d))
  {
    FirstDeliveryEnds(sv, db, d);
  }

  // ---------------------------------------------------------------------------
  // A message cut off from its channel's pointer
  // ---------------------------------------------------------------------------

  predicate NewPost(db: Tables, env: Envelope, p: Post) {
    && (env.event == MessageCreate(p) || env.event == DirectMessage(p))
    && p.channel in db.channels && p.id !in db.messages
  }

  function PostAuthor(sv: Server, db: Tables, peer: string, env: Envelope, p: Post): Option<Write> {
    if env.event.DirectMessage? then Some(UpsertUser(p.author.id, Profile(p.author, DomainOr(p.author.id, peer))))
    else Mirror(sv, db, peer, p.author)
  }

  function PostRow(db: Tables, peer: string, env: Envelope, p: Post): Message
    requires p.channel in db.channels
  {
    if env.event.DirectMessage? then MessageOf(db, peer, p).(space := None) else MessageOf(db, peer, p)
  }

  lemma PostPlan(sv: Server, db: Tables, d: Delivery, p: Post)
    requires Acceptable(sv, db, d) && NewPost(db, d.env, p)
    ensures PostAuthor(sv, db, d.peer, d.env, p).Some? && LooksUp(sv, d.peer, d.env) && DomainOf(p.author.id).Some?
    ensures PlanOf(sv, db, d.peer, d.env).writes
         == [PostAuthor(sv, db, d.peer, d.env, p).value, InsertMessage(p.id, PostRow(db, d.peer, d.env, p)),
             BumpChannel(p.channel, p.id)]
  {
  }

  lemma StrandedStops(sv: Server, db: Tables, d: Delivery, p: Post)
    requires Acceptable(sv, db, d) && NewPost(db, d.env, p)
    requires 0 !in d.failing && 1 !in d.failing && 2 !in d.failing && 3 !in d.failing && 4 in d.failing
    ensures var s := Writing(sv, db, d); s.at == 2 && s.ok && StopsAt(s, PlanOf(sv, db, d.peer, d.env).writes, 2)
  {
    PostPlan(sv, db, d, p);
    AcceptableStops(Writing(sv, db, d), PlanOf(sv, db, d.peer, d.env).writes, 2);
  }

  lemma StrandedEnds(sv: Server, db: Tables, d: Delivery, p: Post)
    requires Acceptable(sv, db, d) && NewPost(db, d.env, p)
    requires 0 !in d.failing && 1 !in d.failing && 2 !in d.failing && 3 !in d.failing && 4 in d.failing
    ensures After(sv, db, d).1.Failed? && (Seen(After(sv, db, d).0, d.env) <==> 5 in d.failing)
  {
    StrandedStops(sv, db, d, p);
    UnmarkingFollows(sv, db, d, 2);
    FirstDeliveryEnds(sv, db, d);
  }

  /** What such a delivery leaves behind. */
  lemma StrandedWrites(sv: Server, db: Tables, d: Delivery, p: Post)
    requires Acceptable(sv, db, d) && NewPost(db, d.env, p)
    requires 0 !in d.failing && 1 !in d.failing && 2 !in d.failing && 3 !in d.failing && 4 in d.failing
    ensures PostAuthor(sv, db, d.peer, d.env, p).Some?
    ensures var author, m := PostAuthor(sv, db, d.peer, d.env, p).value, PostRow(db, d.peer, d.env, p);
            var t := After(sv, db, d).0;
            && t == Perform(Perform(Marked(db, d.env), author), InsertMessage(p.id, m)).(dedup := t.dedup)
            && Applicable(Marked(db, d.env), author)
  {
    PostPlan(sv, db, d, p);
    StrandedStops(sv, db, d, p);
    StoppedAtThird(Writing(sv, db, d), PlanOf(sv, db, d.peer, d.env).writes);
    WritesLeft(sv, db, d);
  }

  lemma StoppedAtThird(s: Store, ws: seq<Write>)
    requires s.ok && |ws| == 3 && StopsAt(s, ws, 2)
    ensures ExecAll(s, ws).db == Perform(Perform(s.db, ws[0]), ws[1]) && Applicable(s.db, ws[0])
  {
    StoppedAt(s, ws, 2);
    assert ws[..2] == [ws[0], ws[1]];
    Inbox.RunTwo(s, ws[0], ws[1]);
  }

  lemma WritesLeft(sv: Server, db: Tables, d: Delivery)
    requires Acceptable(sv, db, d) && Writing(sv, db, d).ok && 0 !in d.failing
    ensures var t := After(sv, db, d).0;
            t == ExecAll(Writing(sv, db, d), PlanOf(sv, db, d.peer, d.env).writes).db.(dedup := t.dedup)
  {
    PlansIgnoreMarks(sv, db, Marked(db, d.env).dedup, d.peer, d.env);
  }

  /** The author can be mirrored a second time. */
  lemma AuthorAgain(sv: Server, db: Tables, t: Tables, peer: string, env: Envelope, p: Post)
    requires env.event == MessageCreate(p) || env.event == DirectMessage(p)
    requires DomainOf(p.author.id).Some? && PostAuthor(sv, db, peer, env, p).Some?
    requires Applicable(db, PostAuthor(sv, db, peer, env, p).value)
    requires t.users == Perform(db, PostAuthor(sv, db, peer, env, p).value).users
    ensures PostAuthor(sv, t, peer, env, p).Some? && Applicable(t, PostAuthor(sv, t, peer, env, p).value)
  {
    var w := PostAuthor(sv, db, peer, env, p).value;
    if env.event.MessageCreate? {
      MirrorAgain(sv, db, t, peer, p.author);
    }
    UserAgain(db, t, w);
  }

  lemma MirrorAgain(sv: Server, db: Tables, t: Tables, peer: string, u: UserRef)
    requires DomainOf(u.id).Some? && Mirror(sv, db, peer, u).Some?
    requires t.users == Perform(db, Mirror(sv, db, peer, u).value).users
    ensures Mirror(sv, t, peer, u) == Mirror(sv, db, peer, u) && u.id in t.users
  {
    LocalPartIsBare(u.id);
  }

  lemma LocalPartIsBare(id: string)
    requires DomainOf(id).Some?
    ensures LocalPart(id) != id
  {
  }

  lemma UserAgain(db: Tables, t: Tables, w: Write)
    requires IsUserRow(w) && Applicable(db, w) && t.users == Perform(db, w).users
    ensures Applicable(t, w)
  {
  }

  /** What is sent for a message that is known: the insert is among it and does nothing. */
  function KnownWrites(sv: Server, t: Tables, peer: string, env: Envelope, p: Post): seq<Write>
    requires p.channel in t.channels && PostAuthor(sv, t, peer, env, p).Some?
  {
    [PostAuthor(sv, t, peer, env, p).value, InsertMessage(p.id, PostRow(t, peer, env, p))]
  }

  lemma KnownIsComplete(sv: Server, t: Tables, d: Delivery, p: Post)
    requires 1 !in d.failing && 2 !in d.failing && 3 !in d.failing && LooksUp(sv, d.peer, d.env)
    requires p.id in t.messages && p.channel in t.channels && PostAuthor(sv, t, d.peer, d.env, p).Some?
    requires PlanOf(sv, t, d.peer, d.env) == Act(KnownWrites(sv, t, d.peer, d.env, p), true)
    requires Applicable(Marked(t, d.env), PostAuthor(sv, t, d.peer, d.env, p).value)
    ensures Complete(sv, t, d)
  {
    KnownWritten(Writing(sv, t, d), PostAuthor(sv, t, d.peer, d.env, p).value, p.id, PostRow(t, d.peer, d.env, p));
  }

  lemma KnownWritten(s: Store, author: Write, id: string, m: Message)
    requires s.ok && s.at !in s.failing && s.at + 1 !in s.failing
    requires IsUserRow(author) && Applicable(s.db, author) && id in s.db.messages
    ensures ExecAll(s, [author, InsertMessage(id, m)]).ok
  {
    Inbox.RunTwo(s, author, InsertMessage(id, m));
    UserRowWrites(s.db, author);
  }

  lemma StrandedRows(db: Tables, author: Write, p: Post, m: Message)
    requires IsUserRow(author) && p.id !in db.messages
    ensures var t := Perform(Perform(db, author), InsertMessage(p.id, m));
            t.messages == db.messages[p.id := m] && t.channels == db.channels && t.users == Perform(db, author).users
  {
    UserRowWrites(db, author);
    InsertWrites(Perform(db, author), p.id, m);
  }

  lemma UserRowWrites(db: Tables, w: Write)
    requires IsUserRow(w)
    ensures Perform(db, w) == db.(users := Perform(db, w).users)
  {
  }

  lemma InsertWrites(db: Tables, id: string, m: Message)
    requires id !in db.messages
    ensures Perform(db, InsertMessage(id, m)) == db.(messages := db.messages[id := m])
  {
  }

  /** A delivery of a new message that breaks off between storing it and moving its channel's pointer. */
  ghost predicate BreaksOff(sv: Server, db: Tables, d: Delivery, p: Post) {
    && Acceptable(sv, db, d) && NewPost(db, d.env, p)
    && 0 !in d.failing && 1 !in d.failing && 2 !in d.failing && 3 !in d.failing && 4 in d.failing
  }

  lemma StrandedMessage(sv: Server, db: Tables, d: Delivery, p: Post)
    requires BreaksOff(sv, db, d, p)
    ensures PostAuthor(sv, db, d.peer, d.env, p).Some? && DomainOf(p.author.id).Some? && LooksUp(sv, d.peer, d.env)
    ensures After(sv, db, d).1.Failed? && (Seen(After(sv, db, d).0, d.env) <==> 5 in d.failing)
    ensures var author, t := PostAuthor(sv, db, d.peer, d.env, p).value, After(sv, db, d).0;
            && t.messages == db.messages[p.id := PostRow(db, d.peer, d.env, p)] && t.channels == db.channels
            && Applicable(Marked(db, d.env), author) && t.users == Perform(Marked(db, d.env), author).users
  {
    PostPlan(sv, db, d, p);
    StrandedWrites(sv, db, d, p);
    StrandedEnds(sv, db, d, p);
    StrandedRows(Marked(db, d.env), PostAuthor(sv, db, d.peer, d.env, p).value, p, PostRow(db, d.peer, d.env, p));
  }

  lemma CreateAgain(sv: Server, db: Tables, t: Tables, peer: string, p: Post)
    requires p.channel in db.channels && t.channels == db.channels && p.id in t.messages
    requires var plan := PlanMessageCreate(sv, db, peer, p); plan.Act? && plan.succeeds
    requires Mirror(sv, t, peer, p.author).Some?
    ensures PlanMessageCreate(sv, t, peer, p)
         == Act([Mirror(sv, t, peer, p.author).value, InsertMessage(p.id, MessageOf(t, peer, p))], true)
  {
    assert StoreWrites(t, p.id, MessageOf(t, peer, p)) == [InsertMessage(p.id, MessageOf(t, peer, p))];
  }

  lemma DirectAgain(db: Tables, t: Tables, peer: string, p: Post)
    requires p.channel in db.channels && t.channels == db.channels && p.id in t.messages
    requires PlanDirectMessage(db, peer, p).Act?
    ensures PlanDirectMessage(t, peer, p)
         == Act([UpsertUser(p.author.id, Profile(p.author, DomainOr(p.author.id, peer))),
                 InsertMessage(p.id, MessageOf(t, peer, p).(space := None))], true)
  {
    var m := MessageOf(t, peer, p).(space := None);
    assert StoreWrites(t, p.id, m) == [InsertMessage(p.id, m)];
  }

  lemma PlanAgain(sv: Server, db: Tables, t: Tables, d: Delivery, p: Post)
    requires Acceptable(sv, db, d) && NewPost(db, d.env, p)
    requires p.id in t.messages && t.channels == db.channels && PostAuthor(sv, t, d.peer, d.env, p).Some?
    ensures PlanOf(sv, t, d.peer, d.env) == Act(KnownWrites(sv, t, d.peer, d.env, p), true)
  {
    if d.env.event.MessageCreate? {
      CreateAgain(sv, db, t, d.peer, p);
    } else {
      DirectAgain(db, t, d.peer, p);
    }
  }

  lemma AcknowledgedAgain(sv: Server, db: Tables, d: Delivery, again: Delivery, p: Post)
    requires BreaksOff(sv, db, d, p)
    requires again.env == d.env && again.peer == d.peer && again.failing == {}
    ensures After(sv, After(sv, db, d).0, again).1.Acknowledged?
  {
    StrandedMessage(sv, db, d, p);
    var t := After(sv, db, d).0;
    if !Seen(t, d.env) {
      AuthorAgain(sv, Marked(db, d.env), Marked(t, d.env), d.peer, d.env, p);
      PlanAgain(sv, db, t, d, p);
      KnownIsComplete(sv, t, again, p);
      FirstDeliveryEnds(sv, t, again);
    }
  }

  /** Such a delivery fails; the message is stored, and the pointer has not moved. Whatever is delivered about it
      after that, nothing moves the pointer any more: a redelivery that meets no failure is acknowledged all the
      same. */
  lemma StrandedMessageStays(sv: Server, db: Tables, d: Delivery, again: Delivery, p: Post)
    requires BreaksOff(sv, db, d, p) && again.env.event == d.env.event
    ensures var (t, r) := After(sv, db, d);
            && r.Failed? && (Seen(t, d.env) <==> 5 in d.failing)
            && t.messages == db.messages[p.id := PostRow(db, d.peer, d.env, p)] && t.channels == db.channels
    ensures var t := After(sv, db, d).0;
            && After(sv, t, again).0.messages == t.messages && After(sv, t, again).0.channels == db.channels
            && (again.env == d.env && again.peer == d.peer && again.failing == {} ==>
                  After(sv, t, again).1.Acknowledged?)
  {
    StrandedMessage(sv, db, d, p);
    KnownMessageStays(sv, After(sv, db, d).0, again, p);
    if again.env == d.env && again.peer == d.peer && again.failing == {} {
      AcknowledgedAgain(sv, db, d, again, p);
    }
  }
}
