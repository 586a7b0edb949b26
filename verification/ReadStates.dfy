/** Read positions, the newest-message pointer of a channel, and what they say about unread channels.
    Message IDs are strings and compared as the database compares them. */
module ReadStates {
  import opened Wrappers
  import opened Text
  import Snowflake

  datatype ReadState = ReadState(lastRead: Option<string>, mentions: nat)

  datatype ChannelRow = ChannelRow(space: Option<string>, last: Option<string>)

  datatype Message = Message(channel: string, thread: Option<string>)

  /** `states` and `cooldowns` are keyed by user and channel, `members` by space and user. */
  datatype Tables = Tables(channels: map<string, ChannelRow>, messages: map<string, Message>,
                           states: map<(string, string), ReadState>, cooldowns: map<(string, string), int>,
                           members: set<(string, string)>, participants: set<(string, string)>)

  // ---------------------------------------------------------------------------
  // What one user sees of one channel
  // ---------------------------------------------------------------------------

  datatype Track = Track(read: Option<ReadState>, last: Option<string>)

  /** A stranded message was stored, but the statement that moves the pointer never came. */
  datatype Happening = Acked(id: string) | Mentioned | Posted(id: string) | Stranded(id: string) | Replied(id: string)

  /** The position a row stands for; a missing one comes before every ID. */
  function Position(read: Option<ReadState>): string {
    if read.Some? && read.value.lastRead.Some? then read.value.lastRead.value else ""
  }

  /** An upsert that never moves the position back and clears the mentions. */
  function Ack(read: Option<ReadState>, id: string): ReadState {
    if read.None? then ReadState(Some(id), 0)
    else ReadState(if Less(Position(read), id) then Some(id) else read.value.lastRead, 0)
  }

  function Mention(read: Option<ReadState>): ReadState {
    if read.None? then ReadState(None, 1) else read.value.(mentions := read.value.mentions + 1)
  }

  function Apply(t: Track, e: Happening): Track {
    match e
    case Acked(id) => t.(read := Some(Ack(t.read, id)))
    case Mentioned => t.(read := Some(Mention(t.read)))
    case Posted(id) => t.(last := Some(id))
    case Stranded(_) => t
    case Replied(_) => t
  }

  function Run(es: seq<Happening>): Track {
    if es == [] then Track(None, None) else Apply(Run(es[..|es| - 1]), es[|es| - 1])
  }

  predicate Unread(t: Track) {
    && t.last.Some?
    && (t.read.None? || t.read.value.lastRead.None? || Less(t.read.value.lastRead.value, t.last.value))
  }

  /** In whatever order and however often messages were acknowledged, the position is the greatest ID. */
  lemma {:induction false} AckKeepsTheMaximum(es: seq<Happening>)
    ensures forall i :: 0 <= i < |es| && es[i].Acked? ==> !Less(Position(Run(es).read), es[i].id)
    ensures Position(Run(es).read) == "" || Acked(Position(Run(es).read)) in es
  {
    if es != [] {
      var init, e := es[..|es| - 1], es[|es| - 1];
      AckKeepsTheMaximum(init);
      var before, after := Position(Run(init).read), Position(Run(es).read);
      assert after == if e.Acked? && Less(before, e.id) then e.id else before;
      forall i | 0 <= i < |es| && es[i].Acked?
        ensures !Less(after, es[i].id)
      {
        if i < |init| {
          assert es[i] == init[i];
          NotLessAfter(before, after, es[i].id);
        } else {
          LessIsTotal(e.id, e.id);
        }
      }
    }
  }

  lemma NotLessAfter(before: string, after: string, id: string)
    requires !Less(before, id) && (after == before || Less(before, after))
    ensures !Less(after, id)
  {
  }

  /** So two histories that acknowledge the same messages end at the same position. */
  lemma AckOrderIsIrrelevant(es: seq<Happening>, fs: seq<Happening>)
    requires forall id :: Acked(id) in es <==> Acked(id) in fs
    ensures Position(Run(es).read) == Position(Run(fs).read)
  {
    AckKeepsTheMaximum(es);
    AckKeepsTheMaximum(fs);
    var p, q := Position(Run(es).read), Position(Run(fs).read);
    LessIsTotal(p, q);
    if Acked(p) in es {
      assert Acked(p) in fs;
    }
    if Acked(q) in fs {
      assert Acked(q) in es;
    }
  }

  // ---------------------------------------------------------------------------
  // Unread channels
  // ---------------------------------------------------------------------------

  predicate TopLevel(e: Happening) { e.Posted? || e.Stranded? }

  /** Is there a top-level message after this position? */
  predicate NewerExists(es: seq<Happening>, position: string) {
    exists i :: 0 <= i < |es| && TopLevel(es[i]) && Less(position, es[i].id)
  }

  function Pointer(es: seq<Happening>): string { if Run(es).last.Some? then Run(es).last.value else "" }

  predicate PointerIsNewest(es: seq<Happening>) { !NewerExists(es, Pointer(es)) }

  lemma {:induction false} PointerWasPosted(es: seq<Happening>)
    ensures Run(es).last.Some? <==> exists i :: 0 <= i < |es| && es[i].Posted?
    ensures Run(es).last.Some? ==> Posted(Run(es).last.value) in es
  {
    if es != [] {
      PointerWasPosted(es[..|es| - 1]);
      assert es == es[..|es| - 1] + [es[|es| - 1]];
    }
  }

  lemma NotNewer(es: seq<Happening>, position: string, i: nat)
    requires PointerIsNewest(es) && i < |es| && TopLevel(es[i]) && Less(position, es[i].id)
    ensures Run(es).last.Some? && Less(position, Run(es).last.value)
  {
    assert !Less(Pointer(es), es[i].id);
    LessIsTotal(Pointer(es), es[i].id);
    if Pointer(es) != es[i].id {
      LessIsTransitive(position, es[i].id, Pointer(es));
    }
  }

  /** The pointer answers the question for every position exactly when it is at a greatest ID. */
  lemma PointerAnswers(es: seq<Happening>)
    ensures PointerIsNewest(es)
            <==> forall position :: NewerExists(es, position) ==> Run(es).last.Some? && Less(position, Run(es).last.value)
  {
    if PointerIsNewest(es) {
      forall position | NewerExists(es, position)
        ensures Run(es).last.Some? && Less(position, Run(es).last.value)
      {
        var i :| 0 <= i < |es| && TopLevel(es[i]) && Less(position, es[i].id);
        NotNewer(es, position, i);
      }
    } else {
      LessIsTotal(Pointer(es), Pointer(es));
    }
  }

  lemma NewerAfter(es: seq<Happening>, e: Happening, position: string)
    ensures NewerExists(es + [e], position) <==> NewerExists(es, position) || (TopLevel(e) && Less(position, e.id))
  {
    var fs := es + [e];
    assert fs[|es|] == e && forall i :: 0 <= i < |es| ==> fs[i] == es[i];
    if NewerExists(es, position) {
      var i :| 0 <= i < |es| && TopLevel(es[i]) && Less(position, es[i].id);
      assert TopLevel(fs[i]);
    }
    if TopLevel(e) && Less(position, e.id) {
      assert TopLevel(fs[|es|]);
    }
  }

  lemma RunAfter(es: seq<Happening>, e: Happening)
    ensures Run(es + [e]) == Apply(Run(es), e)
  {
    assert (es + [e])[..|es|] == es;
  }

  lemma PointerAfterPost(es: seq<Happening>, id: string)
    ensures PointerIsNewest(es + [Posted(id)]) <==> !NewerExists(es, id)
  {
    RunAfter(es, Posted(id));
    NewerAfter(es, Posted(id), id);
    LessIsTotal(id, id);
  }

  /** Posting keeps the pointer at a greatest ID exactly when the new ID does not come before it. Messages
      arriving from other servers can come in any order. */
  lemma PostKeepsPointer(es: seq<Happening>, id: string)
    requires PointerIsNewest(es)
    ensures PointerIsNewest(es + [Posted(id)]) <==> Run(es).last.None? || !Less(id, Run(es).last.value)
  {
    PointerAfterPost(es, id);
    PointerAnswers(es);
    PointerWasPosted(es);
    if Run(es).last.Some? {
      var k :| 0 <= k < |es| && es[k] == Posted(Run(es).last.value);
      assert TopLevel(es[k]);
    }
  }

  predicate Rising(es: seq<Happening>) {
    && (forall i, j :: 0 <= i < j < |es| && TopLevel(es[i]) && TopLevel(es[j]) ==> Less(es[i].id, es[j].id))
    && (forall i :: 0 <= i < |es| && TopLevel(es[i]) ==> es[i].id != "")
  }

  /** Is the newest top-level message a stranded one? */
  predicate EndsStranded(es: seq<Happening>) {
    es != [] && var e := es[|es| - 1]; e.Stranded? || (!e.Posted? && EndsStranded(es[..|es| - 1]))
  }

  lemma NothingAfterTheLast(es: seq<Happening>, e: Happening)
    requires Rising(es + [e]) && TopLevel(e)
    ensures !NewerExists(es, e.id) && Less(Pointer(es), e.id)
  {
    var fs := es + [e];
    assert fs[|es|] == e && forall i :: 0 <= i < |es| ==> fs[i] == es[i];
    forall i | 0 <= i < |es| && TopLevel(es[i])
      ensures Less(es[i].id, e.id) && !Less(e.id, es[i].id)
    {
      assert TopLevel(fs[i]) && TopLevel(fs[|es|]);
      LessIsTotal(es[i].id, e.id);
    }
    PointerWasPosted(es);
    if Run(es).last.Some? {
      var i :| 0 <= i < |es| && es[i] == Posted(Pointer(es));
      assert TopLevel(es[i]);
    } else {
      assert TopLevel(fs[|es|]);
    }
  }

  /** With rising IDs the pointer is at the newest message exactly unless that message was stranded: the next
      message that gets through puts it right. */
  lemma {:induction false} RisingPointerIsNewest(es: seq<Happening>)
    requires Rising(es)
    ensures PointerIsNewest(es) <==> !EndsStranded(es)
  {
    if es != [] {
      var init, e := es[..|es| - 1], es[|es| - 1];
      assert es == init + [e];
      RunAfter(init, e);
      if e.Posted? {
        NothingAfterTheLast(init, e);
        PointerAfterPost(init, e.id);
      } else if e.Stranded? {
        NothingAfterTheLast(init, e);
        NewerAfter(init, e, Pointer(init));
      } else {
        RisingPointerIsNewest(init);
        NewerAfter(init, e, Pointer(init));
      }
    }
  }

  /** With rising IDs a channel is unread exactly when a top-level message came after the read position:
      replies in threads, acknowledgements in any order and mentions make no difference. */
  lemma UnreadMeansNewer(es: seq<Happening>)
    requires Rising(es) && !EndsStranded(es)
    ensures Unread(Run(es)) <==> NewerExists(es, Position(Run(es).read))
  {
    RisingPointerIsNewest(es);
    PointerAnswers(es);
    PointerWasPosted(es);
    if Unread(Run(es)) {
      var i :| 0 <= i < |es| && es[i] == Posted(Run(es).last.value);
      assert TopLevel(es[i]);
    }
  }

  /** The n-th happening stores the message with the `ks[n]`-th generated ID. */
  ghost predicate PostsGenerated(es: seq<Happening>, h: Snowflake.History, ks: seq<nat>, digits: nat) {
    && |ks| == |es|
    && (forall i :: 0 <= i < |es| && TopLevel(es[i]) ==>
          ks[i] < |h.ids| && es[i].id == Decimal(h.ids[ks[i]]) && |es[i].id| == digits)
    && (forall i, j :: 0 <= i < j < |es| && TopLevel(es[i]) && TopLevel(es[j]) ==> ks[i] < ks[j])
  }

  /** Locally generated IDs of one length rise. */
  lemma GeneratedIdsRise(clock: Snowflake.Clock, h: Snowflake.History, es: seq<Happening>, ks: seq<nat>, digits: nat)
    requires Snowflake.Steady(clock) && Snowflake.IsHistory(clock, h) && Snowflake.Fits(h)
    requires PostsGenerated(es, h, ks, digits)
    ensures Rising(es)
  {
    forall i, j | 0 <= i < j < |es| && TopLevel(es[i]) && TopLevel(es[j])
      ensures Less(es[i].id, es[j].id)
    {
      Snowflake.IdsSortAsStrings(clock, h, ks[i], ks[j]);
    }
  }

  /** Where their length grows they need not: of two messages, one from before and one from after it, the
      second is noticed, and moves the position when it is acknowledged, exactly if its ID is ten times as great. */
  lemma UnreadAcrossRollover(clock: Snowflake.Clock, h: Snowflake.History, i: nat, j: nat, k: nat)
    requires Snowflake.Steady(clock) && Snowflake.IsHistory(clock, h) && Snowflake.Fits(h)
    requires Snowflake.Straddles(h, i, j, k)
    ensures var a, b := Decimal(h.ids[i]), Decimal(h.ids[j]);
            var noticed := 10 * h.ids[i] <= h.ids[j];
            && (Unread(Run([Posted(a), Acked(a), Posted(b)])) <==> noticed)
            && Position(Run([Posted(a), Acked(a), Posted(b), Acked(b)]).read) == if noticed then b else a
  {
    Snowflake.OrderAcrossRollover(clock, h, i, j, k);
    PostAckPost(Decimal(h.ids[i]), Decimal(h.ids[j]));
  }

  lemma PostAckPost(a: string, b: string)
    requires a != ""
    ensures Run([Posted(a), Acked(a), Posted(b)]) == Track(Some(ReadState(Some(a), 0)), Some(b))
    ensures Run([Posted(a), Acked(a), Posted(b), Acked(b)])
         == Track(Some(ReadState(Some(if Less(a, b) then b else a), 0)), Some(b))
  {
    RunAfter([], Posted(a));
    RunAfter([Posted(a)], Acked(a));
    RunAfter([Posted(a), Acked(a)], Posted(b));
    RunAfter([Posted(a), Acked(a), Posted(b)], Acked(b));
    assert [] + [Posted(a)] == [Posted(a)];
    assert [Posted(a)] + [Acked(a)] == [Posted(a), Acked(a)];
    assert [Posted(a), Acked(a)] + [Posted(b)] == [Posted(a), Acked(a), Posted(b)];
    assert [Posted(a), Acked(a), Posted(b)] + [Acked(b)] == [Posted(a), Acked(a), Posted(b), Acked(b)];
  }

  /** So a reader who is up to date in July 2031 sees the next message neither then nor by reading it. */
  lemma RolloverHidesAMessage()
    ensures var a, b := Decimal(Snowflake.ROLLOVER.ids[0]), Decimal(Snowflake.ROLLOVER.ids[1]);
            && !Unread(Run([Posted(a), Acked(a), Posted(b)]))
            && Position(Run([Posted(a), Acked(a), Posted(b), Acked(b)]).read) == a
  {
    Snowflake.DigitRollover();
    UnreadAcrossRollover(Snowflake.TickingClock, Snowflake.ROLLOVER, 0, 1, 18);
  }

  /** Out of order, a channel can look read although a newer message is waiting. */
  lemma OutOfOrderHidesAMessage()
    ensures var es := [Posted("2@b.example"), Posted("1@b.example"), Acked("1@b.example")];
            !Unread(Run(es)) && NewerExists(es, Position(Run(es).read))
  {
    var es := [Posted("2@b.example"), Posted("1@b.example"), Acked("1@b.example")];
    assert es[..2][..1] == es[..1] && es[..1] == [es[0]] && es[..1][..0] == [];
    assert Run(es[..1]) == Track(None, Some("2@b.example"));
    assert Run(es[..2]) == Track(None, Some("1@b.example"));
    assert Run(es) == Track(Some(ReadState(Some("1@b.example"), 0)), Some("1@b.example"));
    LessIsTotal("1@b.example", "1@b.example");
    assert TopLevel(es[0]) && Less("1@b.example", es[0].id);
  }

  // ---------------------------------------------------------------------------
  // The tables
  // ---------------------------------------------------------------------------

  function ViewOf(db: Tables, user: string, channel: string): Track {
    Track(if (user, channel) in db.states then Some(db.states[(user, channel)]) else None,
          if channel in db.channels then db.channels[channel].last else None)
  }

  predicate Visible(db: Tables, user: string, channel: string)
    requires channel in db.channels
  {
    match db.channels[channel].space
    case Some(space) => (space, user) in db.members
    case None => (channel, user) in db.participants
  }

  function UnreadChannels(db: Tables, user: string): set<string> {
    set c | c in db.channels && Visible(db, user, c) && Unread(ViewOf(db, user, c))
  }

  function Max(a: int, b: int): int { if a >= b then a else b }

  function CeilDiv(a: nat, b: nat): nat
    requires b > 0
  {
    (a + b - 1) / b
  }

  predicate Admitted(db: Tables, author: string, channel: string, cooldown: int, now: int) {
    (author, channel) in db.cooldowns ==> cooldown == 0 || db.cooldowns[(author, channel)] <= now - cooldown
  }

  predicate Storable(db: Tables, id: string, channel: string, thread: Option<string>) {
    id !in db.messages && channel in db.channels && (thread.Some? ==> thread.value in db.messages)
  }

  function Bump(db: Tables, channel: string, id: string): Tables {
    if channel in db.channels then db.(channels := db.channels[channel := db.channels[channel].(last := Some(id))]) else db
  }

  function Insert(db: Tables, id: string, channel: string, thread: Option<string>): Tables {
    db.(messages := db.messages[id := Message(channel, thread)])
  }

  function WithState(db: Tables, user: string, channel: string, row: ReadState): Tables {
    db.(states := db.states[(user, channel) := row])
  }

  /** What can happen to the tables. A message that is mirrored or made by the server itself takes two
      statements; `stops` says that the second was not reached. */
  datatype Call =
    | Acks(user: string, channel: string, id: string)
    | Mentions(user: string, channel: string)
    | Posts(id: string, channel: string, author: string, thread: Option<string>, cooldownMs: int, now: int)
    | Mirrors(id: string, channel: string, stops: bool)
    | Announces(id: string, channel: string, stops: bool)
    | Creates(channel: string, space: Option<string>)
    | Drops(channel: string)
    | Forgets(ids: set<string>)
    | Moves(members: set<(string, string)>, participants: set<(string, string)>)

  predicate Posting(db: Tables, call: Call)
    requires call.Posts?
  {
    && Admitted(db, call.author, call.channel, Max(call.cooldownMs, 0), call.now)
    && Storable(db, call.id, call.channel, call.thread)
  }

  function Stored(db: Tables, id: string, channel: string, thread: Option<string>, stops: bool): Tables {
    if thread.Some? || stops then Insert(db, id, channel, thread) else Bump(Insert(db, id, channel, thread), channel, id)
  }

  function Dropped(db: Tables, channel: string): Tables {
    db.(channels := db.channels - {channel},
        participants := (set p | p in db.participants && p.0 != channel),
        messages := map id | id in db.messages && db.messages[id].channel != channel :: db.messages[id],
        states := map k | k in db.states && k.1 != channel :: db.states[k],
        cooldowns := map k | k in db.cooldowns && k.1 != channel :: db.cooldowns[k])
  }

  function Step(db: Tables, call: Call): Tables {
    match call
    case Acks(u, c, id) => if c in db.channels then WithState(db, u, c, Ack(ViewOf(db, u, c).read, id)) else db
    case Mentions(u, c) => if c in db.channels then WithState(db, u, c, Mention(ViewOf(db, u, c).read)) else db
    case Posts(id, c, author, thread, _, now) =>
      if Posting(db, call) then Stored(db.(cooldowns := db.cooldowns[(author, c) := now]), id, c, thread, false) else db
    case Mirrors(id, c, stops) => if Storable(db, id, c, None) then Stored(db, id, c, None, stops) else db
    case Announces(id, c, stops) => if Storable(db, id, c, None) then Stored(db, id, c, None, stops) else db
    case Creates(c, space) => if c in db.channels then db else db.(channels := db.channels[c := ChannelRow(space, None)])
    case Drops(c) => Dropped(db, c)
    case Forgets(ids) => db.(messages := db.messages - ids)
    case Moves(members, participants) => db.(members := members, participants := participants)
  }

  // ---------------------------------------------------------------------------
  // The calls, statement by statement
  // ---------------------------------------------------------------------------

  datatype Outcome = Created | RateLimited(retryAfter: nat) | Refused

  datatype Arrival = New | Duplicate | Broken

  class Store {
    var db: Tables

    constructor (db: Tables)
      ensures this.db == db
    {
      this.db := db;
    }

    method AckChannel(user: string, channel: string, id: string) returns (ok: bool)
      modifies this
      ensures db == Step(old(db), Acks(user, channel, id)) && (ok <==> channel in old(db).channels)
    {
      if channel !in db.channels {
        return false;
      }
      var key := (user, channel);
      if key !in db.states {
        db := db.(states := db.states[key := ReadState(Some(id), 0)]);
      } else {
        var row := db.states[key];
        var current := if row.lastRead.Some? then row.lastRead.value else "";
        db := db.(states := db.states[key := ReadState(if Less(current, id) then Some(id) else row.lastRead, 0)]);
      }
      return true;
    }

    method IncrementMentionCount(user: string, channel: string) returns (ok: bool)
      modifies this
      ensures db == Step(old(db), Mentions(user, channel)) && (ok <==> channel in old(db).channels)
    {
      if channel !in db.channels {
        return false;
      }
      var key := (user, channel);
      var row := if key in db.states then db.states[key].(mentions := db.states[key].mentions + 1) else ReadState(None, 1);
      db := db.(states := db.states[key := row]);
      return true;
    }

    /** One transaction: the cooldown, the message, and for a top-level message the pointer. */
    method CreateMessage(id: string, channel: string, author: string, thread: Option<string>, cooldownMs: int, now: int)
      returns (r: Outcome)
      modifies this
      ensures db == Step(old(db), Posts(id, channel, author, thread, cooldownMs, now))
      ensures r.RateLimited? <==> !Admitted(old(db), author, channel, Max(cooldownMs, 0), now)
      ensures r.Created? <==> !r.RateLimited? && Storable(old(db), id, channel, thread)
      ensures r.RateLimited? ==> r.retryAfter == RetryAfter(old(db).cooldowns[(author, channel)], Max(cooldownMs, 0), now)
    {
      var cooldown := if cooldownMs >= 0 then cooldownMs else 0;
      var tx := db;
      var key := (author, channel);
      if key in tx.cooldowns && !(cooldown == 0 || tx.cooldowns[key] <= now - cooldown) {
        var wait := tx.cooldowns[key] + cooldown - now;
        return RateLimited(CeilDiv(Max(wait, 1), 1000));
      }
      tx := tx.(cooldowns := tx.cooldowns[key := now]);
      if id in tx.messages || channel !in tx.channels || (thread.Some? && thread.value !in tx.messages) {
        return Refused;
      }
      tx := tx.(messages := tx.messages[id := Message(channel, thread)]);
      if thread.None? {
        tx := tx.(channels := tx.channels[channel := tx.channels[channel].(last := Some(id))]);
      }
      db := tx;
      return Created;
    }

    /** A message that is stored already is passed over before anything else is looked at. */
    method InsertRemoteMessage(id: string, channel: string, stops: bool) returns (r: Arrival)
      modifies this
      ensures db == Step(old(db), Mirrors(id, channel, stops))
      ensures r.Duplicate? <==> id in old(db).messages
      ensures r.New? <==> Storable(old(db), id, channel, None) && !stops
    {
      if id in db.messages {
        return Duplicate;
      }
      if channel !in db.channels {
        return Broken;
      }
      db := db.(messages := db.messages[id := Message(channel, None)]);
      if stops {
        return Broken;
      }
      db := db.(channels := db.channels[channel := db.channels[channel].(last := Some(id))]);
      return New;
    }

    method CreateSystemMessage(id: string, channel: string, stops: bool) returns (ok: bool)
      modifies this
      ensures db == Step(old(db), Announces(id, channel, stops))
      ensures ok <==> Storable(old(db), id, channel, None) && !stops
    {
      if id in db.messages || channel !in db.channels {
        return false;
      }
      db := db.(messages := db.messages[id := Message(channel, None)]);
      if stops {
        return false;
      }
      db := db.(channels := db.channels[channel := db.channels[channel].(last := Some(id))]);
      return true;
    }
  }

  // ---------------------------------------------------------------------------
  // Slow mode
  // ---------------------------------------------------------------------------

  function RetryAfter(last: int, cooldown: int, now: int): nat { CeilDiv(Max(last + cooldown - now, 1), 1000) }

  /** The refused author is told the least number of seconds after which the same message is admitted. */
  lemma RetryAfterIsLeast(db: Tables, author: string, channel: string, cooldown: int, now: int, wait: nat)
    requires cooldown >= 0 && !Admitted(db, author, channel, cooldown, now)
    ensures Admitted(db, author, channel, cooldown, now + 1000 * wait)
            <==> wait >= RetryAfter(db.cooldowns[(author, channel)], cooldown, now)
  {
  }

  // ---------------------------------------------------------------------------
  // Runs
  // ---------------------------------------------------------------------------

  ghost predicate StepAt(calls: seq<Call>, dbs: seq<Tables>, i: nat)
    requires |dbs| == |calls| + 1 && i < |calls|
  {
    dbs[i + 1] == Step(dbs[i], calls[i])
  }

  ghost predicate IsRun(calls: seq<Call>, dbs: seq<Tables>) {
    |dbs| == |calls| + 1 && forall i: nat :: i < |calls| ==> StepAt(calls, dbs, i)
  }

  /** What a call means to one user's view of one channel. */
  function Meaning(db: Tables, call: Call, user: string, channel: string): seq<Happening> {
    match call
    case Acks(u, c, id) => if (u, c) == (user, channel) && c in db.channels then [Acked(id)] else []
    case Mentions(u, c) => if (u, c) == (user, channel) && c in db.channels then [Mentioned] else []
    case Posts(id, c, _, thread, _, _) =>
      if c == channel && Posting(db, call) then [if thread.None? then Posted(id) else Replied(id)] else []
    case Mirrors(id, c, stops) =>
      if c == channel && Storable(db, id, c, None) then [if stops then Stranded(id) else Posted(id)] else []
    case Announces(id, c, stops) =>
      if c == channel && Storable(db, id, c, None) then [if stops then Stranded(id) else Posted(id)] else []
    case Creates(_, _) => []
    case Drops(_) => []
    case Forgets(_) => []
    case Moves(_, _) => []
  }

  /** The happenings of a channel since it was last created. */
  function HistoryOf(calls: seq<Call>, dbs: seq<Tables>, user: string, channel: string, n: nat): seq<Happening>
    requires n <= |calls| <= |dbs|
  {
    if n == 0 || calls[n - 1] == Drops(channel) then []
    else HistoryOf(calls, dbs, user, channel, n - 1) + Meaning(dbs[n - 1], calls[n - 1], user, channel)
  }

  lemma StepMeans(db: Tables, call: Call, user: string, channel: string)
    requires call != Drops(channel)
    ensures var es, t := Meaning(db, call, user, channel), ViewOf(Step(db, call), user, channel);
            |es| <= 1 && t == if es == [] then ViewOf(db, user, channel) else Apply(ViewOf(db, user, channel), es[0])
  {
  }

  lemma RunThen(es: seq<Happening>, more: seq<Happening>)
    requires |more| <= 1
    ensures Run(es + more) == if more == [] then Run(es) else Apply(Run(es), more[0])
  {
    if more == [] {
      assert es + more == es;
    } else {
      assert more == [more[0]];
      RunAfter(es, more[0]);
    }
  }

  lemma StepContinues(db: Tables, call: Call, user: string, channel: string, es: seq<Happening>)
    requires call != Drops(channel) && ViewOf(db, user, channel) == Run(es)
    ensures ViewOf(Step(db, call), user, channel) == Run(es + Meaning(db, call, user, channel))
  {
    StepMeans(db, call, user, channel);
    RunThen(es, Meaning(db, call, user, channel));
  }

  lemma DropForgets(db: Tables, user: string, channel: string)
    ensures ViewOf(Step(db, Drops(channel)), user, channel) == Track(None, None)
  {
  }

  /** A channel nobody has written to or read. */
  predicate Untouched(db: Tables, user: string, channel: string) {
    ViewOf(db, user, channel) == Track(None, None) && forall id :: id in db.messages ==> db.messages[id].channel != channel
  }

  /** The tables show of a channel what its history says. */
  ghost predicate Shows(calls: seq<Call>, dbs: seq<Tables>, user: string, channel: string, n: nat)
    requires n <= |calls| < |dbs|
  {
    ViewOf(dbs[n], user, channel) == Run(HistoryOf(calls, dbs, user, channel, n))
  }

  lemma ShowsNext(calls: seq<Call>, dbs: seq<Tables>, user: string, channel: string, n: nat)
    requires IsRun(calls, dbs) && n < |calls| && Shows(calls, dbs, user, channel, n)
    ensures Shows(calls, dbs, user, channel, n + 1)
  {
    assert StepAt(calls, dbs, n);
    if calls[n] == Drops(channel) {
      DropForgets(dbs[n], user, channel);
    } else {
      StepContinues(dbs[n], calls[n], user, channel, HistoryOf(calls, dbs, user, channel, n));
    }
  }

  /** After any run of calls, by whoever and about whatever, the tables show of a channel what its history says. */
  lemma {:induction false} TablesFollowHistory(calls: seq<Call>, dbs: seq<Tables>, user: string, channel: string, n: nat)
    requires IsRun(calls, dbs) && n <= |calls| && Untouched(dbs[0], user, channel)
    ensures Shows(calls, dbs, user, channel, n)
  {
    if n > 0 {
      TablesFollowHistory(calls, dbs, user, channel, n - 1);
      ShowsNext(calls, dbs, user, channel, n - 1);
    }
  }

  predicate IsTopLevel(db: Tables, channel: string, id: string) {
    id in db.messages && db.messages[id] == Message(channel, None)
  }

  predicate Tells(es: seq<Happening>, id: string) { Posted(id) in es || Stranded(id) in es }

  lemma StepStores(db: Tables, call: Call, user: string, channel: string, id: string)
    requires call != Drops(channel)
    ensures IsTopLevel(Step(db, call), channel, id) ==> IsTopLevel(db, channel, id) || Tells(Meaning(db, call, user, channel), id)
    ensures Tells(Meaning(db, call, user, channel), id) ==> IsTopLevel(Step(db, call), channel, id)
    ensures !call.Forgets? && IsTopLevel(db, channel, id) ==> IsTopLevel(Step(db, call), channel, id)
  {
  }

  lemma DropDeletes(db: Tables, channel: string, id: string)
    ensures !IsTopLevel(Step(db, Drops(channel)), channel, id)
  {
  }

  lemma TellsThen(es: seq<Happening>, more: seq<Happening>, id: string)
    ensures Tells(es + more, id) <==> Tells(es, id) || Tells(more, id)
  {
  }

  predicate NoneDeleted(calls: seq<Call>, n: nat)
    requires n <= |calls|
  {
    forall k :: 0 <= k < n ==> !calls[k].Forgets?
  }

  /** The history tells of this message if it is stored at top level, and only then unless some were deleted. */
  ghost predicate TellsOf(calls: seq<Call>, dbs: seq<Tables>, user: string, channel: string, n: nat, id: string)
    requires n <= |calls| < |dbs|
  {
    var es := HistoryOf(calls, dbs, user, channel, n);
    && (IsTopLevel(dbs[n], channel, id) ==> Tells(es, id))
    && (NoneDeleted(calls, n) && Tells(es, id) ==> IsTopLevel(dbs[n], channel, id))
  }

  lemma TellsNext(calls: seq<Call>, dbs: seq<Tables>, user: string, channel: string, n: nat, id: string)
    requires IsRun(calls, dbs) && n < |calls| && TellsOf(calls, dbs, user, channel, n, id)
    ensures TellsOf(calls, dbs, user, channel, n + 1, id)
  {
    assert StepAt(calls, dbs, n);
    if calls[n] == Drops(channel) {
      DropDeletes(dbs[n], channel, id);
    } else {
      StepStores(dbs[n], calls[n], user, channel, id);
      TellsThen(HistoryOf(calls, dbs, user, channel, n), Meaning(dbs[n], calls[n], user, channel), id);
    }
  }

  /** The history tells of every top-level message that is stored, and of no other unless some were deleted. */
  lemma {:induction false} HistoryTellsWhatIsStored(calls: seq<Call>, dbs: seq<Tables>, user: string, channel: string,
                                                    n: nat, id: string)
    requires IsRun(calls, dbs) && n <= |calls| && Untouched(dbs[0], user, channel)
    ensures TellsOf(calls, dbs, user, channel, n, id)
  {
    if n > 0 {
      HistoryTellsWhatIsStored(calls, dbs, user, channel, n - 1, id);
      TellsNext(calls, dbs, user, channel, n - 1, id);
    }
  }

  /** After any run, a channel is among a user's unread ones exactly if the user sees it and its history has a
      top-level message newer than the position, as long as its IDs rise and the newest message is not stranded. */
  lemma UnreadChannelsAreExact(calls: seq<Call>, dbs: seq<Tables>, user: string, channel: string, n: nat)
    requires IsRun(calls, dbs) && n <= |calls| && Untouched(dbs[0], user, channel)
    requires var es := HistoryOf(calls, dbs, user, channel, n); Rising(es) && !EndsStranded(es)
    ensures channel in UnreadChannels(dbs[n], user)
            <==> && channel in dbs[n].channels && Visible(dbs[n], user, channel)
                 && NewerExists(HistoryOf(calls, dbs, user, channel, n), Position(ViewOf(dbs[n], user, channel).read))
  {
    TablesFollowHistory(calls, dbs, user, channel, n);
    UnreadMeansNewer(HistoryOf(calls, dbs, user, channel, n));
  }

  /** So it is among them exactly if such a message is stored, when none has been deleted. */
  lemma UnreadMeansStored(calls: seq<Call>, dbs: seq<Tables>, user: string, channel: string, n: nat)
    requires IsRun(calls, dbs) && n <= |calls| && Untouched(dbs[0], user, channel)
    requires var es := HistoryOf(calls, dbs, user, channel, n); Rising(es) && !EndsStranded(es)
    requires NoneDeleted(calls, n)
    ensures channel in UnreadChannels(dbs[n], user)
            <==> && channel in dbs[n].channels && Visible(dbs[n], user, channel)
                 && exists id :: IsTopLevel(dbs[n], channel, id) && Less(Position(ViewOf(dbs[n], user, channel).read), id)
  {
    UnreadChannelsAreExact(calls, dbs, user, channel, n);
    var es, position := HistoryOf(calls, dbs, user, channel, n), Position(ViewOf(dbs[n], user, channel).read);
    if NewerExists(es, position) {
      var i :| 0 <= i < |es| && TopLevel(es[i]) && Less(position, es[i].id);
      HistoryTellsWhatIsStored(calls, dbs, user, channel, n, es[i].id);
      assert es[i] in es;
    }
    forall id | IsTopLevel(dbs[n], channel, id) && Less(position, id)
      ensures NewerExists(es, position)
    {
      HistoryTellsWhatIsStored(calls, dbs, user, channel, n, id);
      var i :| 0 <= i < |es| && (es[i] == Posted(id) || es[i] == Stranded(id));
      assert TopLevel(es[i]);
    }
  }

  /** A mirrored message that was stranded stays so: its redelivery finds it stored and leaves the pointer. */
  lemma StrandedStays(db: Tables, id: string, channel: string, user: string, again: bool)
    requires Storable(db, id, channel, None)
    ensures var t := Step(db, Mirrors(id, channel, true));
            && Step(t, Mirrors(id, channel, again)) == t && IsTopLevel(t, channel, id)
            && ViewOf(t, user, channel) == ViewOf(db, user, channel)
  {
  }
}
