/** What an acknowledged event has done to the tables, apart from how its writes were planned. */
module ReplicaEffects {
  import opened Wrappers
  import opened Mapping
  import opened Replica
  import opened ReplicaTheorems
  import Inbox

  // ---------------------------------------------------------------------------
  // Plans and marks
  // ---------------------------------------------------------------------------

  lemma EmojiPlansIgnoreMarks(sv: Server, db: Tables, marks: set<(string, string)>, peer: string, e: Event)
    requires e.EmojiUpsert?
    ensures PlanEmojiUpsert(sv, db.(dedup := marks), peer, e) == PlanEmojiUpsert(sv, db, peer, e)
  {
    Inbox.SameRoles(db, db.(dedup := marks), e.id, e.roles);
  }

  lemma PostPlansIgnoreMarks(sv: Server, db: Tables, marks: set<(string, string)>, peer: string, p: Post)
    ensures PlanMessageCreate(sv, db.(dedup := marks), peer, p) == PlanMessageCreate(sv, db, peer, p)
  {
  }

  lemma DirectPlansIgnoreMarks(db: Tables, marks: set<(string, string)>, peer: string, p: Post)
    ensures PlanDirectMessage(db.(dedup := marks), peer, p) == PlanDirectMessage(db, peer, p)
  {
  }

  lemma MemberPlansIgnoreMarks(sv: Server, db: Tables, marks: set<(string, string)>, peer: string, space: Option<string>,
                               who: UserRef)
    ensures PlanMemberJoin(sv, db.(dedup := marks), peer, space, who) == PlanMemberJoin(sv, db, peer, space, who)
  {
  }

  lemma ReactionPlansIgnoreMarks(db: Tables, marks: set<(string, string)>, peer: string, e: Event)
    requires e.ReactionChange?
    ensures PlanReaction(db.(dedup := marks), peer, e) == PlanReaction(db, peer, e)
  {
  }

  lemma OtherPlansIgnoreMarks(sv: Server, db: Tables, marks: set<(string, string)>, peer: string, env: Envelope)
    requires !env.event.EmojiUpsert? && !env.event.MessageCreate? && !env.event.DirectMessage?
    requires !env.event.MemberJoin? && !env.event.ReactionChange?
    ensures PlanOf(sv, db.(dedup := marks), peer, env) == PlanOf(sv, db, peer, env)
  {
  }

  /** What an applier plans does not depend on the marks of seen events. */
  lemma PlansIgnoreMarks(sv: Server, db: Tables, marks: set<(string, string)>, peer: string, env: Envelope)
    ensures PlanOf(sv, db.(dedup := marks), peer, env) == PlanOf(sv, db, peer, env)
  {
    match env.event
    case EmojiUpsert(_, _, _, _, _, _) => EmojiPlansIgnoreMarks(sv, db, marks, peer, env.event);
    case MessageCreate(p) => PostPlansIgnoreMarks(sv, db, marks, peer, p);
    case DirectMessage(p) => DirectPlansIgnoreMarks(db, marks, peer, p);
    case MemberJoin(who) => MemberPlansIgnoreMarks(sv, db, marks, peer, env.space, who);
    case ReactionChange(_, _, _, _, _) => ReactionPlansIgnoreMarks(db, marks, peer, env.event);
    case _ => OtherPlansIgnoreMarks(sv, db, marks, peer, env);
  }

  // ---------------------------------------------------------------------------
  // Acknowledged events
  // ---------------------------------------------------------------------------

  /** An event seen for the first time was acknowledged, and not because looking for its row failed. */
  ghost predicate Applied(sv: Server, db: Tables, d: Delivery) {
    !Seen(db, d.env) && After(sv, db, d).1.Acknowledged? && 1 !in d.failing
  }

  /** Where the writes begin. */
  function Writing(sv: Server, db: Tables, d: Delivery): Store {
    if LooksUp(sv, d.peer, d.env) then Look(Start(db, d)) else Start(db, d)
  }

  ghost predicate Executed(sv: Server, db: Tables, d: Delivery, ws: seq<Write>) {
    var t := ExecAll(Writing(sv, db, d), ws); t.ok && After(sv, db, d).0 == t.db
  }

  lemma AppliedWrites(sv: Server, db: Tables, d: Delivery)
    requires Applied(sv, db, d)
    ensures Check(d.peer, d.env.origin, d.env.space) && Writing(sv, db, d).ok
    ensures var plan := PlanOf(sv, db, d.peer, d.env);
            if plan.Act? then plan.succeeds && Executed(sv, db, d, plan.writes)
            else plan.Ignore? && After(sv, db, d).0 == Marked(db, d.env)
  {
    PlansIgnoreMarks(sv, db, Marked(db, d.env).dedup, d.peer, d.env);
  }

  lemma OneExecuted(s: Store, w: Write)
    requires s.ok && ExecAll(s, [w]).ok
    ensures ExecAll(s, [w]).db == Perform(s.db, w)
  {
    Inbox.RunOne(s, w);
  }

  lemma TwoExecuted(s: Store, v: Write, w: Write)
    requires s.ok && ExecAll(s, [v, w]).ok
    ensures ExecAll(s, [v, w]).db == Perform(Perform(s.db, v), w)
  {
    Inbox.RunTwo(s, v, w);
  }

  lemma ThreeExecuted(s: Store, u: Write, v: Write, w: Write)
    requires s.ok && ExecAll(s, [u, v, w]).ok
    ensures ExecAll(s, [u, v, w]).db == Perform(Perform(Perform(s.db, u), v), w)
  {
    Inbox.RunThree(s, u, v, w);
  }

  lemma LastExecuted(s: Store, ws: seq<Write>)
    requires ws != [] && s.ok && ExecAll(s, ws).ok
    ensures ExecAll(s, ws).db == Perform(ExecAll(s, ws[..|ws| - 1]).db, ws[|ws| - 1])
  {
  }

  // ---------------------------------------------------------------------------
  // Messages
  // ---------------------------------------------------------------------------

  predicate Stored(db: Tables, t: Tables, p: Post, m: Message)
    requires p.channel in db.channels
  {
    && t.messages == db.messages[p.id := m]
    && t.channels == db.channels[p.channel := db.channels[p.channel].(last := Some(p.id))]
  }

  lemma PlannedMessage(sv: Server, db: Tables, peer: string, p: Post)
    requires var plan := PlanMessageCreate(sv, db, peer, p); plan.Ignore? || (plan.Act? && plan.succeeds)
    requires p.channel in db.channels && p.id !in db.messages
    ensures Mirror(sv, db, peer, p.author).Some?
    ensures PlanMessageCreate(sv, db, peer, p)
         == Act([Mirror(sv, db, peer, p.author).value, InsertMessage(p.id, MessageOf(db, peer, p)),
                 BumpChannel(p.channel, p.id)], true)
  {
  }

  lemma MirrorWritesTheAuthor(sv: Server, db: Tables, peer: string, u: UserRef, other: Tables)
    requires Mirror(sv, db, peer, u).Some?
    ensures var t := Perform(other, Mirror(sv, db, peer, u).value);
            && t == other.(users := t.users) && u.id in t.users
            && (Homed(u.id, peer) && !IsLocal(u.id, sv.domain) ==> t.users[u.id] == Profile(u, DomainOf(u.id).value))
  {
  }

  lemma PostWritten(db: Tables, t: Tables, p: Post, m: Message)
    requires p.channel in db.channels && p.id !in db.messages && m.channel == p.channel
    requires t.messages == db.messages && t.channels == db.channels
    ensures var u := Perform(Perform(t, InsertMessage(p.id, m)), BumpChannel(p.channel, p.id));
            Stored(db, u, p, m) && u.users == t.users
  {
  }

  /** A new message of a mirrored channel is stored as it was sent, under the channel's own space whatever the
      peer says, and is the channel's newest. Its author is known, by the peer's word if the peer is its home. */
  lemma AcknowledgedMessageIsStored(sv: Server, db: Tables, d: Delivery, p: Post)
    requires d.env.event == MessageCreate(p) && Applied(sv, db, d) && p.channel in db.channels && p.id !in db.messages
    ensures var t := After(sv, db, d).0;
            && Stored(db, t, p, Message(p.channel, db.channels[p.channel].space, p.author.id, p.content,
                                        None, p.replyTo, None, Some(d.peer)))
            && p.author.id in t.users
            && (Homed(p.author.id, d.peer) && !IsLocal(p.author.id, sv.domain) ==>
                  t.users[p.author.id] == Profile(p.author, DomainOf(p.author.id).value))
  {
    AppliedWrites(sv, db, d);
    PlannedMessage(sv, db, d.peer, p);
    var mirror, m := Mirror(sv, db, d.peer, p.author).value, MessageOf(db, d.peer, p);
    ThreeExecuted(Writing(sv, db, d), mirror, InsertMessage(p.id, m), BumpChannel(p.channel, p.id));
    MirrorWritesTheAuthor(sv, db, d.peer, p.author, Marked(db, d.env));
    PostWritten(db, Perform(Marked(db, d.env), mirror), p, m);
  }

  /** A new direct message of a mirrored channel is stored outside any space and is the channel's newest. Its
      author's profile is refreshed by the peer's word, whoever the peer is. */
  lemma AcknowledgedDirectMessageIsStored(sv: Server, db: Tables, d: Delivery, p: Post)
    requires d.env.event == DirectMessage(p) && Applied(sv, db, d) && p.channel in db.channels && p.id !in db.messages
    ensures var t := After(sv, db, d).0;
            && Stored(db, t, p, Message(p.channel, None, p.author.id, p.content, None, p.replyTo, None, Some(d.peer)))
            && DomainOf(p.author.id).Some?
            && t.users == db.users[p.author.id := Profile(p.author, DomainOf(p.author.id).value)]
  {
    AppliedWrites(sv, db, d);
    var upsert := UpsertUser(p.author.id, Profile(p.author, DomainOr(p.author.id, d.peer)));
    var m := MessageOf(db, d.peer, p).(space := None);
    assert PlanDirectMessage(db, d.peer, p) == Act([upsert, InsertMessage(p.id, m), BumpChannel(p.channel, p.id)], true);
    ThreeExecuted(Writing(sv, db, d), upsert, InsertMessage(p.id, m), BumpChannel(p.channel, p.id));
    PostWritten(db, Perform(Marked(db, d.env), upsert), p, m);
  }

  /** However often a stored message is delivered again, under whatever event ID and whatever fails: it stays as
      it is, and so does its channel. */
  lemma KnownMessageStays(sv: Server, db: Tables, d: Delivery, p: Post)
    requires (d.env.event == MessageCreate(p) || d.env.event == DirectMessage(p)) && p.id in db.messages
    ensures After(sv, db, d).0.messages == db.messages && After(sv, db, d).0.channels == db.channels
  {
    DeliverWrites(sv, db, d);
    var s := Start(db, d);
    var plan := PlanOf(sv, s.db, d.peer, d.env);
    ApplyRuns(sv, s, d.peer, d.env);
    if plan.Act? {
      KnownPlan(sv, s.db, d.peer, d.env, p);
      QuietWrites(s, plan.writes, p.id);
      QuietWrites(Look(s), plan.writes, p.id);
    }
  }

  predicate IsUserRow(w: Write) { w.UpsertUser? || w.EnsureUser? }

  /** A write that leaves messages and channels alone once this message is known. */
  predicate IsQuiet(w: Write, id: string) { IsUserRow(w) || (w.InsertMessage? && w.id == id) }

  predicate AllQuiet(ws: seq<Write>, id: string) { forall i :: 0 <= i < |ws| ==> IsQuiet(ws[i], id) }

  lemma KnownPlan(sv: Server, db: Tables, peer: string, env: Envelope, p: Post)
    requires (env.event == MessageCreate(p) || env.event == DirectMessage(p)) && p.id in db.messages
    ensures var plan := PlanOf(sv, db, peer, env); plan.Act? ==> AllQuiet(plan.writes, p.id)
  {
  }

  lemma {:induction false} QuietWrites(s: Store, ws: seq<Write>, id: string)
    requires id in s.db.messages && AllQuiet(ws, id)
    ensures ExecAll(s, ws).db.messages == s.db.messages && ExecAll(s, ws).db.channels == s.db.channels
  {
    if ws != [] {
      QuietWrites(s, ws[..|ws| - 1], id);
    }
  }

  function Edited(m: Message, content: Option<string>, editedAt: Option<string>): Message {
    m.(content := if content.Some? then content.value else m.content, edited := if editedAt.Some? then editedAt else m.edited)
  }

  /** An edit by the message's home changes the fields it names and nothing else; one by anybody else does
      nothing at all. */
  lemma AcknowledgedEdit(sv: Server, db: Tables, d: Delivery, id: string, content: Option<string>, editedAt: Option<string>)
    requires d.env.event == MessageUpdate(id, content, editedAt) && Applied(sv, db, d)
    ensures After(sv, db, d).0 == Marked(db, d.env).(messages :=
              if id in db.messages && db.messages[id].origin == Some(d.peer)
              then db.messages[id := Edited(db.messages[id], content, editedAt)] else db.messages)
  {
    AppliedWrites(sv, db, d);
    var s := Writing(sv, db, d);
    if id in db.messages && db.messages[id].origin == Some(d.peer) {
      EditRuns(s, id, content, editedAt);
    }
  }

  lemma EditRuns(s: Store, id: string, content: Option<string>, editedAt: Option<string>)
    requires s.ok && id in s.db.messages
    ensures var ws := (if content.Some? then [EditContent(id, content.value)] else [])
                      + (if editedAt.Some? then [EditStamp(id, editedAt.value)] else []);
            ExecAll(s, ws).ok ==>
              ExecAll(s, ws).db == s.db.(messages := s.db.messages[id := Edited(s.db.messages[id], content, editedAt)])
  {
    var ws := (if content.Some? then [EditContent(id, content.value)] else [])
              + (if editedAt.Some? then [EditStamp(id, editedAt.value)] else []);
    if content.Some? && editedAt.Some? {
      assert ws == [EditContent(id, content.value), EditStamp(id, editedAt.value)];
      Inbox.RunTwo(s, EditContent(id, content.value), EditStamp(id, editedAt.value));
    } else if content.Some? {
      assert ws == [EditContent(id, content.value)];
      Inbox.RunOne(s, EditContent(id, content.value));
    } else if editedAt.Some? {
      assert ws == [EditStamp(id, editedAt.value)];
      Inbox.RunOne(s, EditStamp(id, editedAt.value));
    } else {
      assert s.db.messages[id := s.db.messages[id]] == s.db.messages;
    }
  }

  /** A removal by the message's home takes the message and what hangs under it; by anybody else, nothing. */
  lemma AcknowledgedRemoval(sv: Server, db: Tables, d: Delivery, id: string)
    requires d.env.event == MessageRemove(id) && Applied(sv, db, d)
    ensures var t := After(sv, db, d).0;
            if id in db.messages && db.messages[id].origin == Some(d.peer)
            then id !in t.messages && t.messages.Keys == db.messages.Keys - Cascade(db.messages, {id})
            else t == Marked(db, d.env)
  {
    AppliedWrites(sv, db, d);
    if id in db.messages && db.messages[id].origin == Some(d.peer) {
      OneExecuted(Writing(sv, db, d), DeleteMessage(id));
      DeletedKeys(Marked(db, d.env), id);
    }
  }

  lemma DeletedKeys(db: Tables, id: string)
    requires id in db.messages
    ensures Deleted(db, id).messages.Keys == db.messages.Keys - Cascade(db.messages, {id}) && id !in Deleted(db, id).messages
  {
  }

  // ---------------------------------------------------------------------------
  // Reactions, members, emojis
  // ---------------------------------------------------------------------------

  function ReactionEnsure(peer: string, e: Event): Write
    requires e.ReactionChange?
  {
    EnsureUser(e.user, User(Some(DomainOr(e.user, peer)), e.user, e.user, None))
  }

  function ReactionChanges(e: Event): Write
    requires e.ReactionChange?
  {
    if e.add then AddReaction(e.id, e.user, e.emoji) else RemoveReaction(e.id, e.user, e.emoji)
  }

  /** Every user known before keeps the profile, and `user` has a row. */
  ghost predicate OnlyAdds(a: map<string, User>, b: map<string, User>, user: string) {
    b.Keys == a.Keys + {user} && forall u :: u in a ==> b[u] == a[u]
  }

  lemma EnsureOnlyAdds(db: Tables, peer: string, e: Event)
    requires e.ReactionChange?
    ensures var t := Perform(db, ReactionEnsure(peer, e)); t == db.(users := t.users) && OnlyAdds(db.users, t.users, e.user)
  {
  }

  lemma ChangeReacts(db: Tables, e: Event)
    requires e.ReactionChange?
    ensures Perform(db, ReactionChanges(e)) == db.(reactions :=
              if e.add then db.reactions + {(e.id, e.user, e.emoji)} else db.reactions - {(e.id, e.user, e.emoji)})
  {
  }

  /** A reaction to a mirrored message is there or gone; every user known before keeps the profile, and the
      one who reacted has a row. */
  lemma AcknowledgedReaction(sv: Server, db: Tables, d: Delivery)
    requires d.env.event.ReactionChange? && Applied(sv, db, d) && d.env.event.id in db.messages
    ensures var t, e := After(sv, db, d).0, d.env.event;
            && t == Marked(db, d.env).(users := t.users, reactions := t.reactions)
            && t.reactions == (if e.add then db.reactions + {(e.id, e.user, e.emoji)}
                               else db.reactions - {(e.id, e.user, e.emoji)})
            && OnlyAdds(db.users, t.users, e.user)
  {
    var e := d.env.event;
    ReactionWrites(sv, db, d);
    EnsureOnlyAdds(Marked(db, d.env), d.peer, e);
    ChangeReacts(Perform(Marked(db, d.env), ReactionEnsure(d.peer, e)), e);
  }

  lemma ReactionWrites(sv: Server, db: Tables, d: Delivery)
    requires d.env.event.ReactionChange? && Applied(sv, db, d) && d.env.event.id in db.messages
    ensures var e := d.env.event;
            After(sv, db, d).0 == Perform(Perform(Marked(db, d.env), ReactionEnsure(d.peer, e)), ReactionChanges(e))
  {
    var e := d.env.event;
    AppliedWrites(sv, db, d);
    assert PlanOf(sv, db, d.peer, d.env) == PlanReaction(db, d.peer, e);
    PlannedReaction(db, d.peer, e);
    TwoExecuted(Writing(sv, db, d), ReactionEnsure(d.peer, e), ReactionChanges(e));
  }

  lemma PlannedReaction(db: Tables, peer: string, e: Event)
    requires e.ReactionChange? && e.id in db.messages && !PlanReaction(db, peer, e).Reject?
    ensures PlanReaction(db, peer, e) == Act([ReactionEnsure(peer, e), ReactionChanges(e)], true)
  {
  }

  lemma PlannedMembership(sv: Server, db: Tables, peer: string, env: Envelope, user: string)
    requires env.space.Some? && env.space.value in db.spaces
    requires env.event == MemberLeave(user) || (env.event.MemberJoin? && env.event.who.id == user)
    ensures var plan := PlanOf(sv, db, peer, env);
            && !plan.Ignore?
            && (plan.Act? ==>
                  && plan.writes != []
                  && var last := plan.writes[|plan.writes| - 1];
                     if env.event.MemberJoin? then last.AddMember? && last.space == env.space.value && last.user == user
                     else last == RemoveMember(env.space.value, user))
  {
  }

  /** Memberships of mirrored spaces follow their home. */
  lemma AcknowledgedMembership(sv: Server, db: Tables, d: Delivery, user: string)
    requires Applied(sv, db, d) && d.env.space.Some? && d.env.space.value in db.spaces
    requires d.env.event == MemberLeave(user) || (d.env.event.MemberJoin? && d.env.event.who.id == user)
    ensures var t := After(sv, db, d).0;
            (d.env.space.value, user) in t.members <==> d.env.event.MemberJoin?
  {
    AppliedWrites(sv, db, d);
    PlannedMembership(sv, db, d.peer, d.env, user);
    var ws := PlanOf(sv, db, d.peer, d.env).writes;
    LastExecuted(Writing(sv, db, d), ws);
    LastWritesMembership(ExecAll(Writing(sv, db, d), ws[..|ws| - 1]).db, ws[|ws| - 1]);
  }

  lemma LastWritesMembership(db: Tables, w: Write)
    ensures w.AddMember? ==> (w.space, w.user) in Perform(db, w).members
    ensures w.RemoveMember? ==> (w.space, w.user) !in Perform(db, w).members
  {
  }

  /** The restrictions of an emoji that can be mirrored. */
  function Mirrored(db: Tables, emoji: string, roles: seq<string>): set<(string, string)> {
    set r | r in roles && r in db.roles :: (emoji, r)
  }

  lemma MirroredNext(db: Tables, emoji: string, init: seq<string>, last: string)
    ensures Mirrored(db, emoji, init + [last])
         == Mirrored(db, emoji, init) + if last in db.roles then {(emoji, last)} else {}
  {
  }

  lemma RoleWritten(t: Store, db: Tables, emoji: string, role: string)
    requires t.ok && ExecAll(t, RoleWrite(db, emoji, role)).ok
    ensures ExecAll(t, RoleWrite(db, emoji, role)).db
         == t.db.(emojiRoles := t.db.emojiRoles + if role in db.roles then {(emoji, role)} else {})
  {
    if role in db.roles {
      Inbox.RunOne(t, AddEmojiRole(emoji, role));
    } else {
      assert t.db.emojiRoles + {} == t.db.emojiRoles;
    }
  }

  /** If a row of statements succeeds, so does each part of it. */
  lemma BothRun(s: Store, a: seq<Write>, b: seq<Write>)
    requires ExecAll(s, a + b).ok
    ensures ExecAll(s, a).ok && ExecAll(s, a + b) == ExecAll(ExecAll(s, a), b)
  {
    Inbox.RunThen(s, a, b);
    if !ExecAll(s, a).ok {
      Inbox.FailedStays(ExecAll(s, a), b);
    }
  }

  lemma {:induction false} RolesWritten(s: Store, db: Tables, emoji: string, roles: seq<string>)
    requires ExecAll(s, RoleWrites(db, emoji, roles)).ok
    ensures ExecAll(s, RoleWrites(db, emoji, roles)).db
         == s.db.(emojiRoles := s.db.emojiRoles + Mirrored(db, emoji, roles))
  {
    if roles == [] {
      assert s.db.emojiRoles + Mirrored(db, emoji, []) == s.db.emojiRoles;
    } else {
      var init, last := roles[..|roles| - 1], roles[|roles| - 1];
      BothRun(s, RoleWrites(db, emoji, init), RoleWrite(db, emoji, last));
      RolesWritten(s, db, emoji, init);
      RoleWritten(ExecAll(s, RoleWrites(db, emoji, init)), db, emoji, last);
      MirroredNext(db, emoji, init, last);
      assert roles == init + [last];
      Associates(s.db.emojiRoles, Mirrored(db, emoji, init), if last in db.roles then {(emoji, last)} else {});
    }
  }

  lemma Associates(a: set<(string, string)>, b: set<(string, string)>, c: set<(string, string)>)
    ensures (a + b) + c == a + (b + c)
  {
  }

  /** An emoji of a mirrored space has the row its home sent, in the space it was first in, and is restricted
      to exactly the named roles that are mirrored, whatever it was restricted to before. */
  lemma AcknowledgedEmoji(sv: Server, db: Tables, d: Delivery)
    requires d.env.event.EmojiUpsert? && Applied(sv, db, d) && d.env.event.space in db.spaces
    ensures var t, e := After(sv, db, d).0, d.env.event;
            var space := if e.id in db.emojis then db.emojis[e.id].space else e.space;
            && t == Marked(db, d.env).(emojis := t.emojis, emojiRoles := t.emojiRoles)
            && t.emojis == db.emojis[e.id := Emoji(space, e.name, e.animated, e.image, Some(d.peer))]
            && (forall r :: (e.id, r) in t.emojiRoles <==> r in e.roles && r in db.roles)
            && (forall x, r :: x != e.id ==> ((x, r) in t.emojiRoles <==> (x, r) in db.emojiRoles))
  {
    EmojiWrites(sv, db, d);
    EmojiWritten(Marked(db, d.env), d.peer, d.env.event);
  }

  function EmojiFirst(peer: string, e: Event): seq<Write>
    requires e.EmojiUpsert?
  {
    [UpsertEmoji(e.id, Emoji(e.space, e.name, e.animated, e.image, Some(peer))), ClearEmojiRoles(e.id)]
  }

  function EmojiAfter(db: Tables, peer: string, e: Event): Tables
    requires e.EmojiUpsert?
  {
    var t := Perform(Perform(db, EmojiFirst(peer, e)[0]), EmojiFirst(peer, e)[1]);
    t.(emojiRoles := t.emojiRoles + Mirrored(db, e.id, e.roles))
  }

  lemma EmojiWritten(db: Tables, peer: string, e: Event)
    requires e.EmojiUpsert?
    ensures var t := EmojiAfter(db, peer, e);
            var space := if e.id in db.emojis then db.emojis[e.id].space else e.space;
            && t == db.(emojis := t.emojis, emojiRoles := t.emojiRoles)
            && t.emojis == db.emojis[e.id := Emoji(space, e.name, e.animated, e.image, Some(peer))]
            && (forall r :: (e.id, r) in t.emojiRoles <==> r in e.roles && r in db.roles)
            && (forall x, r :: x != e.id ==> ((x, r) in t.emojiRoles <==> (x, r) in db.emojiRoles))
  {
  }

  lemma EmojiWrites(sv: Server, db: Tables, d: Delivery)
    requires d.env.event.EmojiUpsert? && Applied(sv, db, d) && d.env.event.space in db.spaces
    ensures After(sv, db, d).0 == EmojiAfter(Marked(db, d.env), d.peer, d.env.event)
  {
    var e, s := d.env.event, Writing(sv, db, d);
    var first, roles := EmojiFirst(d.peer, e), RoleWrites(db, e.id, e.roles);
    AppliedWrites(sv, db, d);
    PlannedEmoji(sv, db, d.peer, e);
    assert PlanOf(sv, db, d.peer, d.env).writes == first + roles;
    BothRun(s, first, roles);
    TwoExecuted(s, first[0], first[1]);
    RolesWritten(ExecAll(s, first), db, e.id, e.roles);
  }

  lemma PlannedEmoji(sv: Server, db: Tables, peer: string, e: Event)
    requires e.EmojiUpsert? && e.space in db.spaces && !PlanEmojiUpsert(sv, db, peer, e).Reject?
    ensures PlanEmojiUpsert(sv, db, peer, e) == Act(EmojiFirst(peer, e) + RoleWrites(db, e.id, e.roles), true)
  {
  }
}
