/** What no inbound event can touch, whoever signed it and wherever it breaks off. */
module ReplicaTheorems {
  import opened Wrappers
  import opened Mapping
  import opened Replica
  import Inbox

  /** One delivery of an event, with the statements that fail in the course of it. */
  datatype Delivery = Delivery(peer: string, env: Envelope, failing: set<nat>)

  function After(sv: Server, db: Tables, d: Delivery): (Tables, Response) { Deliver(sv, db, d.failing, d.peer, d.env) }

  function Start(db: Tables, d: Delivery): Store { Store(Marked(db, d.env), d.failing, 1, true) }

  predicate Seen(db: Tables, env: Envelope) { (env.eventId, env.origin) in db.dedup }

  // ---------------------------------------------------------------------------
  // What a signer may write
  // ---------------------------------------------------------------------------

  /** Direct messages may refresh the profile of any remote author; only a removal deletes messages. */
  datatype Rights = Rights(refresh: bool, remove: bool)

  function RightsOf(e: Event): Rights { Rights(e.DirectMessage?, e.MessageRemove?) }

  ghost predicate Allowed(peer: string, rights: Rights, w: Write) {
    match w
    case UpsertUser(u, _) => RequireRemoteTarget(u) && (rights.refresh || Homed(u, peer))
    case EnsureUser(u, _) => RequireRemoteTarget(u)
    case InsertMessage(id, m) => Homed(id, peer) && m.origin == Some(peer)
    case BumpChannel(c, _) => Homed(c, peer)
    case EditContent(id, _) => Homed(id, peer)
    case EditStamp(id, _) => Homed(id, peer)
    case DeleteMessage(id) => rights.remove && Homed(id, peer)
    case AddMember(s, _, _) => Homed(s, peer)
    case RemoveMember(s, _) => Homed(s, peer)
    case AddReaction(id, _, _) => Homed(id, peer)
    case RemoveReaction(id, _, _) => Homed(id, peer)
    case UpsertEmoji(e, _) => Homed(e, peer)
    case ClearEmojiRoles(e) => Homed(e, peer)
    case AddEmojiRole(e, _) => Homed(e, peer)
    case DeleteEmoji(e) => Homed(e, peer)
  }

  ghost predicate AllAllowed(peer: string, rights: Rights, ws: seq<Write>) {
    forall i :: 0 <= i < |ws| ==> Allowed(peer, rights, ws[i])
  }

  ghost predicate PlanAllowed(peer: string, rights: Rights, plan: Plan) { plan.Act? ==> AllAllowed(peer, rights, plan.writes) }

  lemma {:induction false} RoleWritesAreAllowed(db: Tables, peer: string, emoji: string, roles: seq<string>, rights: Rights)
    requires Homed(emoji, peer)
    ensures AllAllowed(peer, rights, RoleWrites(db, emoji, roles))
  {
    if roles != [] {
      RoleWritesAreAllowed(db, peer, emoji, roles[..|roles| - 1], rights);
    }
  }

  lemma PostsAreAllowed(sv: Server, db: Tables, peer: string, p: Post)
    ensures PlanAllowed(peer, Rights(false, false), PlanMessageCreate(sv, db, peer, p))
  {
  }

  lemma DirectMessagesAreAllowed(db: Tables, peer: string, p: Post)
    ensures PlanAllowed(peer, Rights(true, false), PlanDirectMessage(db, peer, p))
  {
  }

  lemma EditsAreAllowed(db: Tables, peer: string, id: string, content: Option<string>, editedAt: Option<string>)
    ensures PlanAllowed(peer, Rights(false, false), PlanMessageUpdate(db, peer, id, content, editedAt))
  {
  }

  lemma RemovalsAreAllowed(db: Tables, peer: string, id: string)
    ensures PlanAllowed(peer, Rights(false, true), PlanMessageRemove(db, peer, id))
    ensures PlanAllowed(peer, Rights(false, false), PlanEmojiRemove(db, peer, id))
  {
  }

  lemma ReactionsAreAllowed(db: Tables, peer: string, e: Event)
    requires e.ReactionChange?
    ensures PlanAllowed(peer, Rights(false, false), PlanReaction(db, peer, e))
  {
  }

  lemma MembershipsAreAllowed(sv: Server, db: Tables, peer: string, space: Option<string>, who: UserRef, user: string)
    requires space.Some? ==> RequireHomedOn(space.value, peer)
    ensures PlanAllowed(peer, Rights(false, false), PlanMemberJoin(sv, db, peer, space, who))
    ensures PlanAllowed(peer, Rights(false, false), PlanMemberLeave(db, space, user))
  {
  }

  lemma EmojisAreAllowed(sv: Server, db: Tables, peer: string, e: Event)
    requires e.EmojiUpsert?
    ensures PlanAllowed(peer, Rights(false, false), PlanEmojiUpsert(sv, db, peer, e))
  {
    if Homed(e.id, peer) {
      RoleWritesAreAllowed(db, peer, e.id, e.roles, Rights(false, false));
    }
  }

  /** The appliers ask for nothing that is not the signer's. */
  lemma PlansAreAllowed(sv: Server, db: Tables, peer: string, env: Envelope)
    requires Check(peer, env.origin, env.space)
    ensures PlanAllowed(peer, RightsOf(env.event), PlanOf(sv, db, peer, env))
  {
    match env.event
    case MessageCreate(p) => PostsAreAllowed(sv, db, peer, p);
    case MessageUpdate(id, content, editedAt) => EditsAreAllowed(db, peer, id, content, editedAt);
    case MessageRemove(id) => RemovalsAreAllowed(db, peer, id);
    case ReactionChange(_, _, _, _, _) => ReactionsAreAllowed(db, peer, env.event);
    case MemberJoin(who) => MembershipsAreAllowed(sv, db, peer, env.space, who, who.id);
    case MemberLeave(user) => MembershipsAreAllowed(sv, db, peer, env.space, UserRef(user, None, None, None), user);
    case EmojiUpsert(_, _, _, _, _, _) => EmojisAreAllowed(sv, db, peer, env.event);
    case EmojiRemove(id) => RemovalsAreAllowed(db, peer, id);
    case DirectMessage(p) => DirectMessagesAreAllowed(db, peer, p);
    case Typing =>
    case Ping =>
    case Malformed =>
    case Unknown =>
  }

  // ---------------------------------------------------------------------------
  // Frames
  // ---------------------------------------------------------------------------

  /** Nothing outside the signer's domain changes, messages apart. */
  ghost predicate Framed(peer: string, refresh: bool, a: Tables, b: Tables) {
    && UsersFramed(peer, refresh, a.users, b.users)
    && ChannelsFramed(peer, a.channels, b.channels)
    && MembersFramed(peer, a.members, b.members)
    && EmojisFramed(peer, a, b)
    && b.spaces == a.spaces && b.roles == a.roles && b.outbox == a.outbox
  }

  type Memberships = map<(string, string), Option<string>>

  ghost predicate MembersFramed(peer: string, a: Memberships, b: Memberships) {
    forall k: (string, string) :: !Homed(k.0, peer) ==> SameAt(a, b, k)
  }

  ghost predicate EmojisFramed(peer: string, a: Tables, b: Tables) {
    && (forall e :: !Homed(e, peer) ==> SameAt(a.emojis, b.emojis, e))
    && (forall r :: r in a.emojiRoles + b.emojiRoles && !Homed(r.0, peer) ==> r in a.emojiRoles && r in b.emojiRoles)
  }

  ghost predicate SameAt<K, V>(a: map<K, V>, b: map<K, V>, k: K) {
    (k in a <==> k in b) && (k in a ==> a[k] == b[k])
  }

  /** Rows of our own users stay as they are, other users' rows too unless the signer is their home (or
      refreshes them in a direct message), and new rows are of remote users. */
  ghost predicate UsersFramed(peer: string, refresh: bool, a: map<string, User>, b: map<string, User>) {
    && (forall u :: DomainOf(u).None? ==> SameAt(a, b, u))
    && (forall u :: u in a ==> u in b && (refresh || Homed(u, peer) || a[u] == b[u]))
  }

  ghost predicate ChannelsFramed(peer: string, a: map<string, Channel>, b: map<string, Channel>) {
    forall c :: (c in a <==> c in b)
                && (c in a ==> b[c].(last := a[c].last) == a[c] && (Homed(c, peer) || b[c] == a[c]))
  }

  /** Messages homed elsewhere, and reactions to them. */
  ghost predicate MessagesFramed(peer: string, a: Tables, b: Tables) {
    && (forall id :: !Homed(id, peer) ==> SameAt(a.messages, b.messages, id))
    && (forall r :: r in a.reactions + b.reactions && !Homed(r.0, peer) ==> r in a.reactions && r in b.reactions)
  }

  lemma PerformFramesUsers(peer: string, rights: Rights, db: Tables, w: Write)
    requires Allowed(peer, rights, w)
    ensures UsersFramed(peer, rights.refresh, db.users, Perform(db, w).users)
  {
    if !w.UpsertUser? && !w.EnsureUser? {
      assert Perform(db, w).users == db.users;
    }
  }

  lemma PerformFramesChannels(peer: string, rights: Rights, db: Tables, w: Write)
    requires Allowed(peer, rights, w)
    ensures ChannelsFramed(peer, db.channels, Perform(db, w).channels)
  {
    if !w.BumpChannel? {
      assert Perform(db, w).channels == db.channels;
    }
  }

  lemma PerformFramesMembers(peer: string, rights: Rights, db: Tables, w: Write)
    requires Allowed(peer, rights, w)
    ensures MembersFramed(peer, db.members, Perform(db, w).members)
  {
    if !w.AddMember? && !w.RemoveMember? {
      assert Perform(db, w).members == db.members;
    }
  }

  lemma PerformFramesEmojis(peer: string, rights: Rights, db: Tables, w: Write)
    requires Allowed(peer, rights, w)
    ensures EmojisFramed(peer, db, Perform(db, w))
  {
    if !w.UpsertEmoji? && !w.DeleteEmoji? && !w.ClearEmojiRoles? && !w.AddEmojiRole? {
      assert Perform(db, w).emojis == db.emojis && Perform(db, w).emojiRoles == db.emojiRoles;
    }
  }

  lemma PerformFramesMessages(peer: string, rights: Rights, db: Tables, w: Write)
    requires Allowed(peer, rights, w) && !w.DeleteMessage?
    ensures MessagesFramed(peer, db, Perform(db, w))
  {
  }

  lemma PerformIsFramed(peer: string, rights: Rights, db: Tables, w: Write)
    requires Allowed(peer, rights, w)
    ensures Framed(peer, rights.refresh, db, Perform(db, w))
  {
    PerformFramesUsers(peer, rights, db, w);
    PerformFramesChannels(peer, rights, db, w);
    PerformFramesMembers(peer, rights, db, w);
    PerformFramesEmojis(peer, rights, db, w);
  }

  lemma FramedTwice(peer: string, refresh: bool, a: Tables, b: Tables, c: Tables)
    requires Framed(peer, refresh, a, b) && Framed(peer, refresh, b, c)
    ensures Framed(peer, refresh, a, c)
  {
  }

  lemma MessagesFramedTwice(peer: string, a: Tables, b: Tables, c: Tables)
    requires MessagesFramed(peer, a, b) && MessagesFramed(peer, b, c)
    ensures MessagesFramed(peer, a, c)
  {
  }

  lemma {:induction false} ExecAllIsFramed(peer: string, rights: Rights, s: Store, ws: seq<Write>)
    requires AllAllowed(peer, rights, ws)
    ensures Framed(peer, rights.refresh, s.db, ExecAll(s, ws).db)
    ensures !rights.remove ==> MessagesFramed(peer, s.db, ExecAll(s, ws).db)
  {
    if ws != [] {
      var init, last := ws[..|ws| - 1], ws[|ws| - 1];
      ExecAllIsFramed(peer, rights, s, init);
      var t := ExecAll(s, init);
      PerformIsFramed(peer, rights, t.db, last);
      FramedTwice(peer, rights.refresh, s.db, t.db, Perform(t.db, last));
      if !rights.remove {
        PerformFramesMessages(peer, rights, t.db, last);
        MessagesFramedTwice(peer, s.db, t.db, Perform(t.db, last));
      }
    }
  }

  /** What a delivery leaves behind, but for the mark that it was seen. */
  function Written(sv: Server, db: Tables, d: Delivery): Tables {
    if Check(d.peer, d.env.origin, d.env.space) && 0 !in d.failing && !Seen(db, d.env)
    then Apply(sv, Start(db, d), d.peer, d.env).db else db
  }

  lemma DeliverWrites(sv: Server, db: Tables, d: Delivery)
    ensures var t := After(sv, db, d).0; t == Written(sv, db, d).(dedup := t.dedup)
  {
  }

  /** Applying runs the planned writes or none. */
  lemma ApplyRuns(sv: Server, s: Store, peer: string, env: Envelope)
    ensures var t, plan := Apply(sv, s, peer, env), PlanOf(sv, s.db, peer, env);
            t.db == s.db || (plan.Act? && (t.db == ExecAll(s, plan.writes).db || t.db == ExecAll(Look(s), plan.writes).db))
  {
  }

  lemma WritesAreFramed(sv: Server, db: Tables, d: Delivery)
    ensures Framed(d.peer, d.env.event.DirectMessage?, db, Written(sv, db, d))
    ensures !d.env.event.MessageRemove? ==> MessagesFramed(d.peer, db, Written(sv, db, d))
  {
    if Check(d.peer, d.env.origin, d.env.space) {
      AppliesFramed(sv, Start(db, d), d.peer, d.env);
    }
  }

  lemma AppliesFramed(sv: Server, s: Store, peer: string, env: Envelope)
    requires Check(peer, env.origin, env.space)
    ensures Framed(peer, env.event.DirectMessage?, s.db, Apply(sv, s, peer, env).db)
    ensures !env.event.MessageRemove? ==> MessagesFramed(peer, s.db, Apply(sv, s, peer, env).db)
  {
    var rights, plan := RightsOf(env.event), PlanOf(sv, s.db, peer, env);
    ApplyRuns(sv, s, peer, env);
    PlansAreAllowed(sv, s.db, peer, env);
    if plan.Act? {
      ExecAllIsFramed(peer, rights, s, plan.writes);
      ExecAllIsFramed(peer, rights, Look(s), plan.writes);
    }
  }

  /** Whatever an event asks for and wherever it breaks off: no user, space, channel or emoji of ours changes,
      none homed on another domain than the signer's does, memberships change only in the signer's spaces,
      and nothing is queued for sending. Only rows of remote users may be added for other domains. */
  lemma EventsAreFramed(sv: Server, db: Tables, d: Delivery)
    ensures Framed(d.peer, d.env.event.DirectMessage?, db, After(sv, db, d).0)
  {
    DeliverWrites(sv, db, d);
    WritesAreFramed(sv, db, d);
  }

  // ---------------------------------------------------------------------------
  // Messages
  // ---------------------------------------------------------------------------

  predicate ThreadClosed(messages: map<string, Message>, gone: set<string>) {
    forall x :: x in messages && messages[x].thread.Some? && messages[x].thread.value in gone ==> x in gone
  }

  /** What a deletion takes along is the least set with the message in it that no thread leads out of. */
  lemma {:induction false} CascadeIsLeast(messages: map<string, Message>, doomed: set<string>)
    requires doomed <= messages.Keys
    ensures ThreadClosed(messages, Cascade(messages, doomed))
    ensures forall gone :: doomed <= gone && ThreadClosed(messages, gone) ==> Cascade(messages, doomed) <= gone
    decreases messages.Keys - doomed
  {
    var more := set x | x in messages && messages[x].thread.Some? && messages[x].thread.value in doomed;
    if more <= doomed {
      assert forall x :: x in messages && messages[x].thread.Some? && messages[x].thread.value in doomed ==> x in more;
    } else {
      CascadeIsLeast(messages, doomed + more);
      forall gone | doomed <= gone && ThreadClosed(messages, gone)
        ensures Cascade(messages, doomed) <= gone
      {
        assert more <= gone;
      }
    }
  }

  /** Does this delivery delete a message? */
  predicate Deletes(db: Tables, d: Delivery) {
    && d.env.event.MessageRemove? && Check(d.peer, d.env.origin, d.env.space) && !Seen(db, d.env)
    && RequireHomedOn(d.env.event.id, d.peer)
    && d.env.event.id in db.messages && db.messages[d.env.event.id].origin == Some(d.peer)
    && 0 !in d.failing && 1 !in d.failing && 2 !in d.failing
  }

  /** No message homed elsewhere stands in a thread under it or answers one that goes with it. */
  predicate Spared(db: Tables, peer: string, id: string)
    requires id in db.messages
  {
    var gone := Cascade(db.messages, {id});
    forall x :: x in db.messages && !Homed(x, peer) ==>
      x !in gone && !(db.messages[x].replyTo.Some? && db.messages[x].replyTo.value in gone)
  }

  lemma DeletionFrame(db: Tables, peer: string, id: string)
    requires id in db.messages
    ensures Spared(db, peer, id) ==> MessagesFramed(peer, db, Deleted(db, id))
    ensures (forall x :: !Homed(x, peer) ==> SameAt(db.messages, Deleted(db, id).messages, x)) ==> Spared(db, peer, id)
  {
  }

  lemma RemovalWrites(sv: Server, db: Tables, d: Delivery)
    requires d.env.event.MessageRemove?
    ensures var t := Written(sv, db, d);
            t == (if Deletes(db, d) then Deleted(db, d.env.event.id) else db).(dedup := t.dedup)
  {
    Inbox.RunOne(Look(Start(db, d)), DeleteMessage(d.env.event.id));
  }

  /** Messages homed elsewhere stay as they are, exactly unless the event deletes a message that one of them
      hangs under or answers: then the foreign keys carry the deletion, or the loss of the reference, on. */
  lemma MessagesElsewhereStay(sv: Server, db: Tables, d: Delivery)
    ensures MessagesFramed(d.peer, db, After(sv, db, d).0) <==> (Deletes(db, d) ==> Spared(db, d.peer, d.env.event.id))
  {
    DeliverWrites(sv, db, d);
    if d.env.event.MessageRemove? {
      RemovalWrites(sv, db, d);
      if Deletes(db, d) {
        DeletionFrame(db, d.peer, d.env.event.id);
      }
    } else {
      WritesAreFramed(sv, db, d);
    }
  }

  /** A reply of our own user to a foreign message loses its reference when that message is deleted. */
  lemma ForeignDeletionTouchesOurReply(sv: Server)
    ensures var ours := Message("c", None, "u", "hi", None, Some("9@b"), None, None);
            var theirs := Message("c", None, "v@b", "yo", None, None, None, Some("b"));
            var db := NOTHING.(messages := map["1" := ours, "9@b" := theirs]);
            var d := Delivery("b", Envelope("e", "b", None, MessageRemove("9@b")), {});
            After(sv, db, d).0.messages == map["1" := ours.(replyTo := None)]
  {
    var ours := Message("c", None, "u", "hi", None, Some("9@b"), None, None);
    var theirs := Message("c", None, "v@b", "yo", None, None, None, Some("b"));
    var db := NOTHING.(messages := map["1" := ours, "9@b" := theirs]);
    var d := Delivery("b", Envelope("e", "b", None, MessageRemove("9@b")), {});
    NineAtB();
    assert Cascade(db.messages, {"9@b"}) == {"9@b"};
    DeliverWrites(sv, db, d);
    RemovalWrites(sv, db, d);
  }

  lemma NineAtB()
    ensures RequireHomedOn("9@b", "b")
  {
  }

  // ---------------------------------------------------------------------------
  // Our own rows, over any run
  // ---------------------------------------------------------------------------

  function OfOurs<V>(rows: map<string, V>): map<string, V> {
    map k | k in rows && DomainOf(k).None? :: rows[k]
  }

  function OurMembers(members: Memberships): Memberships {
    map k | k in members && DomainOf(k.0).None? :: members[k]
  }

  /** None of our messages answers a foreign one or stands in a foreign thread. */
  predicate OurMessagesStandAlone(messages: map<string, Message>) {
    forall id :: id in messages && DomainOf(id).None? ==>
      && (messages[id].replyTo.Some? ==> DomainOf(messages[id].replyTo.value).None?)
      && (messages[id].thread.Some? ==> DomainOf(messages[id].thread.value).None?)
  }

  ghost predicate OursKept(a: Tables, b: Tables) {
    && OfOurs(b.users) == OfOurs(a.users) && OfOurs(b.channels) == OfOurs(a.channels) && OfOurs(b.emojis) == OfOurs(a.emojis)
    && OurMembers(b.members) == OurMembers(a.members) && b.spaces == a.spaces && b.outbox == a.outbox
  }

  lemma FramedKeepsOurs(peer: string, refresh: bool, a: Tables, b: Tables)
    requires Framed(peer, refresh, a, b)
    ensures OursKept(a, b)
  {
    forall u | DomainOf(u).None?
      ensures SameAt(a.users, b.users, u) && SameAt(a.emojis, b.emojis, u) && SameAt(a.channels, b.channels, u)
    {
    }
    forall k: (string, string) | DomainOf(k.0).None?
      ensures SameAt(a.members, b.members, k)
    {
    }
    assert OfOurs(b.users) == OfOurs(a.users);
    assert OfOurs(b.channels) == OfOurs(a.channels);
    assert OfOurs(b.emojis) == OfOurs(a.emojis);
    assert OurMembers(b.members) == OurMembers(a.members);
  }

  ghost predicate IsRun(sv: Server, ds: seq<Delivery>, dbs: seq<Tables>) {
    && |dbs| == |ds| + 1
    && forall i :: 0 <= i < |ds| ==> dbs[i + 1] == After(sv, dbs[i], ds[i]).0
  }

  /** Whoever sends whatever, and whatever breaks: our users, spaces, channels, emojis, the memberships of our
      spaces and the outbox are after any run what they were before it. */
  lemma {:induction false} OurRowsSurvive(sv: Server, ds: seq<Delivery>, dbs: seq<Tables>, n: nat)
    requires IsRun(sv, ds, dbs) && n < |dbs|
    ensures OursKept(dbs[0], dbs[n])
  {
    if n > 0 {
      OurRowsSurvive(sv, ds, dbs, n - 1);
      var d := ds[n - 1];
      EventsAreFramed(sv, dbs[n - 1], d);
      FramedKeepsOurs(d.peer, d.env.event.DirectMessage?, dbs[n - 1], dbs[n]);
    }
  }

  lemma {:induction false} CascadeStaysQualified(messages: map<string, Message>, doomed: set<string>)
    requires OurMessagesStandAlone(messages) && doomed <= messages.Keys && forall x :: x in doomed ==> DomainOf(x).Some?
    ensures forall x :: x in Cascade(messages, doomed) ==> DomainOf(x).Some?
    decreases messages.Keys - doomed
  {
    var more := set x | x in messages && messages[x].thread.Some? && messages[x].thread.value in doomed;
    if !(more <= doomed) {
      CascadeStaysQualified(messages, doomed + more);
    }
  }

  lemma DeletionKeepsOurMessages(db: Tables, id: string)
    requires OurMessagesStandAlone(db.messages) && id in db.messages && DomainOf(id).Some?
    ensures OfOurs(Deleted(db, id).messages) == OfOurs(db.messages)
  {
    CascadeStaysQualified(db.messages, {id});
  }

  lemma FrameKeepsOurMessages(peer: string, a: Tables, b: Tables)
    requires MessagesFramed(peer, a, b)
    ensures OfOurs(b.messages) == OfOurs(a.messages)
  {
    forall id | DomainOf(id).None?
      ensures SameAt(a.messages, b.messages, id)
    {
    }
  }

  lemma OneDeliveryKeepsOurMessages(sv: Server, db: Tables, d: Delivery)
    requires OurMessagesStandAlone(db.messages)
    ensures OfOurs(After(sv, db, d).0.messages) == OfOurs(db.messages)
  {
    DeliverWrites(sv, db, d);
    if d.env.event.MessageRemove? {
      RemovalWrites(sv, db, d);
      if Deletes(db, d) {
        DeletionKeepsOurMessages(db, d.env.event.id);
      }
    } else {
      WritesAreFramed(sv, db, d);
      FrameKeepsOurMessages(d.peer, db, Written(sv, db, d));
    }
  }

  /** Our messages survive any run as well, as long as none of them refers to a foreign one. */
  lemma {:induction false} OurMessagesSurvive(sv: Server, ds: seq<Delivery>, dbs: seq<Tables>, n: nat)
    requires IsRun(sv, ds, dbs) && n < |dbs| && OurMessagesStandAlone(dbs[0].messages)
    ensures OfOurs(dbs[n].messages) == OfOurs(dbs[0].messages)
  {
    if n > 0 {
      OurMessagesSurvive(sv, ds, dbs, n - 1);
      StandingAloneIsOurs(dbs[0].messages, dbs[n - 1].messages);
      OneDeliveryKeepsOurMessages(sv, dbs[n - 1], ds[n - 1]);
    }
  }

  lemma StandingAloneIsOurs(a: map<string, Message>, b: map<string, Message>)
    requires OurMessagesStandAlone(a) && OfOurs(a) == OfOurs(b)
    ensures OurMessagesStandAlone(b)
  {
    forall id | id in b && DomainOf(id).None?
      ensures id in a && a[id] == b[id]
    {
      assert id in OfOurs(b);
    }
  }
}
