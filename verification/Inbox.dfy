/** The appliers as they run: checks first, then one statement after the other, stopping where one fails. */
module Inbox {
  import opened Wrappers
  import opened Mapping
  import opened Replica

  lemma RunNone(s: Store)
    ensures ExecAll(s, []) == s
  {
  }

  lemma RunMore(s: Store, ws: seq<Write>, w: Write)
    ensures ExecAll(s, ws + [w]) == Exec(ExecAll(s, ws), w)
  {
  }

  lemma RunOne(s: Store, w: Write)
    ensures ExecAll(s, [w]) == Exec(s, w)
  {
  }

  lemma RunTwo(s: Store, v: Write, w: Write)
    ensures ExecAll(s, [v, w]) == Exec(Exec(s, v), w)
  {
    RunOne(s, v);
    RunMore(s, [v], w);
    assert [v] + [w] == [v, w];
  }

  lemma RunThree(s: Store, u: Write, v: Write, w: Write)
    ensures ExecAll(s, [u, v, w]) == Exec(Exec(Exec(s, u), v), w)
  {
    RunTwo(s, u, v);
    RunMore(s, [u, v], w);
    assert [u, v] + [w] == [u, v, w];
  }

  lemma {:induction false} RunThen(s: Store, a: seq<Write>, b: seq<Write>)
    ensures ExecAll(s, a + b) == ExecAll(ExecAll(s, a), b)
  {
    if b == [] {
      assert a + b == a;
    } else {
      assert (a + b)[..|a + b| - 1] == a + b[..|b| - 1];
      RunThen(s, a, b[..|b| - 1]);
    }
  }

  /** A store that has failed stays as it is. */
  lemma {:induction false} FailedStays(s: Store, ws: seq<Write>)
    requires !s.ok
    ensures ExecAll(s, ws) == s
  {
    if ws != [] {
      FailedStays(s, ws[..|ws| - 1]);
    }
  }

  lemma {:induction false} SameRoles(a: Tables, b: Tables, emoji: string, roles: seq<string>)
    requires a.roles == b.roles
    ensures RoleWrites(a, emoji, roles) == RoleWrites(b, emoji, roles)
  {
    if roles != [] {
      SameRoles(a, b, emoji, roles[..|roles| - 1]);
    }
  }

  lemma RolesNext(db: Tables, emoji: string, roles: seq<string>, i: nat)
    requires i < |roles|
    ensures RoleWrites(db, emoji, roles[..i + 1]) == RoleWrites(db, emoji, roles[..i]) + RoleWrite(db, emoji, roles[i])
  {
    assert roles[..i + 1][..i] == roles[..i];
  }

  lemma {:induction false} RolesThen(db: Tables, emoji: string, a: seq<string>, b: seq<string>)
    ensures RoleWrites(db, emoji, a + b) == RoleWrites(db, emoji, a) + RoleWrites(db, emoji, b)
  {
    if b == [] {
      assert a + b == a;
    } else {
      assert (a + b)[..|a + b| - 1] == a + b[..|b| - 1];
      RolesThen(db, emoji, a, b[..|b| - 1]);
    }
  }

  /** Once a role was not written, neither are the rest. */
  lemma FailedRoles(s: Store, db: Tables, emoji: string, roles: seq<string>, i: nat)
    requires i <= |roles| && !ExecAll(s, RoleWrites(db, emoji, roles[..i])).ok
    ensures ExecAll(s, RoleWrites(db, emoji, roles)) == ExecAll(s, RoleWrites(db, emoji, roles[..i]))
  {
    assert roles == roles[..i] + roles[i..];
    RolesThen(db, emoji, roles[..i], roles[i..]);
    RunThen(s, RoleWrites(db, emoji, roles[..i]), RoleWrites(db, emoji, roles[i..]));
    FailedStays(ExecAll(s, RoleWrites(db, emoji, roles[..i])), RoleWrites(db, emoji, roles[i..]));
  }

  lemma RoleRuns(s: Store, db: Tables, emoji: string, roles: seq<string>, i: nat)
    requires i < |roles|
    ensures var done, next := ExecAll(s, RoleWrites(db, emoji, roles[..i])), ExecAll(s, RoleWrites(db, emoji, roles[..i + 1]));
            next == if roles[i] in db.roles then Exec(done, AddEmojiRole(emoji, roles[i])) else done
  {
    RolesNext(db, emoji, roles, i);
    RunRole(s, RoleWrites(db, emoji, roles[..i]), db, emoji, roles[i]);
  }

  lemma RunRole(s: Store, ws: seq<Write>, db: Tables, emoji: string, role: string)
    ensures var done := ExecAll(s, ws);
            ExecAll(s, ws + RoleWrite(db, emoji, role)) ==
              if role in db.roles then Exec(done, AddEmojiRole(emoji, role)) else done
  {
    if role in db.roles {
      RunMore(s, ws, AddEmojiRole(emoji, role));
    } else {
      assert ws + [] == ws;
    }
  }

  lemma UserWriteKeepsMessages(s: Store, w: Write)
    requires w.UpsertUser? || w.EnsureUser?
    ensures Exec(s, w).db.messages == s.db.messages
  {
  }

  lemma SameStoreWrites(a: Tables, b: Tables, id: string, m: Message)
    requires a.messages == b.messages
    ensures StoreWrites(a, id, m) == StoreWrites(b, id, m)
  {
  }

  /** The row of the author, and the message if that was written. */
  lemma AuthorThenMessage(s: Store, w: Write, id: string, m: Message)
    requires w.UpsertUser? || w.EnsureUser?
    ensures var t := Exec(s, w);
            ExecAll(s, [w] + StoreWrites(s.db, id, m)) == if t.ok then ExecAll(t, StoreWrites(t.db, id, m)) else t
  {
    var ws := StoreWrites(s.db, id, m);
    RunOne(s, w);
    RunThen(s, [w], ws);
    UserWriteKeepsMessages(s, w);
    SameStoreWrites(s.db, Exec(s, w).db, id, m);
    if !Exec(s, w).ok {
      FailedStays(Exec(s, w), ws);
    }
  }

  lemma ExecKeepsRoles(s: Store, w: Write)
    ensures Exec(s, w).db.roles == s.db.roles
  {
  }

  class Applier {
    const sv: Server
    const failing: set<nat>
    var db: Tables
    var at: nat

    constructor (sv: Server, db: Tables, failing: set<nat>)
      ensures this.sv == sv && this.failing == failing && this.db == db && this.at == 0
    {
      this.sv, this.failing, this.db, this.at := sv, failing, db, 0;
    }

    function Now(ok: bool): Store reads this { Store(db, failing, at, ok) }

    method Run(w: Write) returns (ok: bool)
      modifies this`db, this`at
      ensures Now(ok) == Exec(old(Now(true)), w)
    {
      at := at + 1;
      if at - 1 in failing || !Applicable(db, w) {
        return false;
      }
      db := Perform(db, w);
      return true;
    }

    method LookUp() returns (ok: bool)
      modifies this`at
      ensures Now(ok) == Look(old(Now(true)))
    {
      at := at + 1;
      return at - 1 !in failing;
    }

    /** `mirror_user`. */
    method MirrorUser(peer: string, u: UserRef) returns (ok: bool)
      modifies this`db, this`at
      ensures var w := Mirror(sv, old(db), peer, u);
              Now(ok) == if w.Some? then Exec(old(Now(true)), w.value) else old(Now(true)).(ok := false)
    {
      var domain := DomainOr(u.id, peer);
      if SameDomain(domain, sv.domain) {
        var local := LocalPart(u.id);
        if local !in db.users || db.users[local].origin.Some? {
          return false;
        }
        var row := db.users[local];
        ok := Run(EnsureUser(u.id, User(Some(sv.domain), Handle(row.handle, sv.domain), row.display, row.avatar)));
      } else if SameDomain(domain, peer) {
        ok := Run(UpsertUser(u.id, Profile(u, domain)));
      } else {
        ok := Run(EnsureUser(u.id, Profile(u, domain)));
      }
    }

    method ApplyMessageCreate(peer: string, p: Post) returns (ok: bool)
      modifies this`db, this`at
      ensures Now(ok) == Looked(old(Now(true)), PlanMessageCreate(sv, NOTHING, peer, p).Ignore?,
                                PlanMessageCreate(sv, old(db), peer, p), true)
    {
      if !RequireHomedOn(p.id, peer) || !RequireHomedOn(p.channel, peer)
         || (p.space.Some? && !RequireHomedOn(p.space.value, peer)) || !RequireRemoteTarget(p.author.id) {
        return false;
      }
      if !PostCaps(sv, p) {
        return false;
      }
      var found := LookUp();
      if !found || p.channel !in db.channels {
        return true;
      }
      ok := ApplyPost(peer, p);
    }

    method ApplyPost(peer: string, p: Post) returns (ok: bool)
      requires p.channel in db.channels
      modifies this`db, this`at
      ensures Now(ok) == Carry(old(Now(true)), PlanPost(sv, old(db), peer, p))
    {
      ghost var mirror := Mirror(sv, db, peer, p.author);
      var message := MessageOf(db, peer, p);
      if mirror.Some? {
        RunOne(Now(true), mirror.value);
        AuthorThenMessage(Now(true), mirror.value, p.id, message);
      }
      ok := MirrorUser(peer, p.author);
      if !ok || p.embedBytes > 16384 {
        return false;
      }
      ok := StoreMessage(p.id, message);
    }

    /** `insert_remote_message`: the message, and the pointer of its channel if a row was inserted. */
    method StoreMessage(id: string, message: Message) returns (ok: bool)
      modifies this`db, this`at
      ensures Now(ok) == ExecAll(old(Now(true)), StoreWrites(old(db), id, message))
    {
      RunOne(Now(true), InsertMessage(id, message));
      RunTwo(Now(true), InsertMessage(id, message), BumpChannel(message.channel, id));
      var known := id in db.messages;
      ok := Run(InsertMessage(id, message));
      if !ok || known {
        return;
      }
      ok := Run(BumpChannel(message.channel, id));
    }

    method ApplyMessageUpdate(peer: string, id: string, content: Option<string>, editedAt: Option<string>) returns (ok: bool)
      modifies this`db, this`at
      ensures Now(ok) == Looked(old(Now(true)), PlanMessageUpdate(NOTHING, peer, id, content, editedAt).Ignore?,
                                PlanMessageUpdate(old(db), peer, id, content, editedAt), true)
    {
      if !RequireHomedOn(id, peer) || (content.Some? && |content.value| > 4000) {
        return false;
      }
      var found := LookUp();
      if !found || id !in db.messages || db.messages[id].origin != Some(peer) {
        return true;
      }
      ghost var before := Now(true);
      ghost var ws := PlanMessageUpdate(db, peer, id, content, editedAt).writes;
      RunNone(before);
      if content.Some? {
        RunOne(before, EditContent(id, content.value));
        if editedAt.Some? {
          RunTwo(before, EditContent(id, content.value), EditStamp(id, editedAt.value));
          assert ws == [EditContent(id, content.value), EditStamp(id, editedAt.value)];
        } else {
          assert ws == [EditContent(id, content.value)];
        }
        ok := Run(EditContent(id, content.value));
        if !ok {
          return;
        }
      } else if editedAt.Some? {
        RunOne(before, EditStamp(id, editedAt.value));
        assert ws == [EditStamp(id, editedAt.value)];
      } else {
        assert ws == [];
      }
      ok := true;
      if editedAt.Some? {
        ok := Run(EditStamp(id, editedAt.value));
      }
    }

    method ApplyMessageRemove(peer: string, id: string) returns (ok: bool)
      modifies this`db, this`at
      ensures Now(ok) == Looked(old(Now(true)), PlanMessageRemove(NOTHING, peer, id).Ignore?,
                                PlanMessageRemove(old(db), peer, id), true)
    {
      if !RequireHomedOn(id, peer) {
        return false;
      }
      var found := LookUp();
      if !found || id !in db.messages || db.messages[id].origin != Some(peer) {
        return true;
      }
      RunOne(Now(true), DeleteMessage(id));
      ok := Run(DeleteMessage(id));
    }

    method ApplyMemberJoin(peer: string, space: Option<string>, who: UserRef) returns (ok: bool)
      modifies this`db, this`at
      ensures Now(ok) == Looked(old(Now(true)), PlanMemberJoin(sv, NOTHING, peer, space, who).Ignore?,
                                PlanMemberJoin(sv, old(db), peer, space, who), true)
    {
      if space.None? {
        return false;
      }
      var found := LookUp();
      if !found || space.value !in db.spaces {
        return true;
      }
      if !RequireRemoteTarget(who.id) {
        return false;
      }
      ghost var mirror := Mirror(sv, db, peer, who);
      var add := AddMember(space.value, who.id, Some(DomainOr(who.id, peer)));
      if mirror.Some? {
        RunTwo(Now(true), mirror.value, add);
      }
      ok := MirrorUser(peer, who);
      if ok {
        ok := Run(add);
      }
    }

    method ApplyMemberLeave(space: Option<string>, user: string) returns (ok: bool)
      modifies this`db, this`at
      ensures Now(ok) == Looked(old(Now(true)), PlanMemberLeave(NOTHING, space, user).Ignore?,
                                PlanMemberLeave(old(db), space, user), true)
    {
      if space.None? {
        return false;
      }
      var found := LookUp();
      if !found || space.value !in db.spaces {
        return true;
      }
      RunOne(Now(true), RemoveMember(space.value, user));
      ok := Run(RemoveMember(space.value, user));
    }

    method ApplyReaction(peer: string, e: Event) returns (ok: bool)
      requires e.ReactionChange?
      modifies this`db, this`at
      ensures Now(ok) == Looked(old(Now(true)), PlanReaction(NOTHING, peer, e).Ignore?,
                                PlanReaction(old(db), peer, e), true)
    {
      if !RequireHomedOn(e.id, peer) || !RequireHomedOn(e.channel, peer) || !RequireRemoteTarget(e.user) || |e.emoji| > 128 {
        return false;
      }
      var found := LookUp();
      if !found || e.id !in db.messages {
        return true;
      }
      // A reaction carries no profile, so it never overwrites one.
      var ensure := EnsureUser(e.user, User(Some(DomainOr(e.user, peer)), e.user, e.user, None));
      var change := if e.add then AddReaction(e.id, e.user, e.emoji) else RemoveReaction(e.id, e.user, e.emoji);
      RunTwo(Now(true), ensure, change);
      ok := Run(ensure);
      if ok {
        ok := Run(change);
      }
    }

    method ApplyEmojiUpsert(peer: string, e: Event) returns (ok: bool)
      requires e.EmojiUpsert?
      modifies this`db, this`at
      ensures Now(ok) == Looked(old(Now(true)), PlanEmojiUpsert(sv, NOTHING, peer, e).Ignore?,
                                PlanEmojiUpsert(sv, old(db), peer, e), true)
    {
      if !RequireHomedOn(e.id, peer) || !RequireHomedOn(e.space, peer) {
        return false;
      }
      if |e.name| > 64 || |e.roles| > 100 || (e.image.Some? && !sv.urlOk(e.image.value)) {
        return false;
      }
      var found := LookUp();
      if !found || e.space !in db.spaces {
        return true;
      }
      ok := UpsertRemoteEmoji(e.id, Emoji(e.space, e.name, e.animated, e.image, Some(peer)), e.roles);
    }

    /** The row, and its role restrictions replaced wholesale. */
    method UpsertRemoteEmoji(id: string, row: Emoji, roles: seq<string>) returns (ok: bool)
      modifies this`db, this`at
      ensures Now(ok) == ExecAll(old(Now(true)), [UpsertEmoji(id, row), ClearEmojiRoles(id)] + RoleWrites(old(db), id, roles))
    {
      ghost var before, d := Now(true), db;
      RunTwo(before, UpsertEmoji(id, row), ClearEmojiRoles(id));
      RunThen(before, [UpsertEmoji(id, row), ClearEmojiRoles(id)], RoleWrites(d, id, roles));
      ok := Run(UpsertEmoji(id, row));
      if ok {
        ok := Run(ClearEmojiRoles(id));
      }
      if ok {
        SameRoles(d, db, id, roles);
        ok := AddRoles(id, roles);
      } else {
        FailedStays(Now(false), RoleWrites(d, id, roles));
      }
    }

    /** Roles that are not mirrored are passed over. */
    method AddRoles(emoji: string, roles: seq<string>) returns (ok: bool)
      modifies this`db, this`at
      ensures Now(ok) == ExecAll(old(Now(true)), RoleWrites(old(db), emoji, roles))
    {
      ghost var before, d := Now(true), db;
      ok := true;
      for i := 0 to |roles|
        invariant ok && db.roles == d.roles
        invariant Now(ok) == ExecAll(before, RoleWrites(d, emoji, roles[..i]))
      {
        RoleRuns(before, d, emoji, roles, i);
        if roles[i] in db.roles {
          ExecKeepsRoles(Now(true), AddEmojiRole(emoji, roles[i]));
          ok := Run(AddEmojiRole(emoji, roles[i]));
          if !ok {
            FailedRoles(before, d, emoji, roles, i + 1);
            return;
          }
        }
      }
      assert roles[..|roles|] == roles;
    }

    method ApplyEmojiRemove(peer: string, id: string) returns (ok: bool)
      modifies this`db, this`at
      ensures Now(ok) == Looked(old(Now(true)), PlanEmojiRemove(NOTHING, peer, id).Ignore?,
                                PlanEmojiRemove(old(db), peer, id), false)
    {
      if !RequireHomedOn(id, peer) {
        return false;
      }
      ok := LookUp();
      if !ok {
        return;
      }
      if id !in db.emojis || db.emojis[id].origin != Some(peer) {
        return true;
      }
      RunOne(Now(true), DeleteEmoji(id));
      ok := Run(DeleteEmoji(id));
    }

    method ApplyDirectMessage(peer: string, p: Post) returns (ok: bool)
      modifies this`db, this`at
      ensures Now(ok) == Looked(old(Now(true)), PlanDirectMessage(NOTHING, peer, p).Ignore?,
                                PlanDirectMessage(old(db), peer, p), true)
    {
      if !RequireHomedOn(p.id, peer) || !RequireHomedOn(p.channel, peer) || !RequireRemoteTarget(p.author.id)
         || |p.content| > 4000 {
        return false;
      }
      var found := LookUp();
      if !found || p.channel !in db.channels {
        return true;
      }
      var upsert := UpsertUser(p.author.id, Profile(p.author, DomainOr(p.author.id, peer)));
      var message := MessageOf(db, peer, p).(space := None);
      AuthorThenMessage(Now(true), upsert, p.id, message);
      ok := Run(upsert);
      if ok {
        ok := StoreMessage(p.id, message);
      }
    }

    method ApplyEvent(peer: string, env: Envelope) returns (ok: bool, unsupported: bool)
      modifies this`db, this`at
      ensures Now(ok) == Apply(sv, old(Now(true)), peer, env)
      ensures unsupported <==> env.event.Unknown?
    {
      unsupported := false;
      match env.event
      case MessageCreate(p) => ok := ApplyMessageCreate(peer, p);
      case MessageUpdate(id, content, editedAt) => ok := ApplyMessageUpdate(peer, id, content, editedAt);
      case MessageRemove(id) => ok := ApplyMessageRemove(peer, id);
      case ReactionChange(_, _, _, _, _) => ok := ApplyReaction(peer, env.event);
      case MemberJoin(who) => ok := ApplyMemberJoin(peer, env.space, who);
      case MemberLeave(user) => ok := ApplyMemberLeave(env.space, user);
      case EmojiUpsert(_, _, _, _, _, _) => ok := ApplyEmojiUpsert(peer, env.event);
      case EmojiRemove(id) => ok := ApplyEmojiRemove(peer, id);
      case DirectMessage(p) => ok := ApplyDirectMessage(peer, p);
      case Typing => ok := true;
      case Ping => ok := true;
      case Malformed => ok := false;
      case Unknown =>
        ok := false;
        unsupported := true;
    }

    /** The endpoint: authority, marking, applying, and taking the mark back on failure. */
    method Receive(peer: string, env: Envelope) returns (r: Response)
      modifies this`db, this`at
      ensures (db, r) == Deliver(sv, old(db), failing, peer, env)
    {
      if !Check(peer, env.origin, env.space) {
        return Forbidden;
      }
      var key := (env.eventId, env.origin);
      at := 1;
      if 0 in failing {
        return Failed;
      }
      if key in db.dedup {
        return Acknowledged;
      }
      db := db.(dedup := db.dedup + {key});
      var ok, unsupported := ApplyEvent(peer, env);
      if ok {
        return Acknowledged;
      }
      at := at + 1;
      if at - 1 !in failing {
        db := db.(dedup := db.dedup - {key});
      }
      return if unsupported then NotImplemented else Failed;
    }
  }
}
