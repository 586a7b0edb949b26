/** Inbound federation events and what they do to the tables of the server that receives them. A write is one
    statement; the database may refuse any of them, and what was written before stays. */
module Replica {
  import opened Wrappers
  import opened Mapping

  datatype User = User(origin: Option<string>, handle: string, display: string, avatar: Option<string>)

  datatype Message = Message(channel: string, space: Option<string>, author: string, content: string,
                             edited: Option<string>, replyTo: Option<string>, thread: Option<string>, origin: Option<string>)

  datatype Channel = Channel(space: Option<string>, origin: Option<string>, last: Option<string>)

  datatype Emoji = Emoji(space: string, name: string, animated: bool, image: Option<string>, origin: Option<string>)

  /** `members` is keyed by space and user, `reactions` holds message, user and emoji, `emojiRoles` emoji and role. */
  datatype Tables = Tables(users: map<string, User>, messages: map<string, Message>, channels: map<string, Channel>,
                           spaces: map<string, Option<string>>, members: map<(string, string), Option<string>>,
                           reactions: set<(string, string, string)>, emojis: map<string, Emoji>,
                           emojiRoles: set<(string, string)>, roles: set<string>,
                           dedup: set<(string, string)>, outbox: seq<string>)

  // ---------------------------------------------------------------------------
  // Statements
  // ---------------------------------------------------------------------------

  datatype Write =
    | UpsertUser(user: string, profile: User)
    | EnsureUser(user: string, profile: User)
    | InsertMessage(id: string, message: Message)
    | BumpChannel(channel: string, last: string)
    | EditContent(id: string, content: string)
    | EditStamp(id: string, stamp: string)
    | DeleteMessage(id: string)
    | AddMember(space: string, user: string, origin: Option<string>)
    | RemoveMember(space: string, user: string)
    | AddReaction(id: string, user: string, emoji: string)
    | RemoveReaction(id: string, user: string, emoji: string)
    | UpsertEmoji(emoji: string, row: Emoji)
    | ClearEmojiRoles(emoji: string)
    | AddEmojiRole(emoji: string, role: string)
    | DeleteEmoji(emoji: string)

  /** Deleting a message deletes the messages of its thread, and theirs. */
  function Cascade(messages: map<string, Message>, doomed: set<string>): (r: set<string>)
    requires doomed <= messages.Keys
    ensures doomed <= r <= messages.Keys
    decreases messages.Keys - doomed
  {
    var more := set x | x in messages && messages[x].thread.Some? && messages[x].thread.value in doomed;
    if more <= doomed then doomed else Cascade(messages, doomed + more)
  }

  /** Messages that answered a deleted one stop referring to it. */
  function Orphaned(m: Message, gone: set<string>): Message {
    if m.replyTo.Some? && m.replyTo.value in gone then m.(replyTo := None) else m
  }

  function Deleted(db: Tables, id: string): Tables {
    if id !in db.messages then db
    else
      var gone := Cascade(db.messages, {id});
      db.(messages := map x | x in db.messages && x !in gone :: Orphaned(db.messages[x], gone),
          reactions := set r | r in db.reactions && r.0 !in gone)
  }

  /** The constraints a statement can run into. */
  predicate Applicable(db: Tables, w: Write) {
    match w
    case UpsertUser(u, p) => forall v :: v in db.users && v != u ==> db.users[v].handle != p.handle
    case EnsureUser(u, p) => u in db.users || forall v :: v in db.users ==> db.users[v].handle != p.handle
    case InsertMessage(id, m) =>
      || id in db.messages
      || (m.channel in db.channels && m.author in db.users && (m.replyTo.Some? ==> m.replyTo.value in db.messages))
    case AddMember(s, u, _) => s in db.spaces && u in db.users
    case AddReaction(id, u, _) => id in db.messages && u in db.users
    case UpsertEmoji(e, row) => row.space in db.spaces
    case AddEmojiRole(e, r) => e in db.emojis && r in db.roles
    case _ => true
  }

  function Perform(db: Tables, w: Write): Tables {
    match w
    case UpsertUser(u, p) => db.(users := db.users[u := p])
    case EnsureUser(u, p) => if u in db.users then db else db.(users := db.users[u := p])
    case InsertMessage(id, m) => if id in db.messages then db else db.(messages := db.messages[id := m])
    case BumpChannel(c, last) =>
      if c in db.channels then db.(channels := db.channels[c := db.channels[c].(last := Some(last))]) else db
    case EditContent(id, content) =>
      if id in db.messages then db.(messages := db.messages[id := db.messages[id].(content := content)]) else db
    case EditStamp(id, stamp) =>
      if id in db.messages then db.(messages := db.messages[id := db.messages[id].(edited := Some(stamp))]) else db
    case DeleteMessage(id) => Deleted(db, id)
    case AddMember(s, u, origin) => if (s, u) in db.members then db else db.(members := db.members[(s, u) := origin])
    case RemoveMember(s, u) => db.(members := db.members - {(s, u)})
    case AddReaction(id, u, e) => db.(reactions := db.reactions + {(id, u, e)})
    case RemoveReaction(id, u, e) => db.(reactions := db.reactions - {(id, u, e)})
    case UpsertEmoji(e, row) =>
      db.(emojis := db.emojis[e := if e in db.emojis then row.(space := db.emojis[e].space) else row])
    case ClearEmojiRoles(e) => db.(emojiRoles := set r | r in db.emojiRoles && r.0 != e)
    case AddEmojiRole(e, r) => db.(emojiRoles := db.emojiRoles + {(e, r)})
    case DeleteEmoji(e) => db.(emojis := db.emojis - {e}, emojiRoles := set r | r in db.emojiRoles && r.0 != e)
  }

  /** A delivery under way: `at` statements were sent to the database, which does not execute those that
      are `failing`, whatever they ask. */
  datatype Store = Store(db: Tables, failing: set<nat>, at: nat, ok: bool)

  function Exec(s: Store, w: Write): Store {
    if !s.ok then s
    else if s.at in s.failing || !Applicable(s.db, w) then s.(at := s.at + 1, ok := false)
    else s.(db := Perform(s.db, w), at := s.at + 1)
  }

  function ExecAll(s: Store, ws: seq<Write>): Store {
    if ws == [] then s else Exec(ExecAll(s, ws[..|ws| - 1]), ws[|ws| - 1])
  }

  // ---------------------------------------------------------------------------
  // Events
  // ---------------------------------------------------------------------------

  datatype UserRef = UserRef(id: string, username: Option<string>, display: Option<string>, avatar: Option<string>)

  /** What counts towards the limits on foreign input: embeds and their serialized size, and mentions. */
  datatype Post = Post(id: string, channel: string, space: Option<string>, author: UserRef, content: string,
                       replyTo: Option<string>, embeds: nat, embedBytes: nat, mentions: nat)

  datatype Event =
    | MessageCreate(post: Post)
    | MessageUpdate(id: string, content: Option<string>, editedAt: Option<string>)
    | MessageRemove(id: string)
    | ReactionChange(channel: string, id: string, user: string, emoji: string, add: bool)
    | MemberJoin(who: UserRef)
    | MemberLeave(user: string)
    | EmojiUpsert(id: string, space: string, name: string, animated: bool, image: Option<string>, roles: seq<string>)
    | EmojiRemove(id: string)
    | Typing
    | DirectMessage(post: Post)
    | Ping
    | Malformed
    | Unknown

  datatype Envelope = Envelope(eventId: string, origin: string, space: Option<string>, event: Event)

  /** This server: its domain, and which foreign URLs it accepts. */
  datatype Server = Server(domain: string, urlOk: string -> bool)

  /** What an applier does: nothing and fail, nothing, or writes in order, after which it may still fail. */
  datatype Plan = Reject | Ignore | Act(writes: seq<Write>, succeeds: bool)

  function NameOf(u: UserRef): string { if u.username.Some? then u.username.value else u.id }

  function Profile(u: UserRef, domain: string): User {
    var handle := Handle(NameOf(u), domain);
    User(Some(domain), handle, if u.display.Some? then u.display.value else handle, u.avatar)
  }

  /** The row of a mentioned user: our own users by their own profile, others by the peer's word, which
      overwrites a known profile only for users of the peer itself. */
  function Mirror(sv: Server, db: Tables, peer: string, u: UserRef): Option<Write> {
    var domain := DomainOr(u.id, peer);
    if SameDomain(domain, sv.domain) then
      var local := LocalPart(u.id);
      if local !in db.users || db.users[local].origin.Some? then None
      else
        var row := db.users[local];
        Some(EnsureUser(u.id, row.(origin := Some(sv.domain), handle := Handle(row.handle, sv.domain))))
    else if SameDomain(domain, peer) then Some(UpsertUser(u.id, Profile(u, domain)))
    else Some(EnsureUser(u.id, Profile(u, domain)))
  }

  function MessageOf(db: Tables, peer: string, p: Post): Message
    requires p.channel in db.channels
  {
    Message(p.channel, db.channels[p.channel].space, p.author.id, p.content, None, p.replyTo, None, Some(peer))
  }

  predicate PostCaps(sv: Server, p: Post) {
    && |p.content| <= 4000 && p.embeds <= 10 && p.mentions <= 100
    && (p.author.display.Some? ==> |p.author.display.value| <= 256)
    && (p.author.avatar.Some? ==> sv.urlOk(p.author.avatar.value))
  }

  /** The insert is sent for a message that is known too and leaves it alone; only a new one moves the pointer. */
  function StoreWrites(db: Tables, id: string, m: Message): seq<Write> {
    if id in db.messages then [InsertMessage(id, m)] else [InsertMessage(id, m), BumpChannel(m.channel, id)]
  }

  function PlanMessageCreate(sv: Server, db: Tables, peer: string, p: Post): Plan {
    if !(RequireHomedOn(p.id, peer) && RequireHomedOn(p.channel, peer) && (p.space.Some? ==> RequireHomedOn(p.space.value, peer))
         && RequireRemoteTarget(p.author.id)) then Reject
    else if !PostCaps(sv, p) then Reject
    else if p.channel !in db.channels then Ignore
    else PlanPost(sv, db, peer, p)
  }

  /** The size of the embeds is checked when the author has a row already. */
  function PlanPost(sv: Server, db: Tables, peer: string, p: Post): Plan
    requires p.channel in db.channels
  {
    var mirror := Mirror(sv, db, peer, p.author);
    if mirror.None? then Reject
    else if p.embedBytes > 16384 then Act([mirror.value], false)
    else Act([mirror.value] + StoreWrites(db, p.id, MessageOf(db, peer, p)), true)
  }

  function PlanMessageUpdate(db: Tables, peer: string, id: string, content: Option<string>, editedAt: Option<string>): Plan {
    if !RequireHomedOn(id, peer) || (content.Some? && |content.value| > 4000) then Reject
    else if id !in db.messages || db.messages[id].origin != Some(peer) then Ignore
    else Act((if content.Some? then [EditContent(id, content.value)] else [])
             + (if editedAt.Some? then [EditStamp(id, editedAt.value)] else []), true)
  }

  function PlanMessageRemove(db: Tables, peer: string, id: string): Plan {
    if !RequireHomedOn(id, peer) then Reject
    else if id !in db.messages || db.messages[id].origin != Some(peer) then Ignore
    else Act([DeleteMessage(id)], true)
  }

  function PlanMemberJoin(sv: Server, db: Tables, peer: string, space: Option<string>, who: UserRef): Plan {
    if space.None? then Reject
    else if space.value !in db.spaces then Ignore
    else if !RequireRemoteTarget(who.id) then Reject
    else
      var mirror := Mirror(sv, db, peer, who);
      if mirror.None? then Reject
      else Act([mirror.value, AddMember(space.value, who.id, Some(DomainOr(who.id, peer)))], true)
  }

  function PlanMemberLeave(db: Tables, space: Option<string>, user: string): Plan {
    if space.None? then Reject
    else if space.value !in db.spaces then Ignore
    else Act([RemoveMember(space.value, user)], true)
  }

  function PlanReaction(db: Tables, peer: string, e: Event): Plan
    requires e.ReactionChange?
  {
    if !(RequireHomedOn(e.id, peer) && RequireHomedOn(e.channel, peer) && RequireRemoteTarget(e.user)) then Reject
    else if |e.emoji| > 128 then Reject
    else if e.id !in db.messages then Ignore
    else Act([EnsureUser(e.user, User(Some(DomainOr(e.user, peer)), e.user, e.user, None)),
              if e.add then AddReaction(e.id, e.user, e.emoji) else RemoveReaction(e.id, e.user, e.emoji)], true)
  }

  /** Restrictions to roles that are not mirrored are dropped. */
  function RoleWrite(db: Tables, emoji: string, role: string): seq<Write> {
    if role in db.roles then [AddEmojiRole(emoji, role)] else []
  }

  function RoleWrites(db: Tables, emoji: string, roles: seq<string>): seq<Write> {
    if roles == [] then [] else RoleWrites(db, emoji, roles[..|roles| - 1]) + RoleWrite(db, emoji, roles[|roles| - 1])
  }

  function PlanEmojiUpsert(sv: Server, db: Tables, peer: string, e: Event): Plan
    requires e.EmojiUpsert?
  {
    if !(RequireHomedOn(e.id, peer) && RequireHomedOn(e.space, peer)) then Reject
    else if |e.name| > 64 || |e.roles| > 100 || (e.image.Some? && !sv.urlOk(e.image.value)) then Reject
    else if e.space !in db.spaces then Ignore
    else Act([UpsertEmoji(e.id, Emoji(e.space, e.name, e.animated, e.image, Some(peer))), ClearEmojiRoles(e.id)]
             + RoleWrites(db, e.id, e.roles), true)
  }

  function PlanEmojiRemove(db: Tables, peer: string, id: string): Plan {
    if !RequireHomedOn(id, peer) then Reject
    else if id !in db.emojis || db.emojis[id].origin != Some(peer) then Ignore
    else Act([DeleteEmoji(id)], true)
  }

  /** Direct messages refresh the author's profile whoever the peer is. */
  function PlanDirectMessage(db: Tables, peer: string, p: Post): Plan {
    if !(RequireHomedOn(p.id, peer) && RequireHomedOn(p.channel, peer) && RequireRemoteTarget(p.author.id)) then Reject
    else if |p.content| > 4000 then Reject
    else if p.channel !in db.channels then Ignore
    else
      var upsert := UpsertUser(p.author.id, Profile(p.author, DomainOr(p.author.id, peer)));
      Act([upsert] + StoreWrites(db, p.id, MessageOf(db, peer, p).(space := None)), true)
  }

  function PlanOf(sv: Server, db: Tables, peer: string, env: Envelope): Plan {
    match env.event
    case MessageCreate(p) => PlanMessageCreate(sv, db, peer, p)
    case MessageUpdate(id, content, editedAt) => PlanMessageUpdate(db, peer, id, content, editedAt)
    case MessageRemove(id) => PlanMessageRemove(db, peer, id)
    case ReactionChange(_, _, _, _, _) => PlanReaction(db, peer, env.event)
    case MemberJoin(who) => PlanMemberJoin(sv, db, peer, env.space, who)
    case MemberLeave(user) => PlanMemberLeave(db, env.space, user)
    case EmojiUpsert(_, _, _, _, _, _) => PlanEmojiUpsert(sv, db, peer, env.event)
    case EmojiRemove(id) => PlanEmojiRemove(db, peer, id)
    case DirectMessage(p) => PlanDirectMessage(db, peer, p)
    case Typing => Ignore
    case Ping => Ignore
    case Malformed => Reject
    case Unknown => Reject
  }

  // ---------------------------------------------------------------------------
  // Delivery
  // ---------------------------------------------------------------------------

  datatype Response = Acknowledged | Forbidden | NotImplemented | Failed

  function Carry(s: Store, plan: Plan): Store {
    match plan
    case Act(ws, succeeds) =>
      var t := ExecAll(s, ws);
      t.(ok := t.ok && succeeds)
    case Ignore => s
    case Reject => s.(ok := false)
  }

  const NOTHING := Tables(map[], map[], map[], map[], map[], {}, map[], {}, {}, {}, [])

  /** Does the applier get as far as looking for the row the event is about? Then it would find none in empty
      tables. */
  predicate LooksUp(sv: Server, peer: string, env: Envelope) {
    !env.event.Typing? && !env.event.Ping? && PlanOf(sv, NOTHING, peer, env).Ignore?
  }

  function Look(s: Store): Store { s.(at := s.at + 1, ok := s.ok && s.at !in s.failing) }

  /** A lookup that fails reads like a missing row, save for that of an emoji to delete. */
  function Looked(s: Store, looks: bool, plan: Plan, overlooks: bool): Store {
    if !looks then Carry(s, plan)
    else if Look(s).ok then Carry(Look(s), plan)
    else Look(s).(ok := overlooks)
  }

  function Marked(db: Tables, env: Envelope): Tables { db.(dedup := db.dedup + {(env.eventId, env.origin)}) }

  function Apply(sv: Server, s: Store, peer: string, env: Envelope): Store {
    Looked(s, LooksUp(sv, peer, env), PlanOf(sv, s.db, peer, env), !env.event.EmojiRemove?)
  }

  /** Marking the event is the first statement, taking the mark back after a failure the last. */
  function Deliver(sv: Server, db: Tables, failing: set<nat>, peer: string, env: Envelope): (Tables, Response) {
    var key := (env.eventId, env.origin);
    if !Check(peer, env.origin, env.space) then (db, Forbidden)
    else if 0 in failing then (db, Failed)
    else if key in db.dedup then (db, Acknowledged)
    else
      var s := Apply(sv, Store(Marked(db, env), failing, 1, true), peer, env);
      if s.ok then (s.db, Acknowledged)
      else (if s.at in failing then s.db else s.db.(dedup := s.db.dedup - {key}),
            if env.event.Unknown? then NotImplemented else Failed)
  }
}
