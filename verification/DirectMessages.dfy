/** Direct messages between two servers: where the channel lives, how it is opened from either side, and what
    the other side's copy looks like. */
module DirectMessages {
  import opened Wrappers
  import opened Mapping
  import Text

  /** `users` holds user names by ID; no two rows may have the same name. `participants` holds channel and user,
      `blocks` the local user who blocks and whom. Our own users are stored under bare IDs, all others under
      qualified ones. */
  datatype Side = Side(domain: string, users: map<string, string>, channels: map<string, Dm>,
                       participants: set<(string, string)>, blocks: set<(string, string)>)

  datatype Dm = Dm(kind: string, owner: string, origin: Option<string>)

  /** The participants by ID, and the user names it gives for some of them, by place. */
  datatype Snapshot = Snapshot(channel: string, home: string, kind: string, opener: string, owner: string,
                               participants: seq<string>, names: map<nat, string>)

  // ---------------------------------------------------------------------------
  // Electing the home
  // ---------------------------------------------------------------------------

  predicate AtMost(a: string, b: string) { !Text.Less(b, a) }

  function HomeDomain(a: string, b: string): string {
    var lower := if AtMost(Lower(a), Lower(b)) then Lower(a) else Lower(b);
    if DomainOf(lower).Some? then DomainOf(lower).value else lower
  }

  lemma {:induction false} LowerAt(id: string)
    ensures AtSign(Lower(id)) == AtSign(id)
    ensures DomainOf(id).Some? ==> DomainOf(Lower(id)) == Some(Lower(DomainOf(id).value))
  {
    var k := AtSign(id);
    if id != "" && id[0] != '@' {
      LowerAt(id[1..]);
      assert Lower(id)[1..] == Lower(id[1..]);
    }
    if k < |id| {
      assert Lower(id)[k + 1..] == Lower(id[k + 1..]);
    }
  }

  lemma {:induction false} LowerTwice(s: string)
    ensures Lower(Lower(s)) == Lower(s)
  {
  }

  /** Both servers elect the same home; it is the domain of one of the two; so of two different servers
      exactly one takes itself for the home. */
  lemma ExactlyOneHome(a: string, b: string)
    requires DomainOf(a).Some? && DomainOf(b).Some?
    ensures HomeDomain(a, b) == HomeDomain(b, a)
    ensures HomeDomain(a, b) == Lower(DomainOf(a).value) || HomeDomain(a, b) == Lower(DomainOf(b).value)
    ensures !SameDomain(DomainOf(a).value, DomainOf(b).value) ==>
              (SameDomain(HomeDomain(a, b), DomainOf(a).value) <==> !SameDomain(HomeDomain(b, a), DomainOf(b).value))
  {
    Text.LessIsTotal(Lower(a), Lower(b));
    LowerAt(a);
    LowerAt(b);
    LowerTwice(DomainOf(a).value);
    LowerTwice(DomainOf(b).value);
  }

  // ---------------------------------------------------------------------------
  // Participants
  // ---------------------------------------------------------------------------

  function StorageId(id: string, ours: string): string {
    if IsLocal(id, ours) then LocalPart(id) else id
  }

  /** One spelling for each user, the same on every server. */
  function Canonical(id: string, ours: string): string {
    var q := Qualify(id, ours);
    LocalPart(q) + "@" + if DomainOf(q).Some? then Lower(DomainOf(q).value) else ""
  }

  /** The users that these participant rows mean for a channel. */
  function Meant(rows: set<(string, string)>, channel: string, ours: string): set<string> {
    set p | p in rows && p.0 == channel :: Canonical(p.1, ours)
  }

  function Members(s: Side, channel: string): set<string> { Meant(s.participants, channel, s.domain) }

  lemma BothMean(a: set<(string, string)>, b: set<(string, string)>, channel: string, ours: string)
    ensures Meant(a + b, channel, ours) == Meant(a, channel, ours) + Meant(b, channel, ours)
  {
  }

  lemma NoneMean(channel: string, ours: string)
    ensures Meant({}, channel, ours) == {}
  {
  }

  lemma OneMeans(channel: string, user: string, c: string, ours: string)
    ensures Meant({(channel, user)}, c, ours) == if c == channel then {Canonical(user, ours)} else {}
  {
    if c == channel {
      assert (channel, user) in {(channel, user)};
    }
  }

  /** How an ID is stored makes no difference to whom it means. */
  lemma StorageKeepsMeaning(id: string, ours: string)
    ensures Canonical(StorageId(id, ours), ours) == Canonical(id, ours)
  {
    BareIds(id);
    if IsLocal(id, ours) && DomainOf(id).Some? {
      var local := LocalPart(id);
      assert '@' !in local;
      QualifiedParts(local, ours);
    }
  }

  /** Nor does the server that reads it, once it is qualified. */
  lemma QualifiedIsUniversal(id: string, ours: string, theirs: string)
    ensures Canonical(Qualify(id, ours), theirs) == Canonical(id, ours)
  {
    QualifyTwice(id, ours, theirs);
  }

  function AddParticipant(s: Side, channel: string, user: string): Side {
    s.(participants := s.participants + {(channel, user)})
  }

  lemma MembersAfter(s: Side, channel: string, user: string, c: string)
    ensures Members(AddParticipant(s, channel, user), c)
         == Members(s, c) + if c == channel then {Canonical(user, s.domain)} else {}
  {
    BothMean(s.participants, {(channel, user)}, c, s.domain);
    OneMeans(channel, user, c, s.domain);
  }

  // ---------------------------------------------------------------------------
  // The home's channel
  // ---------------------------------------------------------------------------

  predicate IsDmOf(s: Side, a: string, b: string, c: string) {
    c in s.channels && s.channels[c].kind == "dm" && (c, a) in s.participants && (c, b) in s.participants
  }

  /** What the lookup of an existing 1:1 channel may return: any one that both take part in. */
  ghost predicate Finds(s: Side, a: string, b: string, found: Option<string>) {
    match found
    case Some(c) => IsDmOf(s, a, b, c)
    case None => forall c :: !IsDmOf(s, a, b, c)
  }

  function AddAll(s: Side, channel: string, users: seq<string>): Side {
    if users == [] then s else AddParticipant(AddAll(s, channel, users[..|users| - 1]), channel, users[|users| - 1])
  }

  /** `newId` is a new ID. A 1:1 channel that exists is used again. */
  function CreateDm(s: Side, creator: string, recipients: seq<string>, newId: string, found: Option<string>): (Side, string)
    requires recipients != []
  {
    if |recipients| == 1 && found.Some? then (AddParticipant(s, found.value, creator), found.value)
    else
      var t := s.(channels := s.channels[newId := Dm(if |recipients| == 1 then "dm" else "group_dm", creator, None)]);
      (AddAll(AddParticipant(t, newId, creator), newId, recipients), newId)
  }

  predicate SameBlocks(s: Side, t: Side) { t.domain == s.domain && t.blocks == s.blocks }

  /** The rows of a 1:1 channel. */
  lemma CreatedRows(s: Side, creator: string, other: string, newId: string, found: Option<string>)
    ensures var (t, c) := CreateDm(s, creator, [other], newId, found);
            && SameBlocks(s, t) && c == (if found.Some? then found.value else newId)
            && t.participants == s.participants + {(c, creator), (c, if found.Some? then creator else other)}
            && t.channels == if found.Some? then s.channels else s.channels[c := Dm("dm", creator, None)]
  {
    var u := AddParticipant(s.(channels := s.channels[newId := Dm("dm", creator, None)]), newId, creator);
    assert [other][..0] == [] && AddAll(u, newId, []) == u;
  }

  lemma CreatedMembers(s: Side, creator: string, recipient: string, newId: string, found: Option<string>)
    requires Finds(s, creator, recipient, found) && newId !in s.channels
    requires forall p :: p in s.participants ==> p.0 in s.channels
    ensures var (t, c) := CreateDm(s, creator, [recipient], newId, found);
            && found.Some? ==> t == s && {Canonical(creator, s.domain), Canonical(recipient, s.domain)} <= Members(t, c)
    ensures var (t, c) := CreateDm(s, creator, [recipient], newId, found);
            && found.None? ==> Members(t, c) == {Canonical(creator, s.domain), Canonical(recipient, s.domain)}
  {
    if found.Some? {
      assert AddParticipant(s, found.value, creator) == s;
    } else {
      var t := s.(channels := s.channels[newId := Dm("dm", creator, None)]);
      assert Members(t, newId) == {};
      MembersAfter(t, newId, creator, newId);
      var u := AddParticipant(t, newId, creator);
      assert [recipient][..0] == [] && AddAll(u, newId, []) == u;
      MembersAfter(u, newId, recipient, newId);
    }
  }

  // ---------------------------------------------------------------------------
  // The replica
  // ---------------------------------------------------------------------------

  predicate SameId(a: string, b: string) { Lower(a) == Lower(b) }

  predicate Refuses(s: Side, snap: Snapshot, p: string) {
    IsLocal(p, s.domain) && !SameId(p, snap.opener)
    && exists other :: other in snap.participants && !SameId(other, p) && (LocalPart(p), other) in s.blocks
  }

  function NameAt(snap: Snapshot, i: nat): string
    requires i < |snap.participants|
  {
    if i in snap.names then snap.names[i] else snap.participants[i]
  }

  function HandleAt(snap: Snapshot, i: nat): string
    requires i < |snap.participants|
  {
    Handle(NameAt(snap, i), DomainOr(snap.participants[i], snap.home))
  }

  /** Somebody else has that name. */
  predicate Taken(users: map<string, string>, id: string, handle: string) {
    exists v :: v in users && v != id && users[v] == handle
  }

  function UpsertUser(s: Side, id: string, handle: string): (Side, bool) {
    if Taken(s.users, id, handle) then (s, false) else (s.(users := s.users[id := handle]), true)
  }

  /** Our own users are asked for consent, the others get rows. */
  function ConsultAt(s: Side, snap: Snapshot, i: nat): (Side, bool)
    requires i < |snap.participants|
  {
    var p := snap.participants[i];
    if IsLocal(p, s.domain) then (s, !Refuses(s, snap, p)) else UpsertUser(s, p, HandleAt(snap, i))
  }

  /** The first pass. A refusal ends it at once, and so does a name that somebody else has. */
  function Consult(s: Side, snap: Snapshot, n: nat): (Side, bool)
    requires n <= |snap.participants|
  {
    if n == 0 then (s, true)
    else
      var (t, ok) := Consult(s, snap, n - 1);
      if ok then ConsultAt(t, snap, n - 1) else (t, false)
  }

  /** Only a channel that is new needs the row of its owner. */
  function UpsertChannel(s: Side, id: string, kind: string, owner: string, origin: string): (Side, bool) {
    if id in s.channels then (s.(channels := s.channels[id := s.channels[id].(origin := Some(origin))]), true)
    else if owner !in s.users then (s, false)
    else (s.(channels := s.channels[id := Dm(kind, owner, Some(origin))]), true)
  }

  function EnrolAt(s: Side, snap: Snapshot, i: nat): (Side, bool)
    requires i < |snap.participants|
  {
    var id := StorageId(snap.participants[i], s.domain);
    if id in s.users then (AddParticipant(s, snap.channel, id), true) else (s, false)
  }

  function Enrol(s: Side, snap: Snapshot, n: nat): (Side, bool)
    requires n <= |snap.participants|
  {
    if n == 0 then (s, true)
    else
      var (t, ok) := Enrol(s, snap, n - 1);
      if ok then EnrolAt(t, snap, n - 1) else (t, false)
  }

  function MirrorChannel(s: Side, snap: Snapshot): (Side, bool) {
    UpsertChannel(s, snap.channel, snap.kind, StorageId(snap.owner, s.domain), snap.home)
  }

  function Mirror(s: Side, snap: Snapshot): (Side, bool) {
    var (t, consented) := Consult(s, snap, |snap.participants|);
    if !consented then (t, false)
    else
      var (u, stored) := MirrorChannel(t, snap);
      if stored then Enrol(u, snap, |snap.participants|) else (u, false)
  }

  /** The names once the first `n` participants have their rows. */
  function Upserted(s: Side, snap: Snapshot, n: nat): map<string, string>
    requires n <= |snap.participants|
  {
    if n == 0 then s.users
    else if IsLocal(snap.participants[n - 1], s.domain) then Upserted(s, snap, n - 1)
    else Upserted(s, snap, n - 1)[snap.participants[n - 1] := HandleAt(snap, n - 1)]
  }

  /** Whoever comes from elsewhere has a row then. */
  lemma {:induction false} UpsertedHas(s: Side, snap: Snapshot, n: nat, id: string)
    requires n <= |snap.participants|
    ensures id in Upserted(s, snap, n) <==> id in s.users || (!IsLocal(id, s.domain) && id in snap.participants[..n])
  {
    if n == 0 {
      assert snap.participants[..0] == [];
    } else {
      UpsertedHas(s, snap, n - 1, id);
      UpsertedNext(s, snap, n - 1, id);
      PrefixHas(snap.participants, n - 1, id);
    }
  }

  lemma UpsertedNext(s: Side, snap: Snapshot, n: nat, id: string)
    requires n < |snap.participants|
    ensures var p := snap.participants[n];
            id in Upserted(s, snap, n + 1) <==> id in Upserted(s, snap, n) || (id == p && !IsLocal(p, s.domain))
  {
  }

  lemma PrefixHas(ids: seq<string>, n: nat, id: string)
    requires n < |ids|
    ensures id in ids[..n + 1] <==> id in ids[..n] || id == ids[n]
  {
  }

  /** The participant comes under a name that somebody else has by then. */
  predicate Clashes(s: Side, snap: Snapshot, i: nat)
    requires i < |snap.participants|
  {
    !IsLocal(snap.participants[i], s.domain) && Taken(Upserted(s, snap, i), snap.participants[i], HandleAt(snap, i))
  }

  predicate NobodyRefuses(s: Side, snap: Snapshot, n: nat)
    requires n <= |snap.participants|
  {
    forall i: nat :: i < n ==> !Refuses(s, snap, snap.participants[i])
  }

  predicate NamesAreFree(s: Side, snap: Snapshot, n: nat)
    requires n <= |snap.participants|
  {
    forall i: nat :: i < n ==> !Clashes(s, snap, i)
  }

  lemma OneMore(s: Side, snap: Snapshot, n: nat)
    requires 0 < n <= |snap.participants|
    ensures NobodyRefuses(s, snap, n) <==> NobodyRefuses(s, snap, n - 1) && !Refuses(s, snap, snap.participants[n - 1])
    ensures NamesAreFree(s, snap, n) <==> NamesAreFree(s, snap, n - 1) && !Clashes(s, snap, n - 1)
  {
  }

  /** The first pass over `n` participants goes through exactly if none of them refuses or clashes, and then all
      the others have their rows. */
  ghost predicate ConsultsTo(s: Side, snap: Snapshot, n: nat, t: Side, ok: bool)
    requires n <= |snap.participants|
  {
    && t == s.(users := t.users)
    && (ok <==> NobodyRefuses(s, snap, n) && NamesAreFree(s, snap, n))
    && (ok ==> t.users == Upserted(s, snap, n))
  }

  lemma {:induction false} ConsultMeans(s: Side, snap: Snapshot, n: nat)
    requires n <= |snap.participants|
    ensures var (t, ok) := Consult(s, snap, n); ConsultsTo(s, snap, n, t, ok)
  {
    if n > 0 {
      ConsultMeans(s, snap, n - 1);
      var (t, ok) := Consult(s, snap, n - 1);
      ConsultNext(s, snap, n, t, ok);
    }
  }

  lemma ConsultNext(s: Side, snap: Snapshot, n: nat, t: Side, ok: bool)
    requires 0 < n <= |snap.participants| && ConsultsTo(s, snap, n - 1, t, ok)
    ensures var (u, go) := if ok then ConsultAt(t, snap, n - 1) else (t, false); ConsultsTo(s, snap, n, u, go)
  {
    OneMore(s, snap, n);
    if ok {
      ConsultsAlike(s, t, snap, n - 1);
    }
  }

  lemma ConsultsAlike(s: Side, t: Side, snap: Snapshot, i: nat)
    requires i < |snap.participants| && t == s.(users := Upserted(s, snap, i))
    ensures var (u, ok) := ConsultAt(t, snap, i);
            && u == s.(users := u.users)
            && (ok <==> !Refuses(s, snap, snap.participants[i]) && !Clashes(s, snap, i))
            && (ok ==> u.users == Upserted(s, snap, i + 1))
  {
    assert Refuses(t, snap, snap.participants[i]) == Refuses(s, snap, snap.participants[i]);
  }

  /** The users that the first `n` participants of a snapshot mean. */
  function Named(snap: Snapshot, n: nat, ours: string): set<string>
    requires n <= |snap.participants|
  {
    if n == 0 then {} else Named(snap, n - 1, ours) + {Canonical(snap.participants[n - 1], ours)}
  }

  predicate Known(s: Side, id: string) { IsLocal(id, s.domain) ==> LocalPart(id) in s.users }

  /** How many participants come before the first of ours that does not exist. */
  function KnownCount(s: Side, snap: Snapshot, n: nat): (k: nat)
    requires n <= |snap.participants|
    ensures k <= n && (k == n <==> forall i :: 0 <= i < n ==> Known(s, snap.participants[i]))
  {
    if n == 0 then 0
    else
      var k := KnownCount(s, snap, n - 1);
      if k == n - 1 && Known(s, snap.participants[n - 1]) then n else k
  }

  /** The channel is there already, or its owner has a row or comes with the snapshot. */
  predicate OwnerKnown(s: Side, snap: Snapshot) {
    || snap.channel in s.channels || StorageId(snap.owner, s.domain) in s.users
    || (!IsLocal(snap.owner, s.domain) && snap.owner in snap.participants)
  }

  predicate Accepts(s: Side, snap: Snapshot) {
    var n := |snap.participants|;
    NobodyRefuses(s, snap, n) && NamesAreFree(s, snap, n) && OwnerKnown(s, snap)
  }

  /** How many participants of a snapshot are enrolled. */
  function Joining(s: Side, snap: Snapshot): (k: nat)
    ensures k <= |snap.participants|
  {
    if Accepts(s, snap) then KnownCount(s, snap, |snap.participants|) else 0
  }

  function Newcomers(s: Side, snap: Snapshot): set<string> { Named(snap, Joining(s, snap), s.domain) }

  /** The rows of the first `n` participants. */
  function Rows(snap: Snapshot, n: nat, ours: string): set<(string, string)>
    requires n <= |snap.participants|
  {
    if n == 0 then {} else Rows(snap, n - 1, ours) + {(snap.channel, StorageId(snap.participants[n - 1], ours))}
  }

  /** The row a mirrored channel has then. */
  function MirroredRow(s: Side, snap: Snapshot): Dm {
    if snap.channel in s.channels then s.channels[snap.channel].(origin := Some(snap.home))
    else Dm(snap.kind, StorageId(snap.owner, s.domain), Some(snap.home))
  }

  /** The side on which everybody from elsewhere in the snapshot has a row. */
  predicate Prepared(before: Side, s: Side, snap: Snapshot) {
    s.domain == before.domain && s.users == Upserted(before, snap, |snap.participants|)
  }

  lemma KnownIsStored(before: Side, s: Side, snap: Snapshot, i: nat)
    requires Prepared(before, s, snap) && i < |snap.participants|
    ensures StorageId(snap.participants[i], s.domain) in s.users <==> Known(before, snap.participants[i])
  {
    StoredIff(before, snap, snap.participants[i]);
  }

  lemma StoredIff(s: Side, snap: Snapshot, id: string)
    ensures StorageId(id, s.domain) in Upserted(s, snap, |snap.participants|)
            <==> StorageId(id, s.domain) in s.users || (!IsLocal(id, s.domain) && id in snap.participants)
  {
    BareIds(id);
    BareIds(LocalPart(id));
    assert '@' !in LocalPart(id);
    UpsertedHas(s, snap, |snap.participants|, StorageId(id, s.domain));
  }

  function WithRows(s: Side, rows: set<(string, string)>): Side { s.(participants := s.participants + rows) }

  lemma MoreRows(s: Side, rows: set<(string, string)>, channel: string, user: string)
    ensures AddParticipant(WithRows(s, rows), channel, user) == WithRows(s, rows + {(channel, user)})
  {
    assert (s.participants + rows) + {(channel, user)} == s.participants + (rows + {(channel, user)});
  }

  lemma NoRows(s: Side)
    ensures WithRows(s, {}) == s
  {
  }

  /** The second pass over `n` participants has enrolled the first `k`, and goes on if that is all of them. */
  ghost predicate EnrolsTo(s: Side, snap: Snapshot, k: nat, n: nat, t: Side, ok: bool)
    requires k <= n <= |snap.participants|
  {
    t == WithRows(s, Rows(snap, k, s.domain)) && (ok <==> k == n)
  }

  /** It enrols participants up to the first of ours that does not exist. */
  lemma {:induction false} EnrolMeans(before: Side, s: Side, snap: Snapshot, n: nat)
    requires n <= |snap.participants| && Prepared(before, s, snap)
    ensures var (t, ok) := Enrol(s, snap, n); EnrolsTo(s, snap, KnownCount(before, snap, n), n, t, ok)
  {
    if n == 0 {
      NoRows(s);
    } else {
      EnrolMeans(before, s, snap, n - 1);
      KnownNext(before, snap, n);
      KnownIsStored(before, s, snap, n - 1);
      var (t, ok) := Enrol(s, snap, n - 1);
      EnrolNext(s, snap, KnownCount(before, snap, n - 1), n - 1, t, ok);
    }
  }

  lemma EnrolNext(s: Side, snap: Snapshot, k: nat, n: nat, t: Side, ok: bool)
    requires k <= n < |snap.participants| && EnrolsTo(s, snap, k, n, t, ok)
    ensures var (u, go) := if ok then EnrolAt(t, snap, n) else (t, false);
            EnrolsTo(s, snap, if ok && StorageId(snap.participants[n], s.domain) in s.users then n + 1 else k, n + 1, u, go)
  {
    if ok {
      EnrolOne(s, snap, n);
    }
  }

  lemma KnownNext(s: Side, snap: Snapshot, n: nat)
    requires 0 < n <= |snap.participants|
    ensures var k := KnownCount(s, snap, n - 1);
            KnownCount(s, snap, n) == if k == n - 1 && Known(s, snap.participants[n - 1]) then n else k
  {
  }

  lemma EnrolOne(s: Side, snap: Snapshot, i: nat)
    requires i < |snap.participants|
    ensures var t := WithRows(s, Rows(snap, i, s.domain));
            EnrolAt(t, snap, i) == if StorageId(snap.participants[i], s.domain) in s.users
                                   then (WithRows(s, Rows(snap, i + 1, s.domain)), true) else (t, false)
  {
    MoreRows(s, Rows(snap, i, s.domain), snap.channel, StorageId(snap.participants[i], s.domain));
  }

  lemma ConsultPrepares(s: Side, snap: Snapshot)
    requires Consult(s, snap, |snap.participants|).1
    ensures var t := Consult(s, snap, |snap.participants|).0;
            && Prepared(s, t, snap)
            && (snap.channel in s.channels || StorageId(snap.owner, s.domain) in t.users <==> OwnerKnown(s, snap))
  {
    ConsultMeans(s, snap, |snap.participants|);
    StoredIff(s, snap, snap.owner);
  }

  /** What a snapshot does, whether it goes through or not: it enrols its participants up to the first of ours
      that does not exist, and stores its channel, if it is accepted. */
  lemma MirrorMeans(s: Side, snap: Snapshot)
    ensures var (t, ok) := Mirror(s, snap);
            && t.domain == s.domain && t.blocks == s.blocks
            && t.participants == s.participants + Rows(snap, Joining(s, snap), s.domain)
            && t.channels == (if Accepts(s, snap) then s.channels[snap.channel := MirroredRow(s, snap)] else s.channels)
            && (ok <==> Accepts(s, snap) && forall p :: p in snap.participants ==> Known(s, p))
  {
    var n := |snap.participants|;
    ConsultMeans(s, snap, n);
    var (t, consented) := Consult(s, snap, n);
    if consented {
      ConsultPrepares(s, snap);
      var (u, stored) := MirrorChannel(t, snap);
      if stored {
        EnrolMeans(s, u, snap, n);
      }
    }
  }

  /** Whom the first `n` participants of a snapshot add to channel `c`. */
  function Brings(snap: Snapshot, n: nat, ours: string, c: string): set<string>
    requires n <= |snap.participants|
  {
    if c == snap.channel then Named(snap, n, ours) else {}
  }

  lemma {:induction false} RowsMean(snap: Snapshot, n: nat, c: string, ours: string)
    requires n <= |snap.participants|
    ensures Meant(Rows(snap, n, ours), c, ours) == Brings(snap, n, ours, c)
  {
    if n == 0 {
      NoneMean(c, ours);
    } else {
      RowsMean(snap, n - 1, c, ours);
      OneMoreRow(Rows(snap, n - 1, ours), snap.channel, snap.participants[n - 1], c, ours);
    }
  }

  lemma OneMoreRow(rows: set<(string, string)>, channel: string, id: string, c: string, ours: string)
    ensures Meant(rows + {(channel, StorageId(id, ours))}, c, ours)
         == Meant(rows, c, ours) + if c == channel then {Canonical(id, ours)} else {}
  {
    BothMean(rows, {(channel, StorageId(id, ours))}, c, ours);
    OneMeans(channel, StorageId(id, ours), c, ours);
    StorageKeepsMeaning(id, ours);
  }

  /** What a snapshot does to any channel, whether it goes through or not: whoever it enrols joins those who
      were in its channel, and no other channel is touched. It goes through exactly if nobody refuses, the others'
      names are free, the owner of a new channel is known and those of the participants that are ours exist. */
  lemma MirroredMembers(s: Side, snap: Snapshot, c: string)
    ensures var (t, ok) := Mirror(s, snap);
            && t.domain == s.domain && t.blocks == s.blocks
            && Members(t, c) == Members(s, c) + (if c == snap.channel then Newcomers(s, snap) else {})
            && (ok <==> Accepts(s, snap) && forall p :: p in snap.participants ==> Known(s, p))
  {
    MirrorMeans(s, snap);
    BothMean(s.participants, Rows(snap, Joining(s, snap), s.domain), c, s.domain);
    RowsMean(snap, Joining(s, snap), c, s.domain);
  }

  /** A mirrored channel has the participants it had and all of the snapshot's. */
  lemma MirroredChannel(s: Side, snap: Snapshot)
    requires Mirror(s, snap).1
    ensures var t := Mirror(s, snap).0;
            && Members(t, snap.channel) == Members(s, snap.channel) + Named(snap, |snap.participants|, s.domain)
            && snap.channel in t.channels && t.channels[snap.channel] == MirroredRow(s, snap)
  {
    MirrorMeans(s, snap);
    MirroredMembers(s, snap, snap.channel);
    assert Newcomers(s, snap) == Named(snap, |snap.participants|, s.domain);
  }

  // ---------------------------------------------------------------------------
  // Whose channels a snapshot can touch
  // ---------------------------------------------------------------------------

  /** A peer speaks for its own channels and openers only. */
  predicate Announceable(peer: string, snap: Snapshot) {
    RequireHomedOn(snap.channel, peer) && RequireHomedOn(snap.opener, peer)
  }

  datatype Announcement = Announcement(peer: string, snap: Snapshot)

  function Announce(s: Side, a: Announcement): (Side, bool) {
    if Announceable(a.peer, a.snap) then Mirror(s, a.snap) else (s, false)
  }

  ghost predicate Untouched(s: Side, t: Side, c: string) {
    && (c in t.channels <==> c in s.channels) && (c in s.channels ==> t.channels[c] == s.channels[c])
    && forall u :: (c, u) in t.participants <==> (c, u) in s.participants
  }

  /** The channel and those it enrols are there already. */
  predicate Repeats(s: Side, snap: Snapshot) {
    && snap.channel in s.channels && s.channels[snap.channel].origin == Some(snap.home)
    && Rows(snap, Joining(s, snap), s.domain) <= s.participants
  }

  lemma {:induction false} RowsAreItsOwn(snap: Snapshot, n: nat, ours: string, row: (string, string))
    requires n <= |snap.participants| && row in Rows(snap, n, ours)
    ensures row.0 == snap.channel
  {
    if row in Rows(snap, n - 1, ours) {
      RowsAreItsOwn(snap, n - 1, ours, row);
    }
  }

  /** A snapshot leaves every channel but its own alone, and its own exactly if it is not accepted or says
      nothing new. */
  lemma SnapshotTouches(s: Side, snap: Snapshot, c: string)
    ensures Untouched(s, Mirror(s, snap).0, c) <==> c != snap.channel || !Accepts(s, snap) || Repeats(s, snap)
  {
    MirrorMeans(s, snap);
    var rows := Rows(snap, Joining(s, snap), s.domain);
    forall row | row in rows
      ensures row.0 == snap.channel
    {
      RowsAreItsOwn(snap, Joining(s, snap), s.domain, row);
    }
    if c == snap.channel && Accepts(s, snap) && Untouched(s, Mirror(s, snap).0, c) {
      forall row | row in rows
        ensures row in s.participants
      {
        assert (c, row.1) == row;
      }
    }
  }

  /** An announcement touches channels of the announcing peer only. The answer to an open need not: it leaves
      what is homed elsewhere, our own channels included, alone exactly if its channel is homed on the server that
      was asked, or it is not accepted, or it says nothing new. */
  lemma AnswersAreFramedIff(s: Side, peer: string, snap: Snapshot)
    ensures forall c :: !Homed(c, peer) ==> Untouched(s, Announce(s, Announcement(peer, snap)).0, c)
    ensures (forall c :: !Homed(c, peer) ==> Untouched(s, Mirror(s, snap).0, c))
            <==> Homed(snap.channel, peer) || !Accepts(s, snap) || Repeats(s, snap)
  {
    forall c
      ensures Untouched(s, Mirror(s, snap).0, c) <==> c != snap.channel || !Accepts(s, snap) || Repeats(s, snap)
    {
      SnapshotTouches(s, snap, c);
    }
  }

  /** An answer that names one of our own channels, with one participant from elsewhere: the channel is a replica
      then, and that participant is in it. */
  lemma AnswerMayNameOurChannel(s: Side, snap: Snapshot, p: string)
    requires snap.channel in s.channels && s.channels[snap.channel].origin == None
    requires snap.participants == [p] && !IsLocal(p, s.domain) && !Taken(s.users, p, HandleAt(snap, 0))
    ensures var (t, ok) := Mirror(s, snap);
            && ok && snap.channel in t.channels && t.channels[snap.channel].origin == Some(snap.home)
            && (snap.channel, p) in t.participants
  {
    OneStranger(s, snap, p);
    MirrorMeans(s, snap);
    assert Rows(snap, 1, s.domain) == Rows(snap, 0, s.domain) + {(snap.channel, p)};
  }

  /** A lone participant from elsewhere is accepted into a channel that exists, under any free name. */
  lemma OneStranger(s: Side, snap: Snapshot, p: string)
    requires snap.channel in s.channels
    requires snap.participants == [p] && !IsLocal(p, s.domain) && !Taken(s.users, p, HandleAt(snap, 0))
    ensures Accepts(s, snap) && Joining(s, snap) == 1 && Mirror(s, snap).1
  {
    assert Upserted(s, snap, 0) == s.users;
    MirrorMeans(s, snap);
  }

  /** What a snapshot calls its home is compared with nothing. So a mirrored channel has its own home for an
      origin exactly if the peer names itself. */
  lemma OriginIsTheHomeIff(s: Side, a: Announcement)
    requires Announce(s, a).1
    ensures var t, c := Announce(s, a).0, a.snap.channel;
            && c in t.channels && t.channels[c].origin.Some?
            && (Homed(c, t.channels[c].origin.value) <==> SameDomain(a.snap.home, a.peer))
  {
    MirroredChannel(s, a.snap);
  }

  // ---------------------------------------------------------------------------
  // Whose names a snapshot can change
  // ---------------------------------------------------------------------------

  predicate KeepsName(s: Side, t: Side, id: string)
    requires id in s.users
  {
    t.domain == s.domain && id in t.users && t.users[id] == s.users[id]
  }

  lemma ConsultKeepsName(s: Side, t: Side, snap: Snapshot, i: nat, id: string)
    requires i < |snap.participants| && id in s.users && (IsLocal(id, s.domain) || id !in snap.participants)
    requires KeepsName(s, t, id)
    ensures KeepsName(s, ConsultAt(t, snap, i).0, id)
  {
  }

  lemma {:induction false} ConsultKeepsNames(s: Side, snap: Snapshot, n: nat, id: string)
    requires n <= |snap.participants| && id in s.users && (IsLocal(id, s.domain) || id !in snap.participants)
    ensures KeepsName(s, Consult(s, snap, n).0, id)
  {
    if n > 0 {
      ConsultKeepsNames(s, snap, n - 1, id);
      var (t, ok) := Consult(s, snap, n - 1);
      if ok {
        ConsultKeepsName(s, t, snap, n - 1, id);
      }
    }
  }

  lemma {:induction false} EnrolKeepsUsers(s: Side, snap: Snapshot, n: nat)
    requires n <= |snap.participants|
    ensures Enrol(s, snap, n).0.users == s.users
  {
    if n > 0 {
      EnrolKeepsUsers(s, snap, n - 1);
    }
  }

  lemma MirroredUsers(s: Side, snap: Snapshot)
    ensures Mirror(s, snap).0.users == Consult(s, snap, |snap.participants|).0.users
  {
    EnrolKeepsUsers(MirrorChannel(Consult(s, snap, |snap.participants|).0, snap).0, snap, |snap.participants|);
  }

  /** Our own users and whoever is not in a snapshot keep their names, whatever becomes of it. */
  lemma OnlyListedAreRenamed(s: Side, snap: Snapshot, id: string)
    requires id in s.users && (IsLocal(id, s.domain) || id !in snap.participants)
    ensures KeepsName(s, Mirror(s, snap).0, id)
  {
    ConsultKeepsNames(s, snap, |snap.participants|, id);
    MirroredUsers(s, snap);
    MirrorMeans(s, snap);
  }

  lemma {:induction false} LastNameStays(s: Side, snap: Snapshot, i: nat, n: nat)
    requires i < n <= |snap.participants| && !IsLocal(snap.participants[i], s.domain)
    requires snap.participants[i] !in snap.participants[i + 1..n]
    ensures var p := snap.participants[i]; p in Upserted(s, snap, n) && Upserted(s, snap, n)[p] == HandleAt(snap, i)
  {
    if n > i + 1 {
      var ids := snap.participants;
      assert ids[i + 1..n][n - i - 2] == ids[n - 1];
      assert ids[i + 1..n] == ids[i + 1..n - 1] + [ids[n - 1]];
      LastNameStays(s, snap, i, n - 1);
    }
  }

  /** Everybody else in an accepted snapshot has the name it gave last, whoever sent it: it need not be the server
      the user is on. */
  lemma ListedAreRenamed(s: Side, snap: Snapshot, i: nat)
    requires Accepts(s, snap) && i < |snap.participants| && !IsLocal(snap.participants[i], s.domain)
    requires snap.participants[i] !in snap.participants[i + 1..]
    ensures var t, p := Mirror(s, snap).0, snap.participants[i]; p in t.users && t.users[p] == HandleAt(snap, i)
  {
    assert snap.participants[i + 1..] == snap.participants[i + 1..|snap.participants|];
    LastNameStays(s, snap, i, |snap.participants|);
    ConsultMeans(s, snap, |snap.participants|);
    MirroredUsers(s, snap);
  }

  // ---------------------------------------------------------------------------
  // Opening a 1:1 channel
  // ---------------------------------------------------------------------------

  /** Both rows a channel needs are there already or made with it. */
  ghost predicate Sound(s: Side, newId: string) {
    '@' !in newId && newId !in s.channels && forall p :: p in s.participants ==> p.0 in s.channels
  }

  function OwnerOf(s: Side, channel: string, other: string): string {
    if channel in s.channels then s.channels[channel].owner else other
  }

  function UserName(s: Side, user: string): string { if user in s.users then s.users[user] else user }

  /** The opener's server is the home: it creates the channel and announces it. The recipient's row gets the ID
      for a name, which somebody else may have. */
  function OpenAsHome(h: Side, opener: string, recipient: string, newId: string, found: Option<string>)
    : Option<(Side, string, Snapshot)>
  {
    if Taken(h.users, recipient, recipient) then None
    else
      var (t, c) := CreateDm(h.(users := h.users[recipient := recipient]), opener, [recipient], newId, found);
      Some((t, c, Snapshot(Qualify(c, h.domain), h.domain, "dm", Qualify(opener, h.domain),
                           Qualify(OwnerOf(t, c, opener), h.domain), [Qualify(opener, h.domain), recipient],
                           map[0 := UserName(h, opener), 1 := recipient])))
  }

  datatype OpenRequest = OpenRequest(opener: string, name: Option<string>, recipient: string)

  /** The name under which the opener gets a row. */
  function OpenerHandle(peer: string, req: OpenRequest): string {
    Handle(if req.name.Some? then req.name.value else req.opener, peer)
  }

  function WithOpener(h: Side, peer: string, req: OpenRequest): Side {
    h.(users := h.users[req.opener := OpenerHandle(peer, req)])
  }

  /** The recipient's server is the home: it checks who asks and whether the recipient agrees. */
  function ServeOpen(h: Side, peer: string, req: OpenRequest, newId: string, found: Option<string>)
    : Option<(Side, string, Snapshot)>
  {
    var local := LocalPart(req.recipient);
    if !RequireHomedOn(req.opener, peer) || !IsLocal(req.recipient, h.domain) then None
    else if local !in h.users || (local, req.opener) in h.blocks then None
    else if Taken(h.users, req.opener, OpenerHandle(peer, req)) then None
    else
      var (t, c) := CreateDm(WithOpener(h, peer, req), req.opener, [local], newId, found);
      Some((t, c, Snapshot(Qualify(c, h.domain), h.domain, "dm", req.opener, Qualify(OwnerOf(t, c, req.opener), h.domain),
                           [req.opener, Qualify(local, h.domain)],
                           (if req.name.Some? then map[0 := req.name.value] else map[])[1 := h.users[local]])))
  }

  /** When the copies of a channel agree after it was opened: a new one always, one that was used again
      exactly if the home had all that the replica had, and nobody else. */
  ghost predicate AgreesIff(h: Side, r: Side, found: Option<string>, channel: string, two: set<string>, agree: bool) {
    agree <==> match found
               case None => Members(r, channel) <= two
               case Some(c) => Members(h, c) == Members(r, channel) + two
  }

  lemma QualifiedPair(snap: Snapshot, a: string, b: string, ours: string, theirs: string)
    requires snap.participants == [Qualify(a, ours), Qualify(b, ours)]
    ensures Named(snap, 2, theirs) == {Canonical(a, ours), Canonical(b, ours)}
  {
    QualifiedIsUniversal(a, ours, theirs);
    QualifiedIsUniversal(b, ours, theirs);
    assert Named(snap, 0, theirs) == {};
    assert Named(snap, 1, theirs) == {Canonical(a, ours)};
  }

  lemma SameChannels(h: Side, g: Side, a: string, b: string, found: Option<string>)
    requires g == h.(users := g.users) && Finds(h, a, b, found)
    ensures Finds(g, a, b, found)
    ensures found.Some? ==> Members(g, found.value) == Members(h, found.value)
  {
    forall c ensures IsDmOf(g, a, b, c) == IsDmOf(h, a, b, c) { }
  }

  /** Whichever side opened it. */
  lemma CopiesAgree(h: Side, users: map<string, string>, r: Side, creator: string, other: string, newId: string,
                    found: Option<string>, snap: Snapshot)
    requires Sound(h, newId) && Finds(h, creator, other, found) && Mirror(r, snap).1
    requires snap.participants == [Qualify(creator, h.domain), Qualify(other, h.domain)]
    ensures var (t, c) := CreateDm(h.(users := users), creator, [other], newId, found);
            AgreesIff(h, r, found, snap.channel, {Canonical(creator, h.domain), Canonical(other, h.domain)},
                      Members(t, c) == Members(Mirror(r, snap).0, snap.channel))
  {
    HomeMembers(h, users, creator, other, newId, found);
    ReplicaMembers(r, snap, creator, other, h.domain);
  }

  lemma HomeMembers(h: Side, users: map<string, string>, creator: string, other: string, newId: string, found: Option<string>)
    requires Sound(h, newId) && Finds(h, creator, other, found)
    ensures var (t, c) := CreateDm(h.(users := users), creator, [other], newId, found);
            var two := {Canonical(creator, h.domain), Canonical(other, h.domain)};
            if found.None? then Members(t, c) == two
            else c == found.value && Members(t, c) == Members(h, c) && two <= Members(h, c)
  {
    var g := h.(users := users);
    SameChannels(h, g, creator, other, found);
    CreatedMembers(g, creator, other, newId, found);
  }

  lemma ReplicaMembers(r: Side, snap: Snapshot, creator: string, other: string, ours: string)
    requires snap.participants == [Qualify(creator, ours), Qualify(other, ours)] && Mirror(r, snap).1
    ensures Members(Mirror(r, snap).0, snap.channel)
         == Members(r, snap.channel) + {Canonical(creator, ours), Canonical(other, ours)}
  {
    QualifiedPair(snap, creator, other, ours, r.domain);
    MirroredChannel(r, snap);
  }

  /** Opened from the home. */
  lemma OpenedAsHome(h: Side, r: Side, opener: string, recipient: string, newId: string, found: Option<string>)
    requires DomainOf(recipient).Some?
    requires Sound(h, newId) && Finds(h, opener, recipient, found)
    requires OpenAsHome(h, opener, recipient, newId, found).Some?
    requires Mirror(r, OpenAsHome(h, opener, recipient, newId, found).value.2).1
    ensures var (t, c, snap) := OpenAsHome(h, opener, recipient, newId, found).value;
            AgreesIff(h, r, found, snap.channel, {Canonical(opener, h.domain), Canonical(recipient, h.domain)},
                      Members(t, c) == Members(Mirror(r, snap).0, snap.channel))
  {
    BareIds(recipient);
    CopiesAgree(h, h.users[recipient := recipient], r, opener, recipient, newId, found,
                OpenAsHome(h, opener, recipient, newId, found).value.2);
  }

  /** Opened from the other side. */
  lemma OpenedAsReplica(h: Side, r: Side, peer: string, req: OpenRequest, newId: string, found: Option<string>)
    requires Sound(h, newId) && Finds(h, req.opener, LocalPart(req.recipient), found)
    requires ServeOpen(h, peer, req, newId, found).Some?
    requires Mirror(r, ServeOpen(h, peer, req, newId, found).value.2).1
    ensures var (t, c, snap) := ServeOpen(h, peer, req, newId, found).value;
            AgreesIff(h, r, found, snap.channel,
                      {Canonical(req.opener, h.domain), Canonical(LocalPart(req.recipient), h.domain)},
                      Members(t, c) == Members(Mirror(r, snap).0, snap.channel))
  {
    BareIds(req.opener);
    CopiesAgree(h, WithOpener(h, peer, req).users, r, req.opener, LocalPart(req.recipient), newId, found,
                ServeOpen(h, peer, req, newId, found).value.2);
  }

  // ---------------------------------------------------------------------------
  // Refusals
  // ---------------------------------------------------------------------------

  /** Deleting a channel takes its participants with it. */
  function DeleteChannel(s: Side, channel: string): Side {
    s.(channels := s.channels - {channel}, participants := set p | p in s.participants && p.0 != channel)
  }

  /** When the other server refuses, the home takes its channel back. That restores what was there before
      exactly when the channel was new; one that had been in use is lost. */
  lemma RollbackRestoresOnlyNew(h: Side, opener: string, recipient: string, newId: string, found: Option<string>)
    requires Sound(h, newId) && Finds(h, opener, recipient, found)
    requires OpenAsHome(h, opener, recipient, newId, found).Some?
    ensures var (t, c, _) := OpenAsHome(h, opener, recipient, newId, found).value;
            var u := DeleteChannel(t, c);
            && (u.channels == h.channels && u.participants == h.participants <==> found.None?)
            && (found.Some? ==> c in h.channels && c !in u.channels)
  {
    var g := h.(users := h.users[recipient := recipient]);
    if found.Some? {
      assert IsDmOf(h, opener, recipient, found.value);
    } else {
      var t := g.(channels := g.channels[newId := Dm("dm", opener, None)]);
      var u := AddParticipant(t, newId, opener);
      assert [recipient][..0] == [] && AddAll(u, newId, []) == u;
      assert OpenAsHome(h, opener, recipient, newId, found).value.0 == AddParticipant(u, newId, recipient);
      assert (h.channels[newId := Dm("dm", opener, None)]) - {newId} == h.channels;
    }
  }

  // ---------------------------------------------------------------------------
  // Fanout
  // ---------------------------------------------------------------------------

  predicate Distinct(out: seq<string>) { forall i, j :: 0 <= i < j < |out| ==> !SameDomain(out[i], out[j]) }

  predicate Elsewhere(d: string, ids: seq<string>, ours: string) {
    !SameDomain(d, ours) && exists id :: id in ids && DomainOf(id) == Some(d)
  }

  predicate Reached(id: string, out: seq<string>) { exists d :: d in out && Homed(id, d) }

  /** The other servers a message goes to: each once, however its domain is spelled, and never our own. */
  method RemoteParticipantDomains(ids: seq<string>, ours: string) returns (out: seq<string>)
    ensures Distinct(out) && forall d :: d in out ==> Elsewhere(d, ids, ours)
    ensures forall id :: id in ids && !IsLocal(id, ours) ==> Reached(id, out)
  {
    var seen: set<string> := {};
    out := [];
    for i := 0 to |ids|
      invariant Distinct(out) && forall d :: d in out ==> Elsewhere(d, ids, ours)
      invariant forall l :: l in seen <==> exists d :: d in out && Lower(d) == l
      invariant forall j :: 0 <= j < i && !IsLocal(ids[j], ours) ==> Reached(ids[j], out)
    {
      var domain := DomainOf(ids[i]);
      ghost var before := out;
      if domain.Some? {
        var l := Lower(domain.value);
        if !SameDomain(domain.value, ours) && l !in seen {
          seen := seen + {l};
          out := out + [domain.value];
          assert Elsewhere(domain.value, ids, ours);
        }
        assert l in seen || SameDomain(domain.value, ours);
      }
      forall j | 0 <= j < i && !IsLocal(ids[j], ours)
        ensures Reached(ids[j], out)
      {
        var d :| d in before && Homed(ids[j], d);
        assert d in out;
      }
    }
  }

  // ---------------------------------------------------------------------------
  // The same, statement by statement
  // ---------------------------------------------------------------------------

  class Store {
    var side: Side

    constructor (side: Side)
      ensures this.side == side
    {
      this.side := side;
    }

    method CreateDmChannel(creator: string, recipients: seq<string>, newId: string, found: Option<string>)
      returns (channel: Option<string>)
      modifies this
      ensures channel.None? <==> recipients == []
      ensures if recipients == [] then side == old(side)
              else (side, channel.value) == CreateDm(old(side), creator, recipients, newId, found)
    {
      if recipients == [] {
        return None;
      }
      if |recipients| == 1 {
        if found.Some? {
          side := side.(participants := side.participants + {(found.value, creator)});
          return found;
        }
      }
      var kind := if |recipients| == 1 then "dm" else "group_dm";
      side := side.(channels := side.channels[newId := Dm(kind, creator, None)]);
      side := side.(participants := side.participants + {(newId, creator)});
      ghost var before := side;
      for i := 0 to |recipients|
        invariant side == AddAll(before, newId, recipients[..i])
      {
        assert recipients[..i + 1][..i] == recipients[..i];
        side := side.(participants := side.participants + {(newId, recipients[i])});
      }
      assert recipients[..|recipients|] == recipients;
      return Some(newId);
    }

    /** Whether one of our users has blocked none of the other participants. */
    method Agrees(snap: Snapshot, p: string) returns (ok: bool)
      requires IsLocal(p, side.domain) && !SameId(p, snap.opener)
      ensures ok <==> !Refuses(side, snap, p)
    {
      for k := 0 to |snap.participants|
        invariant forall j :: 0 <= j < k ==>
                    SameId(snap.participants[j], p) || (LocalPart(p), snap.participants[j]) !in side.blocks
      {
        var other := snap.participants[k];
        if !SameId(other, p) && (LocalPart(p), other) in side.blocks {
          return false;
        }
      }
      return true;
    }

    method UpsertRemoteUser(id: string, handle: string) returns (ok: bool)
      modifies this
      ensures (side, ok) == UpsertUser(old(side), id, handle)
    {
      ok := !Taken(side.users, id, handle);
      if ok {
        side := side.(users := side.users[id := handle]);
      }
    }

    method ConsultOne(snap: Snapshot, i: nat) returns (ok: bool)
      requires i < |snap.participants|
      modifies this
      ensures (side, ok) == ConsultAt(old(side), snap, i)
    {
      var p := snap.participants[i];
      if !IsLocal(p, side.domain) {
        ok := UpsertRemoteUser(p, HandleAt(snap, i));
      } else if SameId(p, snap.opener) {
        ok := true;
      } else {
        ok := Agrees(snap, p);
      }
    }

    method UpsertRemoteDmChannel(id: string, origin: string, kind: string, owner: string) returns (ok: bool)
      modifies this
      ensures (side, ok) == UpsertChannel(old(side), id, kind, owner, origin)
    {
      if id in side.channels {
        side := side.(channels := side.channels[id := side.channels[id].(origin := Some(origin))]);
        return true;
      }
      if owner !in side.users {
        return false;
      }
      side := side.(channels := side.channels[id := Dm(kind, owner, Some(origin))]);
      return true;
    }

    method Participate(channel: string, user: string) returns (ok: bool)
      modifies this
      ensures ok <==> user in old(side).users
      ensures side == if ok then AddParticipant(old(side), channel, user) else old(side)
    {
      ok := user in side.users;
      if ok {
        side := side.(participants := side.participants + {(channel, user)});
      }
    }

    method MirrorDm(snap: Snapshot) returns (ok: bool)
      modifies this
      ensures (side, ok) == Mirror(old(side), snap)
    {
      ghost var before := side;
      for i := 0 to |snap.participants|
        invariant (side, true) == Consult(before, snap, i)
      {
        ok := ConsultOne(snap, i);
        if !ok {
          RefusedStays(before, snap, i + 1, |snap.participants|);
          return;
        }
      }
      ok := UpsertRemoteDmChannel(snap.channel, snap.home, snap.kind, StorageId(snap.owner, side.domain));
      if !ok {
        return;
      }
      ok := EnrolAll(snap);
    }

    method EnrolAll(snap: Snapshot) returns (ok: bool)
      modifies this
      ensures (side, ok) == Enrol(old(side), snap, |snap.participants|)
    {
      ghost var before := side;
      for i := 0 to |snap.participants|
        invariant (side, true) == Enrol(before, snap, i)
      {
        ok := Participate(snap.channel, StorageId(snap.participants[i], side.domain));
        if !ok {
          EnrolStops(before, snap, i + 1, |snap.participants|);
          return;
        }
      }
      return true;
    }

    method Delete(channel: string)
      modifies this
      ensures side == DeleteChannel(old(side), channel)
    {
      side := side.(channels := side.channels - {channel},
                    participants := set p | p in side.participants && p.0 != channel);
    }

    /** `open_dm_as_home`; `refused` is the other server's answer to the announcement. */
    method OpenDmAsHome(opener: string, recipient: string, newId: string, found: Option<string>, refused: bool)
      returns (snap: Option<Snapshot>)
      modifies this
      ensures match OpenAsHome(old(side), opener, recipient, newId, found)
              case None => snap == None && side == old(side)
              case Some((t, c, announced)) => snap == Some(announced) && side == if refused then DeleteChannel(t, c) else t
    {
      ghost var before := side;
      var name := UserName(side, opener);
      var stored := UpsertRemoteUser(recipient, recipient);
      if !stored {
        return None;
      }
      CreatedRows(side, opener, recipient, newId, found);
      var channel := CreateDmChannel(opener, [recipient], newId, found);
      var c := channel.value;
      snap := Some(Snapshot(Qualify(c, side.domain), side.domain, "dm", Qualify(opener, side.domain),
                            Qualify(OwnerOf(side, c, opener), side.domain), [Qualify(opener, side.domain), recipient],
                            map[0 := name, 1 := recipient]));
      if refused {
        Delete(c);
      }
    }

    /** `serve_open`. */
    method HandleOpen(peer: string, req: OpenRequest, newId: string, found: Option<string>) returns (snap: Option<Snapshot>)
      modifies this
      ensures match ServeOpen(old(side), peer, req, newId, found)
              case None => snap == None && side == old(side)
              case Some((t, _, answer)) => snap == Some(answer) && side == t
    {
      var local := LocalPart(req.recipient);
      if !RequireHomedOn(req.opener, peer) || !IsLocal(req.recipient, side.domain) || local !in side.users
         || (local, req.opener) in side.blocks {
        return None;
      }
      var name := side.users[local];
      var stored := UpsertRemoteUser(req.opener, OpenerHandle(peer, req));
      if !stored {
        return None;
      }
      CreatedRows(side, req.opener, local, newId, found);
      var channel := CreateDmChannel(req.opener, [local], newId, found);
      var c := channel.value;
      return Some(Snapshot(Qualify(c, side.domain), side.domain, "dm", req.opener,
                           Qualify(OwnerOf(side, c, req.opener), side.domain), [req.opener, Qualify(local, side.domain)],
                           (if req.name.Some? then map[0 := req.name.value] else map[])[1 := name]));
    }
  }

  lemma {:induction false} RefusedStays(s: Side, snap: Snapshot, n: nat, m: nat)
    requires n <= m <= |snap.participants| && !Consult(s, snap, n).1
    ensures Consult(s, snap, m) == Consult(s, snap, n)
  {
    if n < m {
      RefusedStays(s, snap, n, m - 1);
    }
  }

  lemma {:induction false} EnrolStops(s: Side, snap: Snapshot, n: nat, m: nat)
    requires n <= m <= |snap.participants| && !Enrol(s, snap, n).1
    ensures Enrol(s, snap, m) == Enrol(s, snap, n)
  {
    if n < m {
      EnrolStops(s, snap, n, m - 1);
    }
  }
}
