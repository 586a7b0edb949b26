/** Consent to direct messages: which blocks the servers look for, which they overlook, and who is in a channel with
    whom after any run of announcements and opens. */
module Consent {
  import opened Wrappers
  import opened Mapping
  import opened DirectMessages

  type Block = (string, string)

  /** One of these users blocks another of them, and is not exempt. */
  predicate Breach(r: Block, members: set<string>, exempt: set<string>, ours: string) {
    var who, whom := Canonical(r.0, ours), Canonical(r.1, ours);
    who in members && whom in members && who != whom && who !in exempt
  }

  predicate Agreed(s: Side, members: set<string>, exempt: set<string>) {
    forall r :: r in s.blocks ==> !Breach(r, members, exempt, s.domain)
  }

  /** Nobody in the channel, but for those exempt, blocks anybody else in it. */
  predicate Consented(s: Side, channel: string, exempt: set<string>) { Agreed(s, Members(s, channel), exempt) }

  /** The block is between members once these come in, and was not before. */
  predicate BroughtIn(s: Side, r: Block, channel: string, more: set<string>, exempt: set<string>) {
    && Breach(r, Members(s, channel) + more, exempt, s.domain)
    && !Breach(r, Members(s, channel), exempt, s.domain)
  }

  /** With them comes a block. */
  predicate Intrude(s: Side, channel: string, more: set<string>, exempt: set<string>) {
    exists r :: r in s.blocks && BroughtIn(s, r, channel, more, exempt)
  }

  lemma ConsentAfter(s: Side, channel: string, more: set<string>, exempt: set<string>)
    ensures Agreed(s, Members(s, channel) + more, exempt)
            <==> Consented(s, channel, exempt) && !Intrude(s, channel, more, exempt)
  {
    if Consented(s, channel, exempt) && !Agreed(s, Members(s, channel) + more, exempt) {
      var r :| r in s.blocks && Breach(r, Members(s, channel) + more, exempt, s.domain);
      assert BroughtIn(s, r, channel, more, exempt);
    }
  }

  // ---------------------------------------------------------------------------
  // What the check looks for
  // ---------------------------------------------------------------------------

  /** Does the check of a snapshot look for this block? It does if the one who blocks is ours, in the snapshot
      and not its opener, and the other one is in it too, written exactly like in the block. */
  predicate LooksFor(s: Side, snap: Snapshot, r: Block) {
    exists p :: p in snap.participants && LooksForBlockOf(s, snap, r, p)
  }

  predicate LooksForBlockOf(s: Side, snap: Snapshot, r: Block, p: string) {
    && IsLocal(p, s.domain) && !SameId(p, snap.opener) && LocalPart(p) == r.0
    && r.1 in snap.participants && !SameId(r.1, p)
  }

  lemma RefusesOverABlock(s: Side, snap: Snapshot)
    ensures (exists p :: p in snap.participants && Refuses(s, snap, p)) <==> exists r :: r in s.blocks && LooksFor(s, snap, r)
  {
    forall p | p in snap.participants && Refuses(s, snap, p)
      ensures exists r :: r in s.blocks && LooksFor(s, snap, r)
    {
      var other :| other in snap.participants && !SameId(other, p) && (LocalPart(p), other) in s.blocks;
      assert LooksForBlockOf(s, snap, (LocalPart(p), other), p);
      assert LooksFor(s, snap, (LocalPart(p), other));
    }
    forall r | r in s.blocks && LooksFor(s, snap, r)
      ensures exists p :: p in snap.participants && Refuses(s, snap, p)
    {
      var p :| p in snap.participants && LooksForBlockOf(s, snap, r, p);
      assert (LocalPart(p), r.1) in s.blocks;
      assert Refuses(s, snap, p);
    }
  }

  lemma AcceptsIff(s: Side, snap: Snapshot)
    ensures Accepts(s, snap)
            <==> && NamesAreFree(s, snap, |snap.participants|) && OwnerKnown(s, snap)
                 && forall r :: r in s.blocks ==> !LooksFor(s, snap, r)
  {
    RefusesOverABlock(s, snap);
  }

  /** Why the check of a snapshot overlooks a block: one of the two is not in the snapshot and came in some other
      way; the one who is blocked is written differently there than in the block, as our own users always are,
      since blocks have their bare IDs; or the one who blocks is not asked, having opened the channel. */
  datatype Reason = BlockerElsewhere | BlockedElsewhere | WrittenOtherwise | NotAsked

  predicate SameUser(a: string, b: string, ours: string) { Canonical(a, ours) == Canonical(b, ours) }

  predicate Listed(s: Side, snap: Snapshot, id: string) {
    exists p :: p in snap.participants && SameUser(p, id, s.domain)
  }

  /** Wherever the snapshot has the one who blocks, it is as the opener, or as the one who is blocked but for case. */
  predicate NeverAsked(s: Side, snap: Snapshot, r: Block) {
    forall p :: p in snap.participants && SameUser(p, r.0, s.domain) ==> SameId(p, snap.opener) || SameId(p, r.1)
  }

  function WhyOverlooked(s: Side, snap: Snapshot, r: Block): Option<Reason> {
    if !Listed(s, snap, r.0) then Some(BlockerElsewhere)
    else if !Listed(s, snap, r.1) then Some(BlockedElsewhere)
    else if r.1 !in snap.participants then Some(WrittenOtherwise)
    else if NeverAsked(s, snap, r) then Some(NotAsked)
    else None
  }

  /** An ID means one of our own users exactly if its local part does. */
  lemma MeansOurOwn(p: string, user: string, ours: string)
    requires '@' !in user
    ensures SameUser(p, user, ours) <==> IsLocal(p, ours) && LocalPart(p) == user
  {
    BareIds(p);
    assert '@' !in LocalPart(p);
    QualifiedParts(user, ours);
    QualifiedParts(user, Lower(ours));
    if DomainOf(p).Some? {
      QualifiedParts(LocalPart(p), Lower(DomainOf(p).value));
    } else {
      QualifiedParts(p, ours);
      QualifiedParts(p, Lower(ours));
    }
  }

  lemma ListedAs(s: Side, snap: Snapshot, id: string, p: string)
    requires p in snap.participants && SameUser(p, id, s.domain)
    ensures Listed(s, snap, id)
  {
  }

  lemma AskedAs(s: Side, snap: Snapshot, r: Block, p: string)
    requires p in snap.participants && SameUser(p, r.0, s.domain) && !SameId(p, snap.opener) && !SameId(p, r.1)
    ensures !NeverAsked(s, snap, r)
  {
  }

  lemma NothingOverlooked(s: Side, snap: Snapshot, r: Block, p: string)
    requires '@' !in r.0 && p in snap.participants && LooksForBlockOf(s, snap, r, p)
    ensures WhyOverlooked(s, snap, r).None?
  {
    MeansOurOwn(p, r.0, s.domain);
    ListedAs(s, snap, r.0, p);
    ListedAs(s, snap, r.1, r.1);
    AskedAs(s, snap, r, p);
  }

  lemma Asked(s: Side, snap: Snapshot, r: Block) returns (p: string)
    requires '@' !in r.0 && WhyOverlooked(s, snap, r).None?
    ensures p in snap.participants && LooksForBlockOf(s, snap, r, p)
  {
    assert !NeverAsked(s, snap, r);
    p :| p in snap.participants && SameUser(p, r.0, s.domain) && !(SameId(p, snap.opener) || SameId(p, r.1));
    MeansOurOwn(p, r.0, s.domain);
  }

  /** The check looks for a block of one of ours exactly if there is no reason to overlook it. */
  lemma OverlookedIff(s: Side, snap: Snapshot, r: Block)
    requires '@' !in r.0
    ensures LooksFor(s, snap, r) <==> WhyOverlooked(s, snap, r).None?
  {
    if LooksFor(s, snap, r) {
      var p :| p in snap.participants && LooksForBlockOf(s, snap, r, p);
      NothingOverlooked(s, snap, r, p);
    }
    if WhyOverlooked(s, snap, r).None? {
      var p := Asked(s, snap, r);
    }
  }

  ghost predicate OwnBlocks(s: Side) { forall r :: r in s.blocks ==> '@' !in r.0 }

  // ---------------------------------------------------------------------------
  // Consent after a snapshot
  // ---------------------------------------------------------------------------

  /** A block that the snapshot brings into its channel and the check overlooks. */
  predicate Slips(s: Side, snap: Snapshot, r: Block, exempt: set<string>) {
    BroughtIn(s, r, snap.channel, Newcomers(s, snap), exempt) && WhyOverlooked(s, snap, r).Some?
  }

  /** Whoever a snapshot enrols, a block comes in with them exactly if one slips through the check. */
  lemma IntrudesIff(s: Side, snap: Snapshot, exempt: set<string>)
    requires OwnBlocks(s)
    ensures Intrude(s, snap.channel, Newcomers(s, snap), exempt) <==> exists r :: r in s.blocks && Slips(s, snap, r, exempt)
  {
    forall r | r in s.blocks && BroughtIn(s, r, snap.channel, Newcomers(s, snap), exempt)
      ensures Slips(s, snap, r, exempt)
    {
      AcceptsIff(s, snap);
      OverlookedIff(s, snap, r);
    }
  }

  /** After a snapshot, gone through or not, everybody in its channel has consented exactly if everybody had
      before and no block slips through the check. */
  lemma MirroredWithConsentIff(s: Side, snap: Snapshot, exempt: set<string>)
    requires OwnBlocks(s)
    ensures Consented(Mirror(s, snap).0, snap.channel, exempt)
            <==> Consented(s, snap.channel, exempt) && forall r :: r in s.blocks ==> !Slips(s, snap, r, exempt)
  {
    MirroredMembers(s, snap, snap.channel);
    ConsentAfter(s, snap.channel, Newcomers(s, snap), exempt);
    IntrudesIff(s, snap, exempt);
  }

  /** The opener of an announced channel is never one of ours, so nobody here is exempt. */
  lemma ForeignOpener(s: Side, a: Announcement, p: string)
    requires Announceable(a.peer, a.snap) && !SameDomain(a.peer, s.domain) && IsLocal(p, s.domain) && DomainOf(p).Some?
    ensures !SameId(p, a.snap.opener) && Canonical(p, s.domain) != Canonical(a.snap.opener, s.domain)
  {
    LowerAt(p);
    LowerAt(a.snap.opener);
    CanonicalDomain(p, s.domain);
    CanonicalDomain(a.snap.opener, s.domain);
  }

  lemma CanonicalDomain(id: string, ours: string)
    requires DomainOf(id).Some?
    ensures DomainOf(Canonical(id, ours)) == Some(Lower(DomainOf(id).value))
  {
    BareIds(id);
    assert '@' !in LocalPart(id);
    QualifiedParts(LocalPart(id), Lower(DomainOf(id).value));
  }

  // ---------------------------------------------------------------------------
  // Runs
  // ---------------------------------------------------------------------------

  /** What brings users into direct message channels of a server: an announcement, the answer of another server
      that was asked to open a channel, serving such a request, or opening a channel as its home, which is taken
      back if the other server refuses. */
  datatype Step =
    | Announced(a: Announcement)
    | Answered(snap: Snapshot)
    | Served(peer: string, req: OpenRequest, newId: string, found: Option<string>)
    | Opened(opener: string, recipient: string, newId: string, found: Option<string>, refused: bool)

  function After(s: Side, step: Step): Side {
    match step
    case Announced(a) => Announce(s, a).0
    case Answered(snap) => Mirror(s, snap).0
    case Served(peer, req, newId, found) =>
      (match ServeOpen(s, peer, req, newId, found)
       case Some((t, _, _)) => t
       case None => s)
    case Opened(opener, recipient, newId, found, refused) =>
      (match OpenAsHome(s, opener, recipient, newId, found)
       case Some((t, c, _)) => if refused then DeleteChannel(t, c) else t
       case None => s)
  }

  /** Whom an open brings into a channel. */
  function Pair(ours: string, creator: string, other: string, newId: string, found: Option<string>, c: string): set<string> {
    match found
    case Some(f) => if c == f then {Canonical(creator, ours)} else {}
    case None => if c == newId then {Canonical(creator, ours), Canonical(other, ours)} else {}
  }

  function Arrivals(s: Side, step: Step, c: string): set<string> {
    match step
    case Announced(a) => if Announceable(a.peer, a.snap) && c == a.snap.channel then Newcomers(s, a.snap) else {}
    case Answered(snap) => if c == snap.channel then Newcomers(s, snap) else {}
    case Served(peer, req, newId, found) =>
      if ServeOpen(s, peer, req, newId, found).None? then {}
      else Pair(s.domain, req.opener, LocalPart(req.recipient), newId, found, c)
    case Opened(opener, recipient, newId, found, _) =>
      if OpenAsHome(s, opener, recipient, newId, found).None? then {}
      else Pair(s.domain, opener, recipient, newId, found, c)
  }

  predicate Empties(s: Side, step: Step, c: string) {
    && step.Opened? && step.refused
    && OpenAsHome(s, step.opener, step.recipient, step.newId, step.found).Some?
    && OpenAsHome(s, step.opener, step.recipient, step.newId, step.found).value.1 == c
  }

  lemma CreatedKeeps(s: Side, creator: string, other: string, newId: string, found: Option<string>)
    ensures SameBlocks(s, CreateDm(s, creator, [other], newId, found).0)
  {
    CreatedRows(s, creator, other, newId, found);
  }

  lemma CreatedBrings(s: Side, creator: string, other: string, newId: string, found: Option<string>, c: string)
    ensures Members(CreateDm(s, creator, [other], newId, found).0, c)
         == Members(s, c) + Pair(s.domain, creator, other, newId, found, c)
  {
    CreatedRows(s, creator, other, newId, found);
    if found.Some? {
      RowsMeanUsers(s, found.value, creator, creator, c);
    } else {
      RowsMeanUsers(s, newId, creator, other, c);
    }
  }

  lemma RowsMeanUsers(s: Side, channel: string, a: string, b: string, c: string)
    ensures Meant(s.participants + {(channel, a), (channel, b)}, c, s.domain)
         == Members(s, c) + if c == channel then {Canonical(a, s.domain), Canonical(b, s.domain)} else {}
  {
    var x, y := {(channel, a)}, {(channel, b)};
    assert {(channel, a), (channel, b)} == x + y;
    BothMean(s.participants, x + y, c, s.domain);
    BothMean(x, y, c, s.domain);
    OneMeans(channel, a, c, s.domain);
    OneMeans(channel, b, c, s.domain);
  }

  lemma DeletedMembers(s: Side, channel: string, c: string)
    ensures Members(DeleteChannel(s, channel), c) == if c == channel then {} else Members(s, c)
  {
  }

  /** The members of a channel after a step. */
  lemma StepMembers(s: Side, step: Step, c: string)
    ensures var t := After(s, step);
            && SameBlocks(s, t)
            && Members(t, c) == if Empties(s, step, c) then {} else Members(s, c) + Arrivals(s, step, c)
  {
    match step
    case Announced(a) => MirroredMembers(s, a.snap, c);
    case Answered(snap) => MirroredMembers(s, snap, c);
    case Served(peer, req, newId, found) =>
      CreatedBrings(WithOpener(s, peer, req), req.opener, LocalPart(req.recipient), newId, found, c);
      CreatedKeeps(WithOpener(s, peer, req), req.opener, LocalPart(req.recipient), newId, found);
    case Opened(opener, recipient, newId, found, _) => OpenedMembers(s, step, c);
  }

  lemma OpenedMembers(s: Side, step: Step, c: string)
    requires step.Opened?
    ensures var t := After(s, step);
            && SameBlocks(s, t)
            && Members(t, c) == if Empties(s, step, c) then {} else Members(s, c) + Arrivals(s, step, c)
  {
    var g := s.(users := s.users[step.recipient := step.recipient]);
    var (t, channel) := CreateDm(g, step.opener, [step.recipient], step.newId, step.found);
    CreatedRows(g, step.opener, step.recipient, step.newId, step.found);
    CreatedBrings(g, step.opener, step.recipient, step.newId, step.found, c);
    DeletedMembers(t, channel, c);
  }

  ghost predicate StepAt(run: seq<Step>, states: seq<Side>, i: nat)
    requires |states| == |run| + 1 && i < |run|
  {
    states[i + 1] == After(states[i], run[i])
  }

  ghost predicate IsRun(run: seq<Step>, states: seq<Side>) {
    |states| == |run| + 1 && forall i: nat :: i < |run| ==> StepAt(run, states, i)
  }

  /** What a step means to the consent of a channel. */
  datatype Mark = Quiet | Intruded | Emptied

  function MarkOf(s: Side, step: Step, c: string, exempt: set<string>): Mark {
    if Empties(s, step, c) then Emptied else if Intrude(s, c, Arrivals(s, step, c), exempt) then Intruded else Quiet
  }

  predicate Follows(before: bool, mark: Mark, after: bool) {
    match mark
    case Quiet => after == before
    case Intruded => !after
    case Emptied => after
  }

  lemma StepFollows(s: Side, step: Step, c: string, exempt: set<string>)
    ensures Follows(Consented(s, c, exempt), MarkOf(s, step, c, exempt), Consented(After(s, step), c, exempt))
  {
    StepMembers(s, step, c);
    ConsentAfter(s, c, Arrivals(s, step, c), exempt);
  }

  /** No intrusion since the channel was last emptied, or since the start if everybody had consented then. */
  predicate Settled(start: bool, marks: seq<Mark>) {
    && (start || Emptied in marks)
    && forall i :: 0 <= i < |marks| && marks[i] == Intruded ==> Emptied in marks[i + 1..]
  }

  lemma SettledNext(start: bool, marks: seq<Mark>, mark: Mark)
    ensures Follows(Settled(start, marks), mark, Settled(start, marks + [mark]))
  {
    var more := marks + [mark];
    assert more[|marks|] == mark && Emptied !in more[|more|..];
    forall i | 0 <= i < |marks|
      ensures more[i] == marks[i] && (Emptied in more[i + 1..] <==> Emptied in marks[i + 1..] || mark == Emptied)
    {
      assert more[i + 1..] == marks[i + 1..] + [mark];
    }
  }

  lemma {:induction false} FollowsAll(bs: seq<bool>, marks: seq<Mark>, n: nat)
    requires |bs| == |marks| + 1 && n <= |marks| && forall i :: 0 <= i < |marks| ==> Follows(bs[i], marks[i], bs[i + 1])
    ensures bs[n] <==> Settled(bs[0], marks[..n])
  {
    if n > 0 {
      FollowsAll(bs, marks, n - 1);
      SettledNext(bs[0], marks[..n - 1], marks[n - 1]);
      assert marks[..n] == marks[..n - 1] + [marks[n - 1]];
    }
  }

  ghost function Marks(run: seq<Step>, states: seq<Side>, c: string, exempt: set<string>): (marks: seq<Mark>)
    requires |run| <= |states|
    ensures |marks| == |run| && forall i :: 0 <= i < |run| ==> marks[i] == MarkOf(states[i], run[i], c, exempt)
  {
    seq(|run|, i requires 0 <= i < |run| => MarkOf(states[i], run[i], c, exempt))
  }

  ghost function Consents(states: seq<Side>, c: string, exempt: set<string>): (bs: seq<bool>)
    ensures |bs| == |states| && forall i :: 0 <= i < |states| ==> bs[i] == Consented(states[i], c, exempt)
  {
    seq(|states|, i requires 0 <= i < |states| => Consented(states[i], c, exempt))
  }

  lemma RunFollows(run: seq<Step>, states: seq<Side>, c: string, exempt: set<string>, i: nat)
    requires IsRun(run, states) && i < |run|
    ensures Follows(Consents(states, c, exempt)[i], Marks(run, states, c, exempt)[i], Consents(states, c, exempt)[i + 1])
  {
    assert StepAt(run, states, i);
    StepFollows(states[i], run[i], c, exempt);
  }

  /** However many announcements, answers and opens there are and in whatever order, everybody in a channel has
      consented after them exactly if nothing brought a block in since the channel was last emptied, or, if it
      never was, if everybody had consented before and nothing brought one in. */
  lemma RunConsent(run: seq<Step>, states: seq<Side>, c: string, exempt: set<string>, n: nat)
    requires IsRun(run, states) && n <= |run|
    ensures Consented(states[n], c, exempt)
            <==> Settled(Consented(states[0], c, exempt), Marks(run, states, c, exempt)[..n])
  {
    forall i: nat | i < |run|
      ensures Follows(Consents(states, c, exempt)[i], Marks(run, states, c, exempt)[i], Consents(states, c, exempt)[i + 1])
    {
      RunFollows(run, states, c, exempt, i);
    }
    FollowsAll(Consents(states, c, exempt), Marks(run, states, c, exempt), n);
  }

  /** The steps that can touch a channel: announcements by its home, and answers and opens that name it. */
  predicate Concerns(step: Step, c: string) {
    match step
    case Announced(a) => Homed(c, a.peer)
    case Answered(snap) => c == snap.channel
    case Served(_, _, newId, found) => c == if found.Some? then found.value else newId
    case Opened(_, _, newId, found, _) => c == if found.Some? then found.value else newId
  }

  lemma StepLeavesAlone(s: Side, step: Step, c: string)
    requires !Concerns(step, c)
    ensures Untouched(s, After(s, step), c)
  {
    match step
    case Announced(a) => SnapshotTouches(s, a.snap, c);
    case Answered(snap) => SnapshotTouches(s, snap, c);
    case Served(peer, req, newId, found) =>
      CreatedRows(WithOpener(s, peer, req), req.opener, LocalPart(req.recipient), newId, found);
    case Opened(opener, recipient, newId, found, _) =>
      CreatedRows(s.(users := s.users[recipient := recipient]), opener, recipient, newId, found);
  }

  lemma UntouchedThrough(s: Side, t: Side, u: Side, c: string)
    requires Untouched(s, t, c) && Untouched(t, u, c)
    ensures Untouched(s, u, c)
  {
  }

  lemma NextLeavesAlone(run: seq<Step>, states: seq<Side>, c: string, n: nat)
    requires IsRun(run, states) && n < |run| && !Concerns(run[n], c)
    ensures Untouched(states[n], states[n + 1], c)
  {
    assert StepAt(run, states, n);
    StepLeavesAlone(states[n], run[n], c);
  }

  /** Nothing else touches it in any run: not its row, and not its participants. */
  lemma {:induction false} RunLeavesAlone(run: seq<Step>, states: seq<Side>, c: string, n: nat)
    requires IsRun(run, states) && n <= |run| && forall i :: 0 <= i < n ==> !Concerns(run[i], c)
    ensures Untouched(states[0], states[n], c)
  {
    if n > 0 {
      RunLeavesAlone(run, states, c, n - 1);
      NextLeavesAlone(run, states, c, n - 1);
      UntouchedThrough(states[0], states[n - 1], states[n], c);
    }
  }

  // ---------------------------------------------------------------------------
  // What the check overlooks
  // ---------------------------------------------------------------------------

  /** A side with one block, of our user `user`, and nobody in the channel yet. */
  predicate OneBlock(s: Side, channel: string, user: string, whom: string) {
    s.blocks == {(user, whom)} && Canonical(user, s.domain) != Canonical(whom, s.domain) && Members(s, channel) == {}
  }

  /** An announcement by a foreign opener who owns the channel. */
  predicate OpenedBy(s: Side, a: Announcement, participants: seq<string>) {
    && Announceable(a.peer, a.snap) && !SameDomain(a.peer, s.domain) && a.snap.owner == a.snap.opener
    && a.snap.participants == participants
  }

  /** A qualified ID of an existing user of ours. */
  predicate OurUser(s: Side, id: string, user: string) {
    DomainOf(id).Some? && IsLocal(id, s.domain) && LocalPart(id) == user && user in s.users
  }

  lemma OpenerIsForeign(s: Side, a: Announcement, participants: seq<string>)
    requires OpenedBy(s, a, participants)
    ensures DomainOf(a.snap.opener).Some? && !IsLocal(a.snap.opener, s.domain) && Known(s, a.snap.opener)
  {
  }

  lemma OurUserMeans(s: Side, id: string, user: string)
    requires OurUser(s, id, user)
    ensures Known(s, id) && DomainOf(user).None? && Canonical(id, s.domain) == Canonical(user, s.domain)
  {
    BareIds(id);
    BareIds(user);
    assert '@' !in user;
    StorageKeepsMeaning(id, s.domain);
  }

  /** `t` has the users `named` in the channel in addition to those of `s`, and the same blocks. */
  ghost predicate Brought(s: Side, t: Side, channel: string, named: set<string>) {
    t.blocks == s.blocks && t.domain == s.domain && Members(t, channel) == Members(s, channel) + named
  }

  /** An announcement goes through if its check does not look for the one block there is. */
  lemma GoesThrough(s: Side, a: Announcement, r: Block)
    requires s.blocks == {r} && OpenedBy(s, a, a.snap.participants) && !LooksFor(s, a.snap, r)
    requires a.snap.opener in a.snap.participants && forall p :: p in a.snap.participants ==> Known(s, p)
    requires NamesAreFree(s, a.snap, |a.snap.participants|)
    ensures var (t, ok) := Announce(s, a);
            ok && Brought(s, t, a.snap.channel, Named(a.snap, |a.snap.participants|, s.domain))
  {
    OpenerIsForeign(s, a, a.snap.participants);
    AcceptsIff(s, a.snap);
    MirroredMembers(s, a.snap, a.snap.channel);
    MirroredChannel(s, a.snap);
  }

  lemma NamedTwo(snap: Snapshot, ours: string)
    requires |snap.participants| >= 2
    ensures Named(snap, 2, ours) == {Canonical(snap.participants[0], ours), Canonical(snap.participants[1], ours)}
  {
    assert Named(snap, 0, ours) == {};
    assert Named(snap, 1, ours) == {Canonical(snap.participants[0], ours)};
  }

  /** A block is looked for only if the one it is against is written that way. */
  lemma NotWritten(s: Side, snap: Snapshot, r: Block)
    requires r.1 !in snap.participants
    ensures !LooksFor(s, snap, r)
  {
  }

  lemma BareIsNotWritten(s: Side, snap: Snapshot, r: Block)
    requires DomainOf(r.1).None? && forall p :: p in snap.participants ==> DomainOf(p).Some?
    ensures !LooksFor(s, snap, r)
  {
  }

  lemma BlockIsABreach(s: Side, channel: string, user: string, whom: string)
    requires (user, whom) in s.blocks && Canonical(user, s.domain) != Canonical(whom, s.domain)
    requires {Canonical(user, s.domain), Canonical(whom, s.domain)} <= Members(s, channel)
    ensures !Consented(s, channel, {})
  {
    assert Breach((user, whom), Members(s, channel), {}, s.domain);
  }

  lemma StrangersBlock(s: Side, t: Side, channel: string, opener: string, user: string, whom: string)
    requires OneBlock(s, channel, user, whom) && Canonical(whom, s.domain) != opener
    requires Brought(s, t, channel, {opener, Canonical(user, s.domain)})
    ensures Consented(t, channel, {})
  {
  }

  lemma FirstTwo(s: Side, a: Announcement, id: string, user: string, whom: string)
    requires s.blocks == {(user, whom)} && OurUser(s, id, user) && OpenedBy(s, a, [a.snap.opener, id])
    requires whom != a.snap.opener && whom != id && NamesAreFree(s, a.snap, 2)
    ensures var (t, ok) := Announce(s, a);
            ok && Brought(s, t, a.snap.channel, {Canonical(a.snap.opener, s.domain), Canonical(user, s.domain)})
  {
    OurUserMeans(s, id, user);
    OpenerIsForeign(s, a, a.snap.participants);
    NotWritten(s, a.snap, (user, whom));
    GoesThrough(s, a, (user, whom));
    NamedTwo(a.snap, s.domain);
  }

  /** The opener is blocked under another spelling of the domain. */
  lemma OtherSpellingIsOverlooked(s: Side, a: Announcement, id: string, user: string, whom: string)
    requires OneBlock(s, a.snap.channel, user, whom) && OurUser(s, id, user) && OpenedBy(s, a, [a.snap.opener, id])
    requires whom != a.snap.opener && Canonical(whom, s.domain) == Canonical(a.snap.opener, s.domain)
    requires NamesAreFree(s, a.snap, 2)
    ensures Announce(s, a).1 && Consented(s, a.snap.channel, {}) && !Consented(Announce(s, a).0, a.snap.channel, {})
  {
    OurUserMeans(s, id, user);
    FirstTwo(s, a, id, user, whom);
    BlockIsABreach(Announce(s, a).0, a.snap.channel, user, whom);
  }

  /** A channel whose members include our user is announced again, with the blocked user alone. */
  lemma BlockedLatecomer(t: Side, b: Announcement, user: string, whom: string)
    requires t.blocks == {(user, whom)} && Canonical(user, t.domain) in Members(t, b.snap.channel)
    requires Canonical(user, t.domain) != Canonical(whom, t.domain)
    requires OpenedBy(t, b, [whom]) && b.snap.opener == whom && NamesAreFree(t, b.snap, 1)
    ensures Announce(t, b).1 && !Consented(Announce(t, b).0, b.snap.channel, {})
  {
    OpenerIsForeign(t, b, [whom]);
    assert !LooksFor(t, b.snap, (user, whom));
    GoesThrough(t, b, (user, whom));
    assert Named(b.snap, 0, t.domain) == {} && Named(b.snap, 1, t.domain) == {Canonical(whom, t.domain)};
    BlockIsABreach(Announce(t, b).0, b.snap.channel, user, whom);
  }

  /** The blocked user comes with a second announcement of the same channel. */
  lemma SecondAnnouncementIsOverlooked(s: Side, a: Announcement, b: Announcement, id: string, user: string, whom: string)
    requires OneBlock(s, a.snap.channel, user, whom) && OurUser(s, id, user) && OpenedBy(s, a, [a.snap.opener, id])
    requires OpenedBy(s, b, [whom]) && b.snap.opener == whom && b.snap.channel == a.snap.channel
    requires Canonical(whom, s.domain) != Canonical(a.snap.opener, s.domain)
    requires NamesAreFree(s, a.snap, 2) && NamesAreFree(Announce(s, a).0, b.snap, 1)
    ensures var (t, ok) := Announce(s, a); ok && Consented(t, a.snap.channel, {})
    ensures var (u, ok) := Announce(Announce(s, a).0, b); ok && !Consented(u, a.snap.channel, {})
  {
    var t := Announce(s, a).0;
    OpenerIsForeign(s, b, [whom]);
    OurUserMeans(s, id, user);
    FirstTwo(s, a, id, user, whom);
    StrangersBlock(s, t, a.snap.channel, Canonical(a.snap.opener, s.domain), user, whom);
    BlockedLatecomer(t, b, user, whom);
  }

  lemma CompanionsJoin(s: Side, a: Announcement, id: string, user: string, other: string, whom: string)
    requires s.blocks == {(user, whom)} && OurUser(s, id, user) && OurUser(s, other, whom)
    requires OpenedBy(s, a, [a.snap.opener, id, other]) && NamesAreFree(s, a.snap, 3)
    ensures var (t, ok) := Announce(s, a);
            ok && Brought(s, t, a.snap.channel, Named(a.snap, 2, s.domain) + {Canonical(whom, s.domain)})
  {
    OurUserMeans(s, other, whom);
    TrioIsKnown(s, a, id, user, other, whom);
    BareIsNotWritten(s, a.snap, (user, whom));
    GoesThrough(s, a, (user, whom));
    assert Named(a.snap, 3, s.domain) == Named(a.snap, 2, s.domain) + {Canonical(other, s.domain)};
  }

  lemma TrioIsKnown(s: Side, a: Announcement, id: string, user: string, other: string, whom: string)
    requires OurUser(s, id, user) && OurUser(s, other, whom) && OpenedBy(s, a, [a.snap.opener, id, other])
    ensures forall p :: p in a.snap.participants ==> Known(s, p) && DomainOf(p).Some?
  {
    OpenerIsForeign(s, a, a.snap.participants);
    OurUserMeans(s, id, user);
    OurUserMeans(s, other, whom);
    OneOfThree(a.snap.participants, a.snap.opener, id, other);
  }

  lemma OneOfThree(ps: seq<string>, x: string, y: string, z: string)
    requires ps == [x, y, z]
    ensures forall p :: p in ps ==> p == x || p == y || p == z
  {
  }

  /** Two of our users, one blocking the other, are drawn into a group by somebody from elsewhere. */
  lemma BlockedCompanionIsOverlooked(s: Side, a: Announcement, id: string, user: string, other: string, whom: string)
    requires OneBlock(s, a.snap.channel, user, whom) && OurUser(s, id, user) && OurUser(s, other, whom)
    requires OpenedBy(s, a, [a.snap.opener, id, other]) && NamesAreFree(s, a.snap, 3)
    ensures Announce(s, a).1 && Consented(s, a.snap.channel, {}) && !Consented(Announce(s, a).0, a.snap.channel, {})
  {
    OurUserMeans(s, id, user);
    CompanionsJoin(s, a, id, user, other, whom);
    NamedTwo(a.snap, s.domain);
    BlockIsABreach(Announce(s, a).0, a.snap.channel, user, whom);
  }

  /** The owner of a channel needs a row only when the channel is new. So an announcement whose owner is unknown
      brings a blocked user into a channel that is there, and would not if it were not. */
  lemma OwnerIsNeededOnce(s: Side, a: Announcement, user: string, whom: string)
    requires Announceable(a.peer, a.snap) && !SameDomain(a.peer, s.domain) && a.snap.opener == whom
    requires a.snap.participants == [whom] && NamesAreFree(s, a.snap, 1)
    requires StorageId(a.snap.owner, s.domain) !in s.users && a.snap.owner != whom
    requires a.snap.channel in s.channels && Canonical(user, s.domain) in Members(s, a.snap.channel)
    requires (user, whom) in s.blocks && Canonical(user, s.domain) != Canonical(whom, s.domain)
    ensures var (t, ok) := Announce(s, a); ok && !Consented(t, a.snap.channel, {})
    ensures !Announce(s.(channels := s.channels - {a.snap.channel}), a).1
  {
    assert !Clashes(s, a.snap, 0);
    OneStranger(s, a.snap, whom);
    MirroredMembers(s, a.snap, a.snap.channel);
    assert Named(a.snap, 0, s.domain) == {} && Named(a.snap, 1, s.domain) == {Canonical(whom, s.domain)};
    BlockIsABreach(Announce(s, a).0, a.snap.channel, user, whom);
    UnknownOwner(s.(channels := s.channels - {a.snap.channel}), a.snap);
  }

  lemma UnknownOwner(s: Side, snap: Snapshot)
    requires snap.channel !in s.channels && StorageId(snap.owner, s.domain) !in s.users && snap.owner !in snap.participants
    ensures !Mirror(s, snap).1
  {
    MirrorMeans(s, snap);
  }

  // ---------------------------------------------------------------------------
  // Consent to 1:1 channels
  // ---------------------------------------------------------------------------

  /** Blocks between the two under a spelling other than the one the check uses. */
  predicate Misspelled(s: Side, user: string, other: string) {
    exists r :: r in s.blocks && Canonical(r.0, s.domain) == Canonical(user, s.domain)
                && Canonical(r.1, s.domain) == Canonical(other, s.domain) && r.1 != other
  }

  lemma SameOwnUser(a: string, b: string, ours: string)
    requires '@' !in a && '@' !in b && Canonical(a, ours) == Canonical(b, ours)
    ensures a == b
  {
    QualifiedParts(a, ours);
    QualifiedParts(b, ours);
    QualifiedParts(a, Lower(ours));
    QualifiedParts(b, Lower(ours));
  }

  /** A block by one of ours is the user's own, and its canonical form is local. */
  lemma RemoteNeverBlocks(s: Side, r: Block, other: string)
    requires '@' !in r.0 && !IsLocal(other, s.domain)
    ensures Canonical(r.0, s.domain) != Canonical(other, s.domain)
  {
    QualifiedParts(r.0, s.domain);
    QualifiedParts(r.0, Lower(s.domain));
    CanonicalDomain(other, s.domain);
  }

  lemma OneToOneAgreed(s: Side, user: string, other: string)
    requires OwnBlocks(s) && '@' !in user && !IsLocal(other, s.domain) && (user, other) !in s.blocks
    ensures Agreed(s, {Canonical(user, s.domain), Canonical(other, s.domain)}, {}) <==> !Misspelled(s, user, other)
  {
    var members := {Canonical(user, s.domain), Canonical(other, s.domain)};
    forall r | r in s.blocks
      ensures Breach(r, members, {}, s.domain)
              <==> && Canonical(r.0, s.domain) == Canonical(user, s.domain)
                   && Canonical(r.1, s.domain) == Canonical(other, s.domain)
      ensures Canonical(r.0, s.domain) == Canonical(user, s.domain) ==> r.0 == user
    {
      RemoteNeverBlocks(s, r, other);
      RemoteNeverBlocks(s, (user, ""), other);
      if Canonical(r.0, s.domain) == Canonical(user, s.domain) {
        SameOwnUser(r.0, user, s.domain);
      }
    }
  }

  /** A 1:1 channel announced for the first time that goes through has our user's consent exactly if the user
      blocks its opener under no other spelling. */
  lemma OneToOneConsent(s: Side, a: Announcement, user: string)
    requires OwnBlocks(s) && '@' !in user && Members(s, a.snap.channel) == {}
    requires OpenedBy(s, a, [a.snap.opener, Qualify(user, s.domain)]) && Announce(s, a).1
    ensures Consented(Announce(s, a).0, a.snap.channel, {}) <==> !Misspelled(s, user, a.snap.opener)
  {
    OpenerIsForeign(s, a, a.snap.participants);
    OneToOneChecked(s, a, user);
    OneToOneMembers(s, a, user);
    OneToOneAgreed(s, user, a.snap.opener);
    MirroredMembers(s, a.snap, a.snap.channel);
  }

  lemma OneToOneChecked(s: Side, a: Announcement, user: string)
    requires '@' !in user && OpenedBy(s, a, [a.snap.opener, Qualify(user, s.domain)]) && Announce(s, a).1
    ensures (user, a.snap.opener) !in s.blocks
  {
    var q := Qualify(user, s.domain);
    QualifiedParts(user, s.domain);
    OpenerIsForeign(s, a, a.snap.participants);
    ForeignOpener(s, a, q);
    AcceptsIff(s, a.snap);
    MirroredMembers(s, a.snap, a.snap.channel);
    assert LooksForBlockOf(s, a.snap, (user, a.snap.opener), q);
    assert LooksFor(s, a.snap, (user, a.snap.opener));
  }

  lemma OneToOneMembers(s: Side, a: Announcement, user: string)
    requires '@' !in user && Members(s, a.snap.channel) == {}
    requires OpenedBy(s, a, [a.snap.opener, Qualify(user, s.domain)]) && Announce(s, a).1
    ensures Members(Announce(s, a).0, a.snap.channel) == {Canonical(user, s.domain), Canonical(a.snap.opener, s.domain)}
  {
    QualifiedIsUniversal(user, s.domain, s.domain);
    MirroredChannel(s, a.snap);
    NamedTwo(a.snap, s.domain);
  }

  /** So has a new one that the other side asked this server to open; one that is used again is as it was. */
  lemma ServedWithConsentIff(h: Side, peer: string, req: OpenRequest, newId: string, found: Option<string>)
    requires OwnBlocks(h) && Sound(h, newId) && !SameDomain(peer, h.domain)
    requires Finds(h, req.opener, LocalPart(req.recipient), found)
    requires ServeOpen(h, peer, req, newId, found).Some?
    ensures var (t, c, _) := ServeOpen(h, peer, req, newId, found).value;
            Consented(t, c, {})
            <==> if found.Some? then Consented(h, c, {}) else !Misspelled(h, LocalPart(req.recipient), req.opener)
  {
    var local, g := LocalPart(req.recipient), WithOpener(h, peer, req);
    ServedChannel(h, peer, req, newId, found);
    HomeMembers(h, g.users, req.opener, local, newId, found);
    CreatedKeeps(g, req.opener, local, newId, found);
    OneToOneAgreed(h, local, req.opener);
  }

  lemma ServedChannel(h: Side, peer: string, req: OpenRequest, newId: string, found: Option<string>)
    requires !SameDomain(peer, h.domain) && ServeOpen(h, peer, req, newId, found).Some?
    ensures var (t, c, _) := ServeOpen(h, peer, req, newId, found).value;
            (t, c) == CreateDm(WithOpener(h, peer, req), req.opener, [LocalPart(req.recipient)], newId, found)
    ensures var local := LocalPart(req.recipient);
            (local, req.opener) !in h.blocks && '@' !in local && !IsLocal(req.opener, h.domain)
  {
    BareIds(req.recipient);
  }
}
