/** AutoMod policies: which rule decides an upload, and what it decides. */
module Policies {
  import opened Wrappers
  import Text

  type Digest = string
  type Id = nat

  datatype Trigger =
    | Media(categories: seq<string>, threshold: real)
    | HashDenylist
    | LowTrust(minAccountAgeHours: nat, minSpaceAgeHours: nat, requireRole: bool)
    | NonNsfwAttachment

  datatype Scope = All | NonNsfw | Channels(ids: seq<Id>)

  datatype Action = Quarantine | Reject | Flag | Timeout(seconds: nat)

  datatype Rule = Rule(id: string, trigger: Trigger, scope: Scope, action: Action)

  datatype Policy = Policy(enabled: bool, rules: seq<Rule>, exemptRoles: seq<string>,
                           exemptPermissions: seq<string>, retentionDays: nat)

  datatype ScanResult = ScanResult(version: string, scores: map<string, real>, timestamps: seq<nat>)

  datatype Channel = Channel(id: Id, nsfw: bool, space: Option<Id>)

  /** What the user and member tables say about an uploader. `spaceAgeHours` is `None` outside spaces. */
  datatype Author = Author(accountAgeHours: nat, spaceAgeHours: Option<nat>, hasRole: bool)

  datatype Status = Pending | Quarantined | Rejected | Published | Removed

  // ---------------------------------------------------------------------------
  // The hash denylist
  // ---------------------------------------------------------------------------

  /** `None` is the instance-wide scope `*`, which DMs also use as their own scope. */
  type Denylist = set<(Option<Id>, Digest)>

  predicate HashBlocked(denylist: Denylist, space: Option<Id>, hash: Digest) {
    (None, hash) in denylist || (space, hash) in denylist
  }

  // ---------------------------------------------------------------------------
  // Rules
  // ---------------------------------------------------------------------------

  predicate Applies(rule: Rule, channel: Channel) {
    match rule.scope
    case All => true
    case NonNsfw => !channel.nsfw
    case Channels(ids) => channel.id in ids
  }

  predicate HasHashRule(policy: Policy, channel: Channel) {
    exists i :: 0 <= i < |policy.rules| && policy.rules[i].trigger.HashDenylist? && Applies(policy.rules[i], channel)
  }

  /** Everything a rule may look at apart from the scan. */
  datatype Facts = Facts(channel: Channel, author: Author, blocked: bool)

  predicate LowTrustHolds(trigger: Trigger, author: Author)
    requires trigger.LowTrust?
  {
    || author.accountAgeHours < trigger.minAccountAgeHours
    || (author.spaceAgeHours.Some?
        && (author.spaceAgeHours.value < trigger.minSpaceAgeHours || (trigger.requireRole && !author.hasRole)))
  }

  predicate NonMediaHolds(rule: Rule, facts: Facts) {
    Applies(rule, facts.channel) &&
    match rule.trigger
    case Media(_, _) => false
    case NonNsfwAttachment => !facts.channel.nsfw
    case HashDenylist => facts.blocked
    case LowTrust(_, _, _) => LowTrustHolds(rule.trigger, facts.author)
  }

  method NonMediaMatch(rule: Rule, facts: Facts) returns (fires: bool)
    ensures fires == NonMediaHolds(rule, facts)
  {
    if !Applies(rule, facts.channel) {
      return false;
    }
    match rule.trigger
    case Media(_, _) => return false;
    case NonNsfwAttachment => return !facts.channel.nsfw;
    case HashDenylist => return facts.blocked;
    case LowTrust(minAccount, minSpace, requireRole) =>
      var low := facts.author.accountAgeHours < minAccount;
      if facts.author.spaceAgeHours.Some? {
        low := low || facts.author.spaceAgeHours.value < minSpace;
        low := low || (requireRole && !facts.author.hasRole);
      }
      return low;
  }

  predicate Supported(rule: Rule, scan: ScanResult)
    requires rule.trigger.Media?
  {
    forall c :: c in rule.trigger.categories ==> c in scan.scores
  }

  predicate MediaHolds(rule: Rule, scan: ScanResult)
    requires rule.trigger.Media?
  {
    exists c :: c in rule.trigger.categories && c in scan.scores && scan.scores[c] >= rule.trigger.threshold
  }

  // ---------------------------------------------------------------------------
  // The eager specification: the first applicable rule that settles the upload
  // ---------------------------------------------------------------------------

  /** With a scan at hand, does this rule end the search? An unsupported category does. */
  predicate Settles(rule: Rule, facts: Facts, scan: ScanResult) {
    Applies(rule, facts.channel) &&
    if rule.trigger.Media? then !Supported(rule, scan) || MediaHolds(rule, scan) else NonMediaHolds(rule, facts)
  }

  ghost predicate FirstSettling(rules: seq<Rule>, facts: Facts, scan: ScanResult, i: nat) {
    && i < |rules|
    && Settles(rules[i], facts, scan)
    && forall j :: 0 <= j < i ==> !Settles(rules[j], facts, scan)
  }

  /** The outcome of walking the rules. `index` is the rule that ended the walk. */
  datatype Verdict =
    | NoMatch
    | Fired(index: nat)
    | Unsupported(index: nat)
    | NeedScan(index: nat)

  /** The worker's lazy walk: it stops at the first media rule when it has no scan yet. */
  function Walk(rules: seq<Rule>, facts: Facts, scan: Option<ScanResult>, from: nat := 0): (v: Verdict)
    requires from <= |rules|
    ensures !v.NoMatch? ==> from <= v.index < |rules|
    decreases |rules| - from
  {
    if from == |rules| then NoMatch
    else
      var rule := rules[from];
      if !Applies(rule, facts.channel) then Walk(rules, facts, scan, from + 1)
      else if rule.trigger.Media? then
        if scan.None? then NeedScan(from)
        else if !Supported(rule, scan.value) then Unsupported(from)
        else if MediaHolds(rule, scan.value) then Fired(from)
        else Walk(rules, facts, scan, from + 1)
      else if NonMediaHolds(rule, facts) then Fired(from)
      else Walk(rules, facts, scan, from + 1)
  }

  /** With a scan, the walk ends exactly at the first settling rule and says why it settles. */
  lemma {:induction false} WalkIsFirstMatch(rules: seq<Rule>, facts: Facts, scan: ScanResult, from: nat)
    requires from <= |rules|
    requires forall j :: 0 <= j < from ==> !Settles(rules[j], facts, scan)
    ensures match Walk(rules, facts, Some(scan), from)
            case NoMatch => forall j :: 0 <= j < |rules| ==> !Settles(rules[j], facts, scan)
            case Fired(i) => FirstSettling(rules, facts, scan, i)
                             && (if rules[i].trigger.Media? then Supported(rules[i], scan) && MediaHolds(rules[i], scan)
                                 else NonMediaHolds(rules[i], facts))
            case Unsupported(i) => FirstSettling(rules, facts, scan, i)
                                   && rules[i].trigger.Media? && !Supported(rules[i], scan)
            case NeedScan(_) => false
    decreases |rules| - from
  {
    if from < |rules| && !Settles(rules[from], facts, scan) {
      WalkIsFirstMatch(rules, facts, scan, from + 1);
    }
  }

  /** Without a scan the walk either agrees with every scan's walk, or it stopped at an
      applicable media rule that no earlier rule pre-empts. So inference runs only when needed. */
  lemma {:induction false} ScansOnlyWhenReached(rules: seq<Rule>, facts: Facts, scan: ScanResult, from: nat)
    requires from <= |rules|
    ensures var lazy := Walk(rules, facts, None, from);
            if lazy.NeedScan? then
              && Applies(rules[lazy.index], facts.channel) && rules[lazy.index].trigger.Media?
              && (forall j :: from <= j < lazy.index && Applies(rules[j], facts.channel)
                    ==> !rules[j].trigger.Media? && !NonMediaHolds(rules[j], facts))
            else
              lazy == Walk(rules, facts, Some(scan), from)
    decreases |rules| - from
  {
    if from < |rules| {
      ScansOnlyWhenReached(rules, facts, scan, from + 1);
    }
  }

  // ---------------------------------------------------------------------------
  // The whole decision of one claim
  // ---------------------------------------------------------------------------

  /** What a claim reads: the clock, the channel row, the author's rows, and whether the author may
      still post. These reads are taken as they come; no lock of AutoMod protects them. */
  datatype Context = Context(now: int, channel: Option<Channel>, author: Author, standing: bool)

  /** The part of an upload row that a decision looks at. */
  datatype Subject = Subject(space: Option<Id>, hash: Digest, expiresAt: int)

  datatype Decision = ScanFirst | Decided(status: Status, rule: Option<Rule>)

  function ActionStatus(action: Action): Status {
    match action
    case Flag => Published
    case Reject => Rejected
    case Quarantine => Quarantined
    case Timeout(_) => Quarantined
  }

  function VerdictDecision(rules: seq<Rule>, v: Verdict): Decision
    requires !v.NoMatch? ==> v.index < |rules|
  {
    match v
    case NeedScan(_) => ScanFirst
    case NoMatch => Decided(Published, None)
    case Unsupported(i) => Decided(Quarantined, Some(rules[i]))
    case Fired(i) => Decided(ActionStatus(rules[i].action), Some(rules[i]))
  }

  /** The reason a claim holds or removes an upload before looking at any rule. */
  function EarlyStatus(subject: Subject, policy: Policy, denylist: Denylist, ctx: Context): Option<Status> {
    if subject.expiresAt <= ctx.now then Some(Removed)
    else if ctx.channel.None? then Some(Quarantined)
    else if !policy.enabled then Some(Quarantined)
    else if HashBlocked(denylist, ctx.channel.value.space, subject.hash) && !HasHashRule(policy, ctx.channel.value)
    then Some(Quarantined)
    else if !ctx.standing then Some(Quarantined)
    else None
  }

  function FactsOf(subject: Subject, denylist: Denylist, ctx: Context): Facts
    requires ctx.channel.Some?
  {
    Facts(ctx.channel.value, ctx.author, HashBlocked(denylist, ctx.channel.value.space, subject.hash))
  }

  function Decide(subject: Subject, policy: Policy, denylist: Denylist, ctx: Context, scan: Option<ScanResult>): Decision {
    var early := EarlyStatus(subject, policy, denylist, ctx);
    if early.Some? then Decided(early.value, None)
    else VerdictDecision(policy.rules, Walk(policy.rules, FactsOf(subject, denylist, ctx), scan))
  }

  /** The independent reading of a decision: every settling rule's action decides, the first one wins,
      and a worker with a scan in hand always reaches a status. */
  lemma DecisionMeaning(subject: Subject, policy: Policy, denylist: Denylist, ctx: Context, scan: ScanResult)
    requires EarlyStatus(subject, policy, denylist, ctx).None?
    ensures var facts := FactsOf(subject, denylist, ctx);
            var d := Decide(subject, policy, denylist, ctx, Some(scan));
            && d.Decided?
            && (d.rule.None? <==> forall j :: 0 <= j < |policy.rules| ==> !Settles(policy.rules[j], facts, scan))
            && (d.rule.None? ==> d.status == Published)
            && (forall i: nat :: FirstSettling(policy.rules, facts, scan, i) ==>
                  && d.rule == Some(policy.rules[i])
                  && d.status == if policy.rules[i].trigger.Media? && !Supported(policy.rules[i], scan)
                                 then Quarantined else ActionStatus(policy.rules[i].action))
  {
    var facts := FactsOf(subject, denylist, ctx);
    WalkIsFirstMatch(policy.rules, facts, scan, 0);
    var v := Walk(policy.rules, facts, Some(scan));
    forall i: nat | FirstSettling(policy.rules, facts, scan, i)
      ensures !v.NoMatch? && v.index == i
    {
    }
  }

  /** A digest on the denylist is published only on the word of a Flag rule that fires first. */
  lemma BlockedIsPublishedOnlyByFlag(subject: Subject, policy: Policy, denylist: Denylist, ctx: Context,
                                     scan: Option<ScanResult>)
    requires ctx.channel.Some? && HashBlocked(denylist, ctx.channel.value.space, subject.hash)
    requires var d := Decide(subject, policy, denylist, ctx, scan); d.Decided? && d.status == Published
    ensures var d := Decide(subject, policy, denylist, ctx, scan);
            d.rule.Some? && d.rule.value.action.Flag? && Applies(d.rule.value, ctx.channel.value)
    ensures Walk(policy.rules, FactsOf(subject, denylist, ctx), scan).Fired?
  {
    var facts := FactsOf(subject, denylist, ctx);
    var h :| 0 <= h < |policy.rules| && policy.rules[h].trigger.HashDenylist? && Applies(policy.rules[h], ctx.channel.value);
    WalkStopsBy(policy.rules, facts, scan, 0, h);
  }

  /** A non-media rule that fires bounds the walk, with or without a scan. */
  lemma {:induction false} WalkStopsBy(rules: seq<Rule>, facts: Facts, scan: Option<ScanResult>, from: nat, h: nat)
    requires from <= h < |rules| && NonMediaHolds(rules[h], facts)
    ensures var v := Walk(rules, facts, scan, from);
            !v.NoMatch? && v.index <= h && Applies(rules[v.index], facts.channel)
    decreases |rules| - from
  {
    if from < h && Walk(rules, facts, scan, from) == Walk(rules, facts, scan, from + 1) {
      WalkStopsBy(rules, facts, scan, from + 1, h);
    }
  }

  // ---------------------------------------------------------------------------
  // The worker's loops
  // ---------------------------------------------------------------------------

  /** One walk over the rules, as the worker performs it. */
  method WalkRules(rules: seq<Rule>, facts: Facts, scan: Option<ScanResult>) returns (v: Verdict)
    ensures v == Walk(rules, facts, scan)
  {
    for i := 0 to |rules|
      invariant Walk(rules, facts, scan) == Walk(rules, facts, scan, i)
    {
      var rule := rules[i];
      if Applies(rule, facts.channel) {
        var fires;
        if rule.trigger.Media? {
          if scan.None? {
            return NeedScan(i);
          }
          if exists c :: c in rule.trigger.categories && c !in scan.value.scores {
            return Unsupported(i);
          }
          fires := exists c :: c in rule.trigger.categories && scan.value.scores[c] >= rule.trigger.threshold;
        } else {
          fires := NonMediaMatch(rule, facts);
        }
        if fires {
          return Fired(i);
        }
      }
    }
    return NoMatch;
  }

  /** What one pass of the claim loop sees. Between two passes the lock is free, so the second view is arbitrary. */
  datatype View = View(subject: Subject, policy: Policy, denylist: Denylist, ctx: Context)

  function DecideView(view: View, scan: Option<ScanResult>): Decision {
    Decide(view.subject, view.policy, view.denylist, view.ctx, scan)
  }

  /** The claim loop for one candidate. `views(n)` is what the n-th pass reads (`None`: no longer pending)
      and `inference` what a scan returns. A run commits nothing (`None`) when the row stopped being
      pending or the scan failed; otherwise it commits the decision on the view of its last pass. */
  method ClaimLoop(views: nat -> Option<View>, inference: Option<ScanResult>)
    returns (committed: Option<Decision>, passes: nat, scans: nat)
    ensures 1 <= passes <= 2 && scans <= 1
    ensures scans == 1 <==> views(0).Some? && DecideView(views(0).value, None).ScanFirst?
    ensures passes == 2 <==> scans == 1 && inference.Some?
    ensures committed == if scans == 1 && inference.None? then None
                         else if views(passes - 1).None? then None
                         else Some(DecideView(views(passes - 1).value, if scans == 1 then inference else None))
    ensures committed.Some? ==> committed.value.Decided?
  {
    var result: Option<ScanResult> := None;
    passes, scans := 0, 0;
    while true
      invariant passes == scans <= 1
      invariant result == if scans == 1 then inference else None
      invariant scans == 1 ==> views(0).Some? && DecideView(views(0).value, None).ScanFirst? && inference.Some?
      decreases 2 - passes
    {
      var read := views(passes);
      passes := passes + 1;
      if read.None? {
        return None, passes, scans;
      }
      var view := read.value;
      var early := EarlyStatus(view.subject, view.policy, view.denylist, view.ctx);
      if early.Some? {
        return Some(Decided(early.value, None)), passes, scans;
      }
      var v := WalkRules(view.policy.rules, FactsOf(view.subject, view.denylist, view.ctx), result);
      if v.NeedScan? {
        if scans == 1 {
          WalkIsFirstMatch(view.policy.rules, FactsOf(view.subject, view.denylist, view.ctx), result.value, 0);
        }
        scans := scans + 1;
        if inference.None? {
          return None, passes, scans;
        }
        result := inference;
      } else {
        return Some(VerdictDecision(view.policy.rules, v)), passes, scans;
      }
    }
  }

  // ---------------------------------------------------------------------------
  // Admission of a batch
  // ---------------------------------------------------------------------------

  datatype Preflight =
    | PublishDirectly
    | Enqueue
    | BlockedHash
    | OverBudget
    | RejectedBy(rule: Rule)

  datatype FileInfo = FileInfo(hash: Digest, size: nat)

  function TotalSize(files: seq<FileInfo>): nat {
    if files == [] then 0 else TotalSize(files[..|files| - 1]) + files[|files| - 1].size
  }

  predicate RejectedOutright(rule: Rule, channel: Channel, author: Author, denylist: Denylist, file: FileInfo) {
    rule.action.Reject? && NonMediaHolds(rule, Facts(channel, author, HashBlocked(denylist, channel.space, file.hash)))
  }

  /** None of the first `n` rules rejects this file. */
  predicate NoneRejects(rules: seq<Rule>, n: nat, channel: Channel, author: Author, denylist: Denylist, file: FileInfo)
    requires n <= |rules|
  {
    forall k :: 0 <= k < n ==> !RejectedOutright(rules[k], channel, author, denylist, file)
  }

  /** File `i` is the first that any rule rejects, and rule `k` the first that rejects it. */
  predicate FirstRejection(rules: seq<Rule>, channel: Channel, author: Author, denylist: Denylist, files: seq<FileInfo>,
                           i: nat, k: nat)
  {
    && i < |files| && k < |rules| && RejectedOutright(rules[k], channel, author, denylist, files[i])
    && NoneRejects(rules, k, channel, author, denylist, files[i])
    && forall j :: 0 <= j < i ==> NoneRejects(rules, |rules|, channel, author, denylist, files[j])
  }

  /** Who is stopped at the door. `heldCount` and `heldBytes` are read under the admission lock. */
  method CheckBatch(policy: Policy, exempt: bool, channel: Channel, author: Author, denylist: Denylist,
                    files: seq<FileInfo>, heldCount: nat, heldBytes: nat, maxHeld: nat, maxHeldBytes: nat)
    returns (r: Preflight)
    ensures var enabled := policy.enabled && !exempt;
            var blocked := exists f :: f in files && HashBlocked(denylist, channel.space, f.hash);
            var over := heldCount + |files| > maxHeld || heldBytes + TotalSize(files) > maxHeldBytes;
            var rejected := exists f, rule :: f in files && rule in policy.rules
                                             && RejectedOutright(rule, channel, author, denylist, f);
            && (r.BlockedHash? <==> blocked && !(enabled && HasHashRule(policy, channel)))
            && (r.PublishDirectly? <==> files == [] || (!enabled && !blocked))
            && (r.OverBudget? <==> files != [] && enabled && !r.BlockedHash? && over)
            && (r.RejectedBy? <==> files != [] && enabled && !r.BlockedHash? && !over && rejected)
            && (r.RejectedBy? ==> exists i: nat, k: nat ::
                                    && FirstRejection(policy.rules, channel, author, denylist, files, i, k)
                                    && r.rule == policy.rules[k])
            && (r.Enqueue? <==> files != [] && enabled && !r.BlockedHash? && !over && !rejected)
  {
    if files == [] {
      return PublishDirectly;
    }
    var enabled := policy.enabled && !exempt;
    if !(enabled && HasHashRule(policy, channel)) {
      for i := 0 to |files|
        invariant forall k :: 0 <= k < i ==> !HashBlocked(denylist, channel.space, files[k].hash)
      {
        if HashBlocked(denylist, channel.space, files[i].hash) {
          return BlockedHash;
        }
      }
    }
    if !enabled {
      return PublishDirectly;
    }
    if heldCount + |files| > maxHeld || heldBytes + TotalSize(files) > maxHeldBytes {
      return OverBudget;
    }
    for i := 0 to |files|
      invariant forall j :: 0 <= j < i ==> NoneRejects(policy.rules, |policy.rules|, channel, author, denylist, files[j])
    {
      for k := 0 to |policy.rules|
        invariant NoneRejects(policy.rules, k, channel, author, denylist, files[i])
      {
        var rule := policy.rules[k];
        if rule.action.Reject? {
          var fires := NonMediaMatch(rule, Facts(channel, author, HashBlocked(denylist, channel.space, files[i].hash)));
          if fires {
            assert FirstRejection(policy.rules, channel, author, denylist, files, i, k);
            assert files[i] in files && rule in policy.rules;
            return RejectedBy(rule);
          }
        }
      }
    }
    return Enqueue;
  }

  // ---------------------------------------------------------------------------
  // Validation
  // ---------------------------------------------------------------------------

  /** Lengths of text are in bytes. */
  predicate RuleOk(rule: Rule) {
    && 1 <= Text.ByteLength(rule.id) <= 64
    && (rule.scope.Channels? ==> 1 <= |rule.scope.ids| <= 100)
    && (rule.trigger.Media? ==>
          && 0.0 <= rule.trigger.threshold <= 1.0
          && 1 <= |rule.trigger.categories| <= 64
          && (forall c :: c in rule.trigger.categories ==> 1 <= Text.ByteLength(c) <= 64))
    // A timeout needs evidence that is not a model's guess.
    && (rule.action.Timeout? ==>
          && 1 <= rule.action.seconds <= 86400
          && (rule.trigger.HashDenylist? || rule.trigger.LowTrust?))
  }

  method Validate(policy: Policy) returns (ok: bool)
    ensures ok <==>
            && |policy.rules| <= 32 && 1 <= policy.retentionDays <= 90
            && |policy.exemptRoles| <= 100 && |policy.exemptPermissions| <= 32
            && (forall i :: 0 <= i < |policy.rules| ==> RuleOk(policy.rules[i]))
            && (forall i, j :: 0 <= i < j < |policy.rules| ==> policy.rules[i].id != policy.rules[j].id)
  {
    if |policy.rules| > 32 || policy.retentionDays == 0 || policy.retentionDays > 90
       || |policy.exemptRoles| > 100 || |policy.exemptPermissions| > 32 {
      return false;
    }
    var ids: set<string> := {};
    for i := 0 to |policy.rules|
      invariant forall k :: 0 <= k < i ==> RuleOk(policy.rules[k])
      invariant ids == set k | 0 <= k < i :: policy.rules[k].id
      invariant forall k, l :: 0 <= k < l < i ==> policy.rules[k].id != policy.rules[l].id
    {
      var rule := policy.rules[i];
      if Text.ByteLength(rule.id) == 0 || Text.ByteLength(rule.id) > 64 || rule.id in ids {
        return false;
      }
      ids := ids + {rule.id};
      var fits := ValidateRule(rule);
      if !fits {
        return false;
      }
    }
    return true;
  }

  /** One turn of the loop, from the scope on. */
  method ValidateRule(rule: Rule) returns (ok: bool)
    requires 1 <= Text.ByteLength(rule.id) <= 64
    ensures ok <==> RuleOk(rule)
  {
    if rule.scope.Channels? && (|rule.scope.ids| == 0 || |rule.scope.ids| > 100) {
      return false;
    }
    if rule.trigger.Media? {
      if !(0.0 <= rule.trigger.threshold <= 1.0)
         || |rule.trigger.categories| == 0 || |rule.trigger.categories| > 64
         || (exists c :: c in rule.trigger.categories && (Text.ByteLength(c) == 0 || Text.ByteLength(c) > 64))
         || rule.action.Timeout? {
        return false;
      }
    }
    if rule.action.Timeout? {
      if rule.action.seconds == 0 || rule.action.seconds > 86400
         || !(rule.trigger.HashDenylist? || rule.trigger.LowTrust?) {
        return false;
      }
    }
    return true;
  }
}
