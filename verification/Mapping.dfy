/** Qualified IDs, `<local>@<domain>`, and the rule about who may speak for which of them. */
module Mapping {
  import opened Wrappers
  import Text

  // ---------------------------------------------------------------------------
  // Domains
  // ---------------------------------------------------------------------------

  function Lower(s: string): (t: string)
    ensures |t| == |s| && forall i :: 0 <= i < |s| ==> t[i] == Text.LowerAscii(s[i])
  {
    seq(|s|, i requires 0 <= i < |s| => Text.LowerAscii(s[i]))
  }

  predicate SameDomain(a: string, b: string) { Lower(a) == Lower(b) }

  // ---------------------------------------------------------------------------
  // IDs
  // ---------------------------------------------------------------------------

  /** The position of the first at sign, or the length. */
  function AtSign(id: string): (k: nat)
    ensures k <= |id| && (k < |id| ==> id[k] == '@') && forall i :: 0 <= i < k ==> id[i] != '@'
  {
    if id == "" || id[0] == '@' then 0 else 1 + AtSign(id[1..])
  }

  function DomainOf(id: string): Option<string> {
    if AtSign(id) == |id| then None else Some(id[AtSign(id) + 1..])
  }

  function LocalPart(id: string): string { id[..AtSign(id)] }

  function DomainOr(id: string, other: string): string {
    if DomainOf(id).Some? then DomainOf(id).value else other
  }

  function Handle(name: string, domain: string): string { if '@' in name then name else name + "@" + domain }

  function Qualify(id: string, domain: string): string {
    if '@' in id then id else id + "@" + domain
  }

  /** A bare ID belongs to this server, and so does one with its domain. */
  predicate IsLocal(id: string, ours: string) {
    DomainOf(id).None? || SameDomain(DomainOf(id).value, ours)
  }

  predicate Homed(id: string, domain: string) {
    DomainOf(id).Some? && SameDomain(DomainOf(id).value, domain)
  }

  lemma BareIds(id: string)
    ensures DomainOf(id).None? <==> '@' !in id
    ensures DomainOf(id).None? ==> LocalPart(id) == id
    ensures DomainOf(id).Some? ==> id == LocalPart(id) + "@" + DomainOf(id).value
  {
  }

  /** A qualified ID gives back what it was made of. */
  lemma QualifiedParts(id: string, domain: string)
    requires '@' !in id
    ensures DomainOf(Qualify(id, domain)) == Some(domain) && LocalPart(Qualify(id, domain)) == id
  {
    var q := id + "@" + domain;
    assert q[|id|] == '@' && forall i :: 0 <= i < |id| ==> q[i] == id[i];
    assert AtSign(q) == |id|;
    assert q[..|id|] == id && q[|id| + 1..] == domain;
  }

  /** Qualifying is idempotent, and always leaves an ID with a domain. */
  lemma QualifyTwice(id: string, domain: string, other: string)
    ensures Qualify(Qualify(id, domain), other) == Qualify(id, domain)
    ensures DomainOf(Qualify(id, domain)).Some?
    ensures IsLocal(id, domain) <==> Homed(Qualify(id, domain), domain)
  {
    BareIds(id);
    if '@' !in id {
      QualifiedParts(id, domain);
      BareIds(Qualify(id, domain));
    }
  }

  // ---------------------------------------------------------------------------
  // Authority
  // ---------------------------------------------------------------------------

  predicate RequireHomedOn(id: string, peer: string) {
    match DomainOf(id)
    case Some(d) => SameDomain(d, peer)
    case None => false
  }

  predicate RequireRemoteTarget(id: string) { DomainOf(id).Some? }

  /** May this peer send an event of this origin about this space? */
  predicate Check(peer: string, origin: string, space: Option<string>) {
    SameDomain(origin, peer) && (space.Some? ==> RequireHomedOn(space.value, peer))
  }

  /** Nobody but its home is ever admitted: an event that passes for one peer passes for another only if
      both are the same domain, and an event about a space comes from that space's home. */
  lemma OnlyTheHomeSpeaks(peer: string, other: string, origin: string, space: Option<string>)
    requires Check(peer, origin, space)
    ensures Check(other, origin, space) <==> SameDomain(peer, other)
    ensures space.Some? ==> (RequireHomedOn(space.value, other) <==> SameDomain(peer, other))
    ensures space.Some? ==> DomainOf(space.value).Some?
  {
  }
}
