/** The gate in front of expensive requests: a global semaphore and one semaphore per key. The key map holds
    weak references; a semaphore lives as long as some permit holds it. Calls are sequential. */
module Admission {
  import opened Wrappers

  /** A live semaphore: free permits, and the permits that keep it alive. */
  datatype Semaphore = Semaphore(available: nat, holders: nat)

  datatype Permit = Permit(key: string, semaphore: nat, serial: nat)

  /** `arena` holds the live semaphores by identity; `keys` may point to dead ones. */
  datatype State = State(free: nat, keys: map<string, nat>, arena: map<nat, Semaphore>, next: nat, live: set<Permit>)

  datatype Limits = Limits(global: nat, perKey: nat)

  function Initial(l: Limits): State { State(l.global, map[], map[], 0, {}) }

  // ---------------------------------------------------------------------------
  // One call
  // ---------------------------------------------------------------------------

  /** Entries whose semaphore is dead go. */
  function Prune(s: State): State {
    s.(keys := map k | k in s.keys && s.keys[k] in s.arena :: s.keys[k])
  }

  /** A key without an entry gets a new semaphore. */
  function Attach(l: Limits, s: State, key: string): State {
    if key in s.keys then s
    else s.(keys := s.keys[key := s.next], arena := s.arena[s.next := Semaphore(l.perKey, 0)], next := s.next + 1)
  }

  /** Permits are told apart by a serial number from the same counter. */
  function Acquire(t: State, key: string, id: nat): (State, Option<Permit>)
    requires t.free > 0
  {
    if id !in t.arena then (t, None)
    else if t.arena[id].available == 0 then
      (Refused(t, id), None)
    else (Take(t, Permit(key, id, t.next)), Some(Permit(key, id, t.next)))
  }

  function Enter(l: Limits, s: State, key: string): (State, Option<Permit>) {
    if s.free == 0 then (s, None)
    else
      var t := Attach(l, Prune(s), key);
      Acquire(t, key, t.keys[key])
  }

  function Take(t: State, p: Permit): State
    requires p.semaphore in t.arena && t.arena[p.semaphore].available > 0 && t.free > 0
  {
    var sem := t.arena[p.semaphore];
    t.(free := t.free - 1, next := t.next + 1, live := t.live + {p},
       arena := t.arena[p.semaphore := Semaphore(sem.available - 1, sem.holders + 1)])
  }

  function Drop(s: State, p: Permit): State
    requires p.semaphore in s.arena && s.arena[p.semaphore].holders > 0
  {
    var sem := s.arena[p.semaphore];
    s.(free := s.free + 1, live := s.live - {p},
       arena := if sem.holders == 1 then s.arena - {p.semaphore}
                else s.arena[p.semaphore := Semaphore(sem.available + 1, sem.holders - 1)])
  }

  // ---------------------------------------------------------------------------
  // What every history keeps
  // ---------------------------------------------------------------------------

  function LiveKeys(s: State): set<string> { set p | p in s.live :: p.key }

  function OfSemaphore(live: set<Permit>, id: nat): set<Permit> { set p | p in live && p.semaphore == id }

  function OfKey(live: set<Permit>, key: string): set<Permit> { set p | p in live && p.key == key }

  ghost predicate SemaphoreOk(l: Limits, live: set<Permit>, id: nat, sem: Semaphore) {
    sem.holders == |OfSemaphore(live, id)| && sem.available + sem.holders == l.perKey
  }

  ghost predicate Counted(l: Limits, s: State) {
    && s.free + |s.live| == l.global
    && (forall id :: id in s.arena ==> SemaphoreOk(l, s.live, id, s.arena[id]))
  }

  ghost predicate AllHeld(arena: map<nat, Semaphore>) { forall id :: id in arena ==> arena[id].holders > 0 }

  /** A live permit's key points to its semaphore, so a key with live permits keeps one semaphore. */
  ghost predicate PermitOk(s: State, p: Permit) {
    p.semaphore in s.arena && p.key in s.keys && s.keys[p.key] == p.semaphore && p.serial < s.next
  }

  ghost predicate OneKeyEach(keys: map<string, nat>) {
    forall j, k :: j in keys && k in keys && keys[j] == keys[k] ==> j == k
  }

  ghost predicate Linked(s: State) {
    && (forall p :: p in s.live ==> PermitOk(s, p))
    && (forall id :: id in s.arena ==> id < s.next)
    && (forall k :: k in s.keys ==> s.keys[k] < s.next)
    && OneKeyEach(s.keys)
  }

  /** Dead entries are the traces of permits dropped since the last pruning. */
  ghost predicate Pruned(l: Limits, s: State) {
    && LiveKeys(s) <= s.keys.Keys
    && |s.keys.Keys - LiveKeys(s)| <= if l.perKey == 0 then 1 else s.free
  }

  ghost predicate Valid(l: Limits, s: State) {
    Counted(l, s) && AllHeld(s.arena) && Linked(s) && Pruned(l, s)
  }

  lemma InitialIsValid(l: Limits)
    ensures Valid(l, Initial(l))
  {
  }

  /** After pruning the entries are exactly the keys with live permits. */
  lemma PrunedKeys(l: Limits, s: State)
    requires Valid(l, s)
    ensures Prune(s).keys.Keys == LiveKeys(s)
  {
  }

  lemma PruneKeepsLinks(l: Limits, s: State)
    requires Valid(l, s)
    ensures Linked(Prune(s)) && Counted(l, Prune(s)) && AllHeld(Prune(s).arena)
    ensures forall k :: k in Prune(s).keys ==> Prune(s).keys[k] in s.arena
  {
  }

  /** What lies between looking a key up and acquiring its semaphore: that one may have no permit yet. */
  ghost predicate Attached(l: Limits, s: State, key: string) {
    && Linked(s) && Counted(l, s)
    && key in s.keys && s.keys[key] in s.arena && s.keys.Keys == LiveKeys(s) + {key}
    && AllHeld(s.arena - {s.keys[key]})
  }

  lemma AttachLinks(l: Limits, s: State, key: string)
    requires Linked(s) && Counted(l, s) && AllHeld(s.arena)
    requires s.keys.Keys == LiveKeys(s) && forall k :: k in s.keys ==> s.keys[k] in s.arena
    ensures Attached(l, Attach(l, s, key), key)
  {
    if key !in s.keys {
      var t := Attach(l, s, key);
      assert OfSemaphore(s.live, s.next) == {} by {
        forall p | p in s.live
          ensures p.semaphore != s.next
        {
          assert PermitOk(s, p);
        }
      }
      forall p | p in s.live
        ensures PermitOk(t, p)
      {
        assert PermitOk(s, p);
      }
      assert t.arena - {s.next} == s.arena;
    }
  }

  lemma AddedPermit(live: set<Permit>, p: Permit, id: nat)
    requires p !in live
    ensures |OfSemaphore(live + {p}, id)| == |OfSemaphore(live, id)| + if p.semaphore == id then 1 else 0
  {
    if p.semaphore == id {
      assert OfSemaphore(live + {p}, id) == OfSemaphore(live, id) + {p};
    } else {
      assert OfSemaphore(live + {p}, id) == OfSemaphore(live, id);
    }
  }

  lemma TakeIsNew(l: Limits, t: State, p: Permit)
    requires Linked(t) && p.serial == t.next
    ensures p !in t.live
  {
  }

  lemma TakeHolds(l: Limits, t: State, p: Permit)
    requires Attached(l, t, p.key) && p.semaphore == t.keys[p.key]
    requires t.arena[p.semaphore].available > 0 && t.free > 0
    ensures AllHeld(Take(t, p).arena)
  {
    assert forall i :: i in t.arena && i != p.semaphore ==> i in t.arena - {p.semaphore};
  }

  lemma TakeCounts(l: Limits, t: State, p: Permit)
    requires Counted(l, t) && p !in t.live && p.semaphore in t.arena
    requires t.arena[p.semaphore].available > 0 && t.free > 0
    ensures Counted(l, Take(t, p))
  {
    var u := Take(t, p);
    forall id | id in u.arena
      ensures SemaphoreOk(l, u.live, id, u.arena[id])
    {
      assert SemaphoreOk(l, t.live, id, t.arena[id]);
      AddedPermit(t.live, p, id);
    }
  }

  lemma TakeLinks(l: Limits, t: State, p: Permit)
    requires Attached(l, t, p.key) && p.semaphore == t.keys[p.key] && p.serial == t.next
    requires t.arena[p.semaphore].available > 0 && t.free > 0
    ensures Linked(Take(t, p)) && Take(t, p).keys.Keys == LiveKeys(Take(t, p))
  {
  }

  lemma KeyCap(l: Limits, s: State, key: string)
    requires Linked(s) && Counted(l, s)
    ensures |OfKey(s.live, key)| <= l.perKey
  {
    if p :| p in s.live && p.key == key {
      assert PermitOk(s, p) && SemaphoreOk(l, s.live, p.semaphore, s.arena[p.semaphore]);
      forall q | q in s.live
        ensures q.key == key ==> q.semaphore == p.semaphore
      {
        assert PermitOk(s, q);
      }
      assert OfKey(s.live, key) <= OfSemaphore(s.live, p.semaphore);
      AtMost(OfKey(s.live, key), OfSemaphore(s.live, p.semaphore));
    } else {
      assert OfKey(s.live, key) == {};
    }
  }

  lemma NobodyIsAdmitted(l: Limits, s: State)
    requires Linked(s) && Counted(l, s) && l.perKey == 0
    ensures s.live == {}
  {
  }

  /** What the refused call leaves: an entry nobody holds loses its semaphore. */
  function Refused(t: State, id: nat): State
    requires id in t.arena
  {
    if t.arena[id].holders == 0 then t.(arena := t.arena - {id}) else t
  }

  lemma RefusalOfUnheld(l: Limits, t: State, key: string)
    requires Attached(l, t, key) && t.arena[t.keys[key]].available == 0 && t.arena[t.keys[key]].holders == 0
    ensures t.live == {} && l.perKey == 0 && Valid(l, t.(arena := t.arena - {t.keys[key]}))
  {
    var id := t.keys[key];
    assert SemaphoreOk(l, t.live, id, t.arena[id]);
    NobodyIsAdmitted(l, t);
    var u := t.(arena := t.arena - {id});
    forall i | i in u.arena
      ensures SemaphoreOk(l, u.live, i, u.arena[i])
    {
      assert SemaphoreOk(l, t.live, i, t.arena[i]);
    }
    AtMostOne(t.keys.Keys - LiveKeys(t), key);
  }

  lemma RefusalOfHeld(l: Limits, t: State, key: string)
    requires Attached(l, t, key) && t.arena[t.keys[key]].holders > 0
    ensures Valid(l, t) && t.keys.Keys == LiveKeys(t)
  {
    var id := t.keys[key];
    assert SemaphoreOk(l, t.live, id, t.arena[id]);
    var p :| p in OfSemaphore(t.live, id);
    assert PermitOk(t, p) && p.key == key;
    assert t.keys.Keys - LiveKeys(t) == {};
    assert forall i :: i in t.arena && i != id ==> i in t.arena - {id};
  }

  /** A refusal for the key's sake: no permit changes, and an entry nobody holds may stay behind. */
  lemma RefusalKeeps(l: Limits, t: State, key: string)
    requires Attached(l, t, key) && t.arena[t.keys[key]].available == 0
    ensures Valid(l, Refused(t, t.keys[key])) && (l.perKey > 0 ==> t.keys.Keys == LiveKeys(t))
  {
    if t.arena[t.keys[key]].holders == 0 {
      RefusalOfUnheld(l, t, key);
    } else {
      RefusalOfHeld(l, t, key);
    }
  }

  lemma AtMostOne(s: set<string>, x: string)
    requires s <= {x}
    ensures |s| <= 1
  {
    if s != {} {
      assert s == {x};
    }
  }

  lemma EnterTakes(l: Limits, t: State, p: Permit)
    requires Attached(l, t, p.key) && p.semaphore == t.keys[p.key] && p.serial == t.next
    requires t.arena[p.semaphore].available > 0 && t.free > 0
    ensures p !in t.live && Valid(l, Take(t, p)) && Take(t, p).keys.Keys - LiveKeys(Take(t, p)) == {}
  {
    TakeIsNew(l, t, p);
    TakeHolds(l, t, p);
    TakeCounts(l, t, p);
    TakeLinks(l, t, p);
    assert Take(t, p).keys.Keys - LiveKeys(Take(t, p)) == {};
  }

  lemma ReadyToTake(l: Limits, s: State, key: string)
    requires Valid(l, s)
    ensures Attached(l, Attach(l, Prune(s), key), key)
  {
    PrunedKeys(l, s);
    PruneKeepsLinks(l, s);
    AttachLinks(l, Prune(s), key);
  }

  lemma AcquireKeeps(l: Limits, t: State, key: string)
    requires Attached(l, t, key) && t.free > 0
    ensures var (u, r) := Acquire(t, key, t.keys[key]);
            && Valid(l, u)
            && (r.None? ==> u.live == t.live && u.free == t.free)
            && (r.Some? ==> r.value !in t.live && u.live == t.live + {r.value} && r.value.key == key)
            && (l.perKey > 0 || r.Some? ==> u.keys.Keys - LiveKeys(u) == {})
  {
    if t.arena[t.keys[key]].available == 0 {
      RefusalKeeps(l, t, key);
    } else {
      EnterTakes(l, t, Permit(key, t.keys[key], t.next));
    }
  }

  /** Entering keeps the invariant, a refusal changes no permit, and the map then has the keys with live
      permits, and at most one more, the refused key of a gate that admits nobody. */
  lemma EnterKeeps(l: Limits, s: State, key: string)
    requires Valid(l, s)
    ensures var (t, r) := Enter(l, s, key);
            && Valid(l, t)
            && (r.None? ==> t.live == s.live && t.free == s.free)
            && (r.Some? ==> r.value !in s.live && t.live == s.live + {r.value} && r.value.key == key)
            && |t.keys.Keys - LiveKeys(t)| <= (if l.perKey > 0 then 0 else 1)
  {
    if s.free > 0 {
      ReadyToTake(l, s, key);
      AcquireKeeps(l, Attach(l, Prune(s), key), key);
    }
  }

  /** A call is refused exactly when the whole gate or the key is at its limit. */
  lemma RefusedIffFull(l: Limits, s: State, key: string)
    requires Valid(l, s)
    ensures Enter(l, s, key).1.None? <==> |s.live| == l.global || |OfKey(s.live, key)| == l.perKey
  {
    if s.free > 0 {
      ReadyToTake(l, s, key);
      var t := Attach(l, Prune(s), key);
      SameHolders(l, t, key);
    }
  }

  lemma SameHolders(l: Limits, t: State, key: string)
    requires Attached(l, t, key)
    ensures t.arena[t.keys[key]].available == l.perKey - |OfKey(t.live, key)|
  {
    var id := t.keys[key];
    assert SemaphoreOk(l, t.live, id, t.arena[id]);
    forall p | p in t.live
      ensures p.key == key <==> p.semaphore == id
    {
      assert PermitOk(t, p);
    }
    assert OfKey(t.live, key) == OfSemaphore(t.live, id);
  }

  // ---------------------------------------------------------------------------
  // Dropping a permit
  // ---------------------------------------------------------------------------

  lemma RemovedPermit(live: set<Permit>, p: Permit, id: nat)
    requires p in live
    ensures |OfSemaphore(live, id)| == |OfSemaphore(live - {p}, id)| + if p.semaphore == id then 1 else 0
  {
    AddedPermit(live - {p}, p, id);
    assert live - {p} + {p} == live;
  }

  lemma DropCounts(l: Limits, s: State, p: Permit)
    requires Valid(l, s) && p in s.live
    ensures p.semaphore in s.arena && s.arena[p.semaphore].holders > 0
    ensures Counted(l, Drop(s, p)) && AllHeld(Drop(s, p).arena)
  {
    assert PermitOk(s, p);
    var u := Drop(s, p);
    forall id | id in u.arena
      ensures SemaphoreOk(l, u.live, id, u.arena[id])
    {
      assert SemaphoreOk(l, s.live, id, s.arena[id]);
      RemovedPermit(s.live, p, id);
    }
  }

  lemma OthersStayLinked(l: Limits, s: State, p: Permit, q: Permit)
    requires Counted(l, s) && p in s.live && p.semaphore in s.arena && s.arena[p.semaphore].holders > 0
    requires q in s.live && q != p && PermitOk(s, q)
    ensures PermitOk(Drop(s, p), q)
  {
    if q.semaphore == p.semaphore {
      assert SemaphoreOk(l, s.live, p.semaphore, s.arena[p.semaphore]);
      AtMost({p, q}, OfSemaphore(s.live, p.semaphore));
    }
  }

  lemma DropLinks(l: Limits, s: State, p: Permit)
    requires Valid(l, s) && p in s.live && p.semaphore in s.arena && s.arena[p.semaphore].holders > 0
    ensures Linked(Drop(s, p))
  {
    forall q | q in Drop(s, p).live
      ensures PermitOk(Drop(s, p), q)
    {
      OthersStayLinked(l, s, p, q);
    }
  }

  lemma AtMost(a: set<Permit>, b: set<Permit>)
    requires a <= b
    ensures |a| <= |b|
  {
    assert a + (b - a) == b;
  }

  lemma DropPrunes(l: Limits, s: State, p: Permit)
    requires Valid(l, s) && p in s.live && p.semaphore in s.arena && s.arena[p.semaphore].holders > 0
    ensures Pruned(l, Drop(s, p))
  {
    var u := Drop(s, p);
    assert PermitOk(s, p) && SemaphoreOk(l, s.live, p.semaphore, s.arena[p.semaphore]);
    var dead, more := s.keys.Keys - LiveKeys(s), u.keys.Keys - LiveKeys(u);
    forall k | k in more
      ensures k in dead || k == p.key
    {
      if k in LiveKeys(s) {
        var q :| q in s.live && q.key == k;
        assert q == p || q in u.live;
      }
    }
    OneMore(dead, more, p.key);
  }

  lemma OneMore(a: set<string>, b: set<string>, x: string)
    requires b <= a + {x}
    ensures |b| <= |a| + 1
  {
    assert b - {x} <= a;
    assert a == (b - {x}) + (a - (b - {x}));
  }

  lemma DropKeeps(l: Limits, s: State, p: Permit)
    requires Valid(l, s) && p in s.live
    ensures p.semaphore in s.arena && s.arena[p.semaphore].holders > 0 && Valid(l, Drop(s, p))
  {
    DropCounts(l, s, p);
    DropLinks(l, s, p);
    DropPrunes(l, s, p);
  }

  // ---------------------------------------------------------------------------
  // Limits
  // ---------------------------------------------------------------------------

  /** In every state a history can reach: the caps hold, and the permits of a key share one semaphore. */
  lemma CapsHold(l: Limits, s: State, key: string)
    requires Valid(l, s)
    ensures |s.live| <= l.global && |OfKey(s.live, key)| <= l.perKey
    ensures forall p, q :: p in s.live && q in s.live ==> (p.key == q.key <==> p.semaphore == q.semaphore)
  {
    forall p, q | p in s.live && q in s.live
      ensures p.key == q.key <==> p.semaphore == q.semaphore
    {
      assert PermitOk(s, p) && PermitOk(s, q);
    }
    KeyCap(l, s, key);
  }

  // ---------------------------------------------------------------------------
  // Histories
  // ---------------------------------------------------------------------------

  datatype Call = Entering(key: string) | Dropping(permit: Permit)

  ghost predicate CanFollow(l: Limits, s: State, c: Call, t: State) {
    match c
    case Entering(key) => t == Enter(l, s, key).0
    case Dropping(p) =>
      p in s.live && p.semaphore in s.arena && s.arena[p.semaphore].holders > 0 && t == Drop(s, p)
  }

  ghost predicate IsHistory(l: Limits, calls: seq<Call>, states: seq<State>) {
    && |states| == |calls| + 1 && states[0] == Initial(l)
    && forall i :: 0 <= i < |calls| ==> CanFollow(l, states[i], calls[i], states[i + 1])
  }

  lemma {:induction false} HistoryKeeps(l: Limits, calls: seq<Call>, states: seq<State>, n: nat)
    requires IsHistory(l, calls, states) && n < |states|
    ensures Valid(l, states[n])
  {
    if n == 0 {
      InitialIsValid(l);
    } else {
      HistoryKeeps(l, calls, states, n - 1);
      assert CanFollow(l, states[n - 1], calls[n - 1], states[n]);
      match calls[n - 1]
      case Entering(key) => EnterKeeps(l, states[n - 1], key);
      case Dropping(p) => DropKeeps(l, states[n - 1], p);
    }
  }

  lemma SizeOfMap(keys: set<string>, live: set<string>)
    requires |keys - live| <= 1
    ensures |keys| <= |live| + 1
  {
  }

  lemma TraceIsShort(l: Limits, s: State, key: string)
    requires Valid(l, s)
    ensures var t := Enter(l, s, key).0; |t.keys| <= |LiveKeys(t)| + 1
  {
    EnterKeeps(l, s, key);
    var t := Enter(l, s, key).0;
    SizeOfMap(t.keys.Keys, LiveKeys(t));
  }

  /** Whatever the history: no cap is ever exceeded, and live permits of one key and only those share a semaphore. */
  lemma GateIsBounded(l: Limits, calls: seq<Call>, states: seq<State>, n: nat, key: string)
    requires IsHistory(l, calls, states) && n < |states|
    ensures |states[n].live| <= l.global && |OfKey(states[n].live, key)| <= l.perKey
    ensures forall p, q :: p in states[n].live && q in states[n].live ==> (p.key == q.key <==> p.semaphore == q.semaphore)
  {
    HistoryKeeps(l, calls, states, n);
    CapsHold(l, states[n], key);
  }

  /** After each call to enter the map has at most one entry more than there are keys with live permits. */
  lemma MapStaysSmall(l: Limits, calls: seq<Call>, states: seq<State>, n: nat)
    requires IsHistory(l, calls, states) && n < |calls| && calls[n].Entering?
    ensures |states[n + 1].keys| <= |LiveKeys(states[n + 1])| + 1
  {
    HistoryKeeps(l, calls, states, n);
    assert CanFollow(l, states[n], calls[n], states[n + 1]);
    TraceIsShort(l, states[n], calls[n].key);
  }

  lemma EntryIsLive(l: Limits, s: State, key: string)
    requires Valid(l, s)
    ensures var t := Attach(l, Prune(s), key); t.keys[key] in t.arena
  {
  }

  // ---------------------------------------------------------------------------
  // The gate itself
  // ---------------------------------------------------------------------------

  class Gate {
    const limits: Limits
    var state: State

    constructor (global: nat, perKey: nat)
      ensures limits == Limits(global, perKey) && state == Initial(limits)
    {
      limits := Limits(global, perKey);
      state := State(global, map[], map[], 0, {});
    }

    /** Drops dead entries, and finds or makes the key's semaphore. */
    method Find(key: string) returns (id: nat)
      modifies this
      ensures state == Attach(limits, Prune(old(state)), key) && id == state.keys[key]
    {
      state := state.(keys := map k | k in state.keys && state.keys[k] in state.arena :: state.keys[k]);
      if key in state.keys {
        id := state.keys[key];
      } else {
        id := state.next;
        state := state.(keys := state.keys[key := id], next := id + 1,
                        arena := state.arena[id := Semaphore(limits.perKey, 0)]);
      }
    }

    method TryEnter(key: string) returns (r: Option<Permit>)
      requires Valid(limits, state)
      modifies this
      ensures (state, r) == Enter(limits, old(state), key)
    {
      if state.free == 0 {
        return None;
      }
      EntryIsLive(limits, state, key);
      var id := Find(key);
      r := TryAcquire(key, id);
    }

    method TryAcquire(key: string, id: nat) returns (r: Option<Permit>)
      requires state.free > 0 && id in state.arena
      modifies this
      ensures (state, r) == Acquire(old(state), key, id)
    {
      var sem := state.arena[id];
      if sem.available == 0 {
        // The references to the semaphore and the global permit go out of scope.
        if sem.holders == 0 {
          state := state.(arena := state.arena - {id});
        }
        return None;
      }
      var p := Permit(key, id, state.next);
      state := state.(free := state.free - 1, next := state.next + 1, live := state.live + {p},
                      arena := state.arena[id := Semaphore(sem.available - 1, sem.holders + 1)]);
      return Some(p);
    }

    /** Dropping a permit frees both its places; a semaphore nobody holds any more is gone. */
    method Release(p: Permit)
      requires p.semaphore in state.arena && state.arena[p.semaphore].holders > 0
      modifies this
      ensures state == Drop(old(state), p)
    {
      var sem := state.arena[p.semaphore];
      var arena := if sem.holders == 1 then state.arena - {p.semaphore}
                   else state.arena[p.semaphore := Semaphore(sem.available + 1, sem.holders - 1)];
      state := state.(free := state.free + 1, arena := arena, live := state.live - {p});
    }
  }
}
