/** Message and attachment IDs: 42 bits of milliseconds since the epoch and 12 bits of sequence number,
    ten bits apart, printed in decimal. Calls are sequential. */
module Snowflake {
  import opened Wrappers
  import opened Text

  const EPOCH := 1704067200000
  const SHIFT := 0x40_0000
  const SEQUENCES := 0x1000
  const TIMESTAMPS := 0x400_0000_0000
  const WORD := 0x1_0000_0000_0000_0000

  /** The n-th reading of the clock, in milliseconds since the epoch. */
  type Clock = nat -> nat

  ghost predicate Steady(clock: Clock) { forall i: nat, j: nat :: i <= j ==> clock(i) <= clock(j) }

  ghost predicate Advances(clock: Clock) { forall t: nat :: Passes(clock, t) }

  ghost predicate Passes(clock: Clock, t: nat) { exists n: nat :: clock(n) > t }

  /** The shift drops what does not fit the word; the low 22 bits are free for the sequence number. */
  function Compose(timestamp: nat, seqNo: nat): nat { timestamp * SHIFT % WORD + seqNo }

  datatype State = State(sequence: nat, last: nat)

  /** One call that reads the clock from position `from` on and leaves it at `next`. */
  ghost predicate Generated(clock: Clock, before: State, from: nat, after: State, next: nat, id: nat) {
    from < next &&
    if clock(from) == before.last then
      && after == State(before.sequence + 1, clock(next - 1))
      && id == Compose(after.last, before.sequence % SEQUENCES)
      && if before.sequence % SEQUENCES == 0
         then clock(next - 1) > before.last && forall n :: from <= n < next - 1 ==> clock(n) <= before.last
         else next == from + 1
    else
      next == from + 1 && after == State(1, clock(from)) && id == Compose(clock(from), 0)
  }

  class Generator {
    var sequence: nat
    var last: nat

    function Now(): State reads this { State(sequence, last) }

    constructor ()
      ensures Now() == State(0, 0)
    {
      sequence, last := 0, 0;
    }

    method Generate(clock: Clock, from: nat) returns (id: nat, next: nat)
      requires Steady(clock) && Advances(clock)
      modifies this
      ensures Generated(clock, old(Now()), from, Now(), next, id)
    {
      var timestamp := clock(from);
      next := from + 1;
      if timestamp == last {
        var seqNo := sequence % SEQUENCES;
        sequence := sequence + 1;
        if seqNo == 0 {
          assert Passes(clock, last);
          ghost var enough: nat :| clock(enough) > last;
          while timestamp <= last
            invariant from < next && timestamp == clock(next - 1) && last == old(last)
            invariant forall n :: from <= n < next - 1 ==> clock(n) <= last
            decreases enough - next
          {
            timestamp := clock(next);
            next := next + 1;
          }
        }
        last := timestamp;
        id := timestamp * SHIFT % WORD + seqNo;
      } else {
        last := timestamp;
        sequence := 1;
        id := timestamp * SHIFT % WORD;
      }
    }
  }

  /** A history of calls. Call `i` starts reading at `starts[i]`, never before the previous one stopped. */
  datatype History = History(states: seq<State>, starts: seq<nat>, ends: seq<nat>, ids: seq<nat>)

  ghost predicate IsHistory(clock: Clock, h: History) {
    && |h.states| == |h.ids| + 1 && |h.starts| == |h.ids| && |h.ends| == |h.ids|
    && h.states[0] == State(0, 0)
    && (forall i :: 0 <= i < |h.ids| ==> Generated(clock, h.states[i], h.starts[i], h.states[i + 1], h.ends[i], h.ids[i]))
    && (forall i :: 0 < i < |h.ids| ==> h.ends[i - 1] <= h.starts[i])
  }

  /** The timestamps fit their 42 bits, as they do for 139 years. */
  ghost predicate Fits(h: History) { forall i :: 0 <= i < |h.states| ==> h.states[i].last < TIMESTAMPS }

  lemma ComposeOrders(t: nat, a: nat, u: nat, b: nat)
    requires t < TIMESTAMPS && u < TIMESTAMPS && a < SEQUENCES && b < SEQUENCES
    ensures Compose(t, a) < Compose(u, b) <==> t < u || (t == u && a < b)
    ensures Compose(t, a) / SHIFT == t && Compose(t, a) < WORD
  {
  }

  /** After a call the state names the ID it gave out. */
  lemma StateNamesLastId(clock: Clock, h: History, n: nat)
    requires Steady(clock) && IsHistory(clock, h) && n < |h.ids|
    ensures var s := h.states[n + 1];
            && s.sequence >= 1 && h.ids[n] == Compose(s.last, (s.sequence - 1) % SEQUENCES)
            && s.last == clock(h.ends[n] - 1)
  {
  }

  lemma CallAdvances(clock: Clock, before: State, from: nat, after: State, next: nat, id: nat)
    requires Steady(clock) && Generated(clock, before, from, after, next, id)
    requires before.sequence >= 1 && before.last <= clock(from) && before.last < TIMESTAMPS && after.last < TIMESTAMPS
    ensures Compose(before.last, (before.sequence - 1) % SEQUENCES) < id
  {
  }

  /** Each ID is greater than the one before, also past 4096 of them in a millisecond. */
  lemma NextIsGreater(clock: Clock, h: History, n: nat)
    requires Steady(clock) && IsHistory(clock, h) && Fits(h) && n + 1 < |h.ids|
    ensures h.ids[n] < h.ids[n + 1]
  {
    StateNamesLastId(clock, h, n);
    assert h.ends[n] <= h.starts[n + 1];
    CallAdvances(clock, h.states[n + 1], h.starts[n + 1], h.states[n + 2], h.ends[n + 1], h.ids[n + 1]);
  }

  lemma {:induction false} IdsIncrease(clock: Clock, h: History, i: nat, j: nat)
    requires Steady(clock) && IsHistory(clock, h) && Fits(h) && i < j < |h.ids|
    ensures h.ids[i] < h.ids[j]
  {
    NextIsGreater(clock, h, j - 1);
    if i < j - 1 {
      IdsIncrease(clock, h, i, j - 1);
    }
  }

  /** As strings, IDs sort in the order they were given out just as far as the leading digits agree; in
      particular whenever they have the same length. */
  lemma IdsSortAsStrings(clock: Clock, h: History, i: nat, j: nat)
    requires Steady(clock) && IsHistory(clock, h) && Fits(h) && i < j < |h.ids|
    ensures var a, b := Decimal(h.ids[i]), Decimal(h.ids[j]);
            && |a| <= |b|
            && (Less(a, b) <==> h.ids[i] <= Head(h.ids[j], |b| - |a|))
            && (|a| == |b| ==> Less(a, b))
  {
    IdsIncrease(clock, h, i, j);
    StringOrderOfNumbers(h.ids[i], h.ids[j]);
    assert Head(h.ids[j], 0) == h.ids[j];
  }

  /** One ID was given out before the number of digits grew to `k + 1`, the other after it. */
  ghost predicate Straddles(h: History, i: nat, j: nat, k: nat) {
    && i < j < |h.ids| && k >= 1
    && (k == 1 || Pow10(k - 1) <= h.ids[i]) && h.ids[i] < Pow10(k) <= h.ids[j] < Pow10(k + 1)
  }

  /** Across a growth of the digits the order is kept only by IDs that are ten times as great. */
  lemma OrderAcrossRollover(clock: Clock, h: History, i: nat, j: nat, k: nat)
    requires Steady(clock) && IsHistory(clock, h) && Fits(h) && Straddles(h, i, j, k)
    ensures Less(Decimal(h.ids[i]), Decimal(h.ids[j])) <==> 10 * h.ids[i] <= h.ids[j]
  {
    DecimalLength(h.ids[i], k);
    DecimalLength(h.ids[j], k + 1);
    IdsSortAsStrings(clock, h, i, j);
    assert Head(h.ids[j], 1) == Head(h.ids[j] / 10, 0) == h.ids[j] / 10;
  }

  /** The last millisecond (in July 2031) whose IDs have 18 digits. */
  const LAST_OF_18 := 238418579101

  function TickingClock(n: nat): nat { LAST_OF_18 + n }

  const ROLLOVER := History([State(0, 0), State(1, LAST_OF_18), State(1, LAST_OF_18 + 1)], [0, 1], [1, 2],
                            [999999999997640704, 1000000000001835008])

  /** A server that gives out one ID in that millisecond and one in the next loses their order. */
  lemma DigitRollover()
    ensures Steady(TickingClock) && Advances(TickingClock) && IsHistory(TickingClock, ROLLOVER) && Fits(ROLLOVER)
    ensures Straddles(ROLLOVER, 0, 1, 18)
    ensures !Less(Decimal(ROLLOVER.ids[0]), Decimal(ROLLOVER.ids[1]))
  {
    RolloverIsAHistory();
    RolloverStraddles();
    OrderAcrossRollover(TickingClock, ROLLOVER, 0, 1, 18);
  }

  lemma RolloverIsAHistory()
    ensures Steady(TickingClock) && Advances(TickingClock) && IsHistory(TickingClock, ROLLOVER) && Fits(ROLLOVER)
  {
    forall t: nat ensures Passes(TickingClock, t) { assert TickingClock(t) > t; }
  }

  lemma RolloverStraddles()
    ensures Straddles(ROLLOVER, 0, 1, 18) && ROLLOVER.ids[1] < 10 * ROLLOVER.ids[0]
  {
    PowersOfTen();
  }

  lemma PowersOfTen()
    ensures Pow10(17) == 100000000000000000 && Pow10(18) == 1000000000000000000 && Pow10(19) == 10000000000000000000
  {
    assert Pow10(3) == 1000;
    assert Pow10(6) == 1000000;
    assert Pow10(9) == 1000000000;
    assert Pow10(12) == 1000000000000;
    assert Pow10(15) == 1000000000000000;
  }

  // ---------------------------------------------------------------------------
  // Reading the time back
  // ---------------------------------------------------------------------------

  function Number(s: string): nat
    requires forall i :: 0 <= i < |s| ==> IsDigit(s[i])
  {
    if s == "" then 0 else
      assert IsDigit(s[|s| - 1]);
      Number(s[..|s| - 1]) * 10 + (s[|s| - 1] - '0') as nat
  }

  /** `u64::from_str`: an optional plus sign, then digits, and no overflow. */
  function ParseU64(s: string): Option<nat> {
    var digits := if s != "" && s[0] == '+' then s[1..] else s;
    if digits == "" || (exists i :: 0 <= i < |digits| && !IsDigit(digits[i])) then None
    else if Number(digits) >= WORD then None
    else Some(Number(digits))
  }

  function BeforeAt(s: string): string {
    if s == "" || s[0] == '@' then "" else [s[0]] + BeforeAt(s[1..])
  }

  function TimestampOf(id: string): Option<nat> {
    match ParseU64(BeforeAt(id))
    case None => None
    case Some(n) => Some(n / SHIFT + EPOCH)
  }

  lemma {:induction false} NumberOfDecimal(n: nat)
    ensures forall i :: 0 <= i < |Decimal(n)| ==> IsDigit(Decimal(n)[i])
    ensures Number(Decimal(n)) == n
  {
    forall i | 0 <= i < |Decimal(n)| ensures IsDigit(Decimal(n)[i]) { DecimalDigits(n, i); }
    if n >= 10 {
      NumberOfDecimal(n / 10);
      assert Decimal(n)[..|Decimal(n)| - 1] == Decimal(n / 10);
    }
  }

  lemma {:induction false} BeforeAtStops(s: string, rest: string)
    requires forall i :: 0 <= i < |s| ==> s[i] != '@'
    requires rest == "" || rest[0] == '@'
    ensures BeforeAt(s + rest) == s
  {
    if s == "" {
      assert s + rest == rest;
    } else {
      assert (s + rest)[1..] == s[1..] + rest;
      BeforeAtStops(s[1..], rest);
    }
  }

  lemma ParseDecimal(n: nat)
    requires n < WORD
    ensures ParseU64(Decimal(n)) == Some(n)
  {
    NumberOfDecimal(n);
    assert IsDigit(Decimal(n)[0]);
  }

  lemma QualifiedDecimal(n: nat, domain: string)
    ensures BeforeAt(Decimal(n)) == Decimal(n) && BeforeAt(Decimal(n) + "@" + domain) == Decimal(n)
  {
    var text := Decimal(n);
    forall i | 0 <= i < |text| ensures text[i] != '@' { DecimalDigits(n, i); }
    BeforeAtStops(text, "");
    assert text + "" == text;
    BeforeAtStops(text, "@" + domain);
    assert text + "@" + domain == text + ("@" + domain);
  }

  lemma ReadBack(id: nat, domain: string)
    requires id < WORD
    ensures TimestampOf(Decimal(id)) == Some(id / SHIFT + EPOCH)
    ensures TimestampOf(Decimal(id) + "@" + domain) == Some(id / SHIFT + EPOCH)
  {
    ParseDecimal(id);
    QualifiedDecimal(id, domain);
  }

  /** Every ID tells the millisecond it was made in, also after it was qualified with a domain. */
  lemma TimestampRoundTrip(clock: Clock, h: History, n: nat, domain: string)
    requires Steady(clock) && IsHistory(clock, h) && Fits(h) && n < |h.ids|
    ensures TimestampOf(Decimal(h.ids[n])) == Some(h.states[n + 1].last + EPOCH)
    ensures TimestampOf(Decimal(h.ids[n]) + "@" + domain) == Some(h.states[n + 1].last + EPOCH)
  {
    StateNamesLastId(clock, h, n);
    var s := h.states[n + 1];
    ComposeOrders(s.last, (s.sequence - 1) % SEQUENCES, 0, 0);
    ReadBack(h.ids[n], domain);
  }
}
