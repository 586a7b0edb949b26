/** Combining the scans of a video's sampled frames into one result. */
module VideoScan {
  import opened Wrappers
  import opened Policies
  import Text

  const SAMPLE_COUNT := 5

  type Scores = map<string, real>

  /** A frame as the scanner answered it; `None` is a scanner error. */
  type Frames = seq<Option<ScanResult>>

  predicate ValidScan(scan: ScanResult) {
    && (scan.timestamps == [] || |scan.timestamps| == SAMPLE_COUNT)
    && 1 <= Text.ByteLength(scan.version) <= 256
    && 1 <= |scan.scores| <= 64
    && forall c :: c in scan.scores ==> 1 <= Text.ByteLength(c) <= 64 && 0.0 <= scan.scores[c] <= 1.0
  }

  predicate Comparable(a: ScanResult, b: ScanResult) {
    a.version == b.version && a.scores.Keys == b.scores.Keys
  }

  function Max(a: real, b: real): real { if a < b then b else a }

  function MergeScores(a: Scores, b: Scores): Scores
    requires a.Keys == b.Keys
  {
    map c | c in a :: Max(a[c], b[c])
  }

  /** The first `n` frames combined, or `None` if one of them spoils the video. */
  function Combine(frames: Frames, n: nat): (r: Option<ScanResult>)
    requires 1 <= n <= |frames|
  {
    if frames[n - 1].None? || !ValidScan(frames[n - 1].value) then None
    else if n == 1 then frames[0]
    else
      var before := Combine(frames, n - 1);
      if before.None? || !Comparable(frames[n - 1].value, before.value) then None
      else Some(before.value.(scores := MergeScores(before.value.scores, frames[n - 1].value.scores)))
  }

  // ---------------------------------------------------------------------------
  // The loop
  // ---------------------------------------------------------------------------

  /** Fold `next` into `current`, category by category, in whatever order the map yields them. */
  method Absorb(current: Scores, next: Scores) returns (r: Scores)
    requires current.Keys == next.Keys
    ensures r == MergeScores(current, next)
  {
    r := current;
    var rest := next.Keys;
    while rest != {}
      invariant rest <= next.Keys && r.Keys == current.Keys
      invariant forall c :: c in r ==> r[c] == if c in rest then current[c] else Max(current[c], next[c])
      decreases rest
    {
      var c :| c in rest;
      r := r[c := Max(r[c], next[c])];
      rest := rest - {c};
    }
  }

  method CombineFrames(frames: Frames, timestamps: seq<nat>) returns (r: Option<ScanResult>)
    ensures r.Some? <==> |frames| == SAMPLE_COUNT && |timestamps| == SAMPLE_COUNT && Combine(frames, |frames|).Some?
    ensures r.Some? ==> r.value == Combine(frames, |frames|).value.(timestamps := timestamps)
  {
    if |frames| != SAMPLE_COUNT || |timestamps| != SAMPLE_COUNT {
      return None;
    }
    var combined: Option<ScanResult> := None;
    for i := 0 to |frames|
      invariant if i == 0 then combined.None? else combined.Some? && combined == Combine(frames, i)
    {
      if i > 0 {
        CombineNext(frames, i + 1);
      }
      if frames[i].None? || !ValidScan(frames[i].value) {
        CombineFailsForGood(frames, i + 1, |frames|);
        return None;
      }
      var next := frames[i].value;
      if combined.Some? {
        if !Comparable(next, combined.value) {
          CombineFailsForGood(frames, i + 1, |frames|);
          return None;
        }
        var scores := Absorb(combined.value.scores, next.scores);
        combined := Some(combined.value.(scores := scores));
      } else {
        combined := Some(next);
      }
    }
    return Some(combined.value.(timestamps := timestamps));
  }

  lemma {:induction false} CombineFailsForGood(frames: Frames, n: nat, m: nat)
    requires 1 <= n <= m <= |frames| && Combine(frames, n).None?
    ensures Combine(frames, m).None?
  {
    if n < m {
      CombineFailsForGood(frames, n, m - 1);
    }
  }

  // ---------------------------------------------------------------------------
  // What combining means
  // ---------------------------------------------------------------------------

  /** Scanned, valid, by the same model and over the same categories as the first frame. */
  predicate FrameOk(frames: Frames, i: nat)
    requires i < |frames|
  {
    frames[i].Some? && frames[0].Some? && ValidScan(frames[i].value) && Comparable(frames[i].value, frames[0].value)
  }

  ghost predicate Coherent(frames: Frames, n: nat)
    requires n <= |frames|
  {
    forall i: nat :: i < n ==> FrameOk(frames, i)
  }

  lemma CombineNext(frames: Frames, n: nat)
    requires 2 <= n <= |frames|
    ensures var before, last, after := Combine(frames, n - 1), frames[n - 1], Combine(frames, n);
            && (after.Some? <==> before.Some? && last.Some? && ValidScan(last.value) && Comparable(last.value, before.value))
            && (after.Some? ==> after.value == before.value.(scores := MergeScores(before.value.scores, last.value.scores)))
  {
  }

  lemma CoherentNext(frames: Frames, n: nat)
    requires 2 <= n <= |frames|
    ensures Coherent(frames, n) <==> Coherent(frames, n - 1) && FrameOk(frames, n - 1)
  {
  }

  lemma {:induction false} CombinedMatchesFirst(frames: Frames, n: nat)
    requires 1 <= n <= |frames| && Combine(frames, n).Some?
    ensures frames[0].Some? && Comparable(Combine(frames, n).value, frames[0].value)
  {
    if n > 1 {
      CombinedMatchesFirst(frames, n - 1);
    }
  }

  /** Mismatching or failed frames give an error, never a partial result. */
  lemma {:induction false} CombinesIffCoherent(frames: Frames, n: nat)
    requires 1 <= n <= |frames|
    ensures Combine(frames, n).Some? <==> Coherent(frames, n)
  {
    if n == 1 {
      assert Coherent(frames, 1) <==> FrameOk(frames, 0);
    } else {
      CombinesIffCoherent(frames, n - 1);
      CombineNext(frames, n);
      CoherentNext(frames, n);
      if Combine(frames, n - 1).Some? {
        CombinedMatchesFirst(frames, n - 1);
      }
    }
  }

  /** So the final validation of a combined result never fails. */
  lemma {:induction false} CombinedIsValid(frames: Frames, n: nat)
    requires 1 <= n <= |frames| && Combine(frames, n).Some?
    ensures ValidScan(Combine(frames, n).value)
  {
    if n > 1 {
      CombinedIsValid(frames, n - 1);
      var before, next := Combine(frames, n - 1).value.scores, frames[n - 1].value.scores;
      var merged := MergeScores(before, next);
      assert merged.Keys == before.Keys;
      assert |merged.Keys| == |merged| && |before.Keys| == |before|;
      forall c | c in merged
        ensures 1 <= Text.ByteLength(c) <= 64 && 0.0 <= merged[c] <= 1.0
      {
        assert c in before && c in next;
      }
    }
  }

  predicate HasScore(frames: Frames, i: nat, c: string)
    requires i < |frames|
  {
    frames[i].Some? && c in frames[i].value.scores
  }

  function ScoreAt(frames: Frames, i: nat, c: string): real
    requires i < |frames| && HasScore(frames, i, c)
  {
    frames[i].value.scores[c]
  }

  /** The frames' greatest score of a category so far, and where it was. */
  ghost predicate GreatestAt(frames: Frames, n: nat, c: string, k: nat, score: real)
    requires n <= |frames|
  {
    && k < n && HasScore(frames, k, c) && ScoreAt(frames, k, c) == score
    && forall i: nat :: i < n ==> HasScore(frames, i, c) && ScoreAt(frames, i, c) <= score
  }

  lemma CategoryEverywhere(frames: Frames, n: nat, i: nat, c: string)
    requires 1 <= n <= |frames| && i < n && Coherent(frames, n) && frames[0].Some?
    ensures frames[i].Some? && (c in frames[i].value.scores <==> c in frames[0].value.scores)
  {
    assert FrameOk(frames, i);
  }

  lemma CombinedScoreNext(frames: Frames, n: nat, c: string)
    requires 2 <= n <= |frames| && Combine(frames, n).Some? && c in Combine(frames, n).value.scores
    ensures Combine(frames, n - 1).Some? && c in Combine(frames, n - 1).value.scores && HasScore(frames, n - 1, c)
    ensures Combine(frames, n).value.scores[c] == Max(Combine(frames, n - 1).value.scores[c], ScoreAt(frames, n - 1, c))
  {
    CombineNext(frames, n);
  }

  lemma GreatestNext(frames: Frames, n: nat, c: string, k: nat, score: real) returns (l: nat)
    requires 2 <= n <= |frames| && GreatestAt(frames, n - 1, c, k, score) && HasScore(frames, n - 1, c)
    ensures GreatestAt(frames, n, c, l, Max(score, ScoreAt(frames, n - 1, c)))
  {
    l := if score < ScoreAt(frames, n - 1, c) then n - 1 else k;
  }

  /** Per category the combined score is the largest of the frames' scores. */
  lemma {:induction false} CombinedScoreIsMax(frames: Frames, n: nat, c: string) returns (k: nat)
    requires 1 <= n <= |frames| && Combine(frames, n).Some? && c in Combine(frames, n).value.scores
    ensures GreatestAt(frames, n, c, k, Combine(frames, n).value.scores[c])
  {
    if n == 1 {
      k := 0;
    } else {
      CombinedScoreNext(frames, n, c);
      k := CombinedScoreIsMax(frames, n - 1, c);
      k := GreatestNext(frames, n, c, k, Combine(frames, n - 1).value.scores[c]);
    }
  }

  /** A media rule sees a video exactly as it sees its frames one by one. */
  lemma {:induction false} RuleFiresIffSomeFrameFires(frames: Frames, n: nat, rule: Rule)
    requires 1 <= n <= |frames| && Combine(frames, n).Some? && rule.trigger.Media?
    ensures MediaHolds(rule, Combine(frames, n).value)
            <==> exists i: nat :: i < n && frames[i].Some? && MediaHolds(rule, frames[i].value)
  {
    var combined := Combine(frames, n).value;
    if MediaHolds(rule, combined) {
      var c :| c in rule.trigger.categories && c in combined.scores && combined.scores[c] >= rule.trigger.threshold;
      var k := CombinedScoreIsMax(frames, n, c);
      assert MediaHolds(rule, frames[k].value);
    }
    forall i: nat | i < n && frames[i].Some? && MediaHolds(rule, frames[i].value)
      ensures MediaHolds(rule, combined)
    {
      var c :| c in rule.trigger.categories && c in frames[i].value.scores
               && frames[i].value.scores[c] >= rule.trigger.threshold;
      CombinesIffCoherent(frames, n);
      assert FrameOk(frames, 0);
      CategoryEverywhere(frames, n, i, c);
      CombinedMatchesFirst(frames, n);
      var k := CombinedScoreIsMax(frames, n, c);
      assert ScoreAt(frames, i, c) <= combined.scores[c];
    }
  }

  // ---------------------------------------------------------------------------
  // The frames' order
  // ---------------------------------------------------------------------------

  ghost predicate Within(some: Frames, all: Frames) {
    forall i: nat :: i < |some| ==> some[i] in all
  }

  lemma CoherentWithin(some: Frames, all: Frames)
    requires some != [] && Within(some, all) && Coherent(all, |all|)
    ensures Coherent(some, |some|)
  {
    var j0: nat :| j0 < |all| && all[j0] == some[0];
    assert FrameOk(all, j0);
    forall i: nat | i < |some|
      ensures FrameOk(some, i)
    {
      var j: nat :| j < |all| && all[j] == some[i];
      assert FrameOk(all, j);
    }
  }

  lemma ScoreWithin(some: Frames, all: Frames, c: string)
    requires some != [] && all != [] && Within(some, all)
    requires Combine(some, |some|).Some? && Combine(all, |all|).Some?
    requires c in Combine(some, |some|).value.scores && c in Combine(all, |all|).value.scores
    ensures Combine(some, |some|).value.scores[c] <= Combine(all, |all|).value.scores[c]
  {
    var i := CombinedScoreIsMax(some, |some|, c);
    var j: nat :| j < |all| && all[j] == some[i];
    var k := CombinedScoreIsMax(all, |all|, c);
    assert ScoreAt(all, j, c) == ScoreAt(some, i, c);
  }

  lemma SameModel(some: Frames, all: Frames)
    requires some != [] && all != [] && Within(some, all)
    requires Combine(some, |some|).Some? && Combine(all, |all|).Some?
    ensures Comparable(Combine(some, |some|).value, Combine(all, |all|).value)
  {
    CombinesIffCoherent(all, |all|);
    CombinedMatchesFirst(some, |some|);
    CombinedMatchesFirst(all, |all|);
    var j: nat :| j < |all| && all[j] == some[0];
    assert FrameOk(all, j);
  }

  /** The frames' order is irrelevant: whether combining succeeds, and to which scores and model,
      depends on the multiset of frames alone. */
  lemma FrameOrderIsIrrelevant(frames: Frames, shuffled: Frames)
    requires frames != [] && multiset(frames) == multiset(shuffled)
    ensures |frames| == |shuffled|
    ensures Combine(frames, |frames|).Some? <==> Combine(shuffled, |shuffled|).Some?
    ensures Combine(frames, |frames|).Some? ==>
              && Combine(frames, |frames|).value.scores == Combine(shuffled, |shuffled|).value.scores
              && Combine(frames, |frames|).value.version == Combine(shuffled, |shuffled|).value.version
  {
    assert |multiset(frames)| == |frames| && |multiset(shuffled)| == |shuffled|;
    forall i: nat | i < |frames| ensures frames[i] in shuffled { assert frames[i] in multiset(frames); }
    forall i: nat | i < |shuffled| ensures shuffled[i] in frames { assert shuffled[i] in multiset(shuffled); }
    CombinesIffCoherent(frames, |frames|);
    CombinesIffCoherent(shuffled, |shuffled|);
    if Coherent(frames, |frames|) {
      CoherentWithin(shuffled, frames);
    }
    if Coherent(shuffled, |shuffled|) {
      CoherentWithin(frames, shuffled);
      SameModel(frames, shuffled);
      forall c | c in Combine(frames, |frames|).value.scores
        ensures Combine(frames, |frames|).value.scores[c] == Combine(shuffled, |shuffled|).value.scores[c]
      {
        ScoreWithin(frames, shuffled, c);
        ScoreWithin(shuffled, frames, c);
      }
    }
  }
}
