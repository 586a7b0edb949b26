/** The detector's output turned into label scores: the top class of every box, a confidence cutoff, and
    greedy non-maximum suppression across classes. Arithmetic is over the reals. */
module BoxSuppression {
  import opened Wrappers

  const LABELS := 18
  const CUTOFF := 0.25
  const MAX_OVERLAP := 0.45
  const EPSILON := 1.0 / 8388608.0
  const SIDE := 320.0

  type Label = l: nat | l < LABELS

  datatype Box = Box(x: real, y: real, w: real, h: real)

  /** A box above the cutoff. `index` is its position in the output. */
  datatype Candidate = Candidate(cls: Label, score: real, box: Box, index: nat)

  function Min(a: real, b: real): real { if a <= b then a else b }
  function Max(a: real, b: real): real { if a >= b then a else b }
  function Clamp(v: real, lo: real, hi: real): real { if v < lo then lo else if v > hi then hi else v }

  // ---------------------------------------------------------------------------
  // Reading the output: 22 rows of `n` values, four of geometry and one per label
  // ---------------------------------------------------------------------------

  predicate WellFormed(data: seq<real>, n: nat) { |data| == 22 * n }

  function Offset(n: nat, row: nat, i: nat): (k: nat)
    requires row < 22 && i < n
    ensures k < 22 * n
  {
    assert row * n <= 21 * n;
    row * n + i
  }

  function At(data: seq<real>, n: nat, row: nat, i: nat): real
    requires WellFormed(data, n) && row < 22 && i < n
  {
    data[Offset(n, row, i)]
  }

  function ClassScore(data: seq<real>, n: nat, i: nat, c: nat): real
    requires WellFormed(data, n) && i < n && c < LABELS
  {
    At(data, n, 4 + c, i)
  }

  /** The best of the first `upTo` classes; of equal ones the last, as `max_by` has it. */
  function TopClass(data: seq<real>, n: nat, i: nat, upTo: nat := LABELS): (c: Label)
    requires WellFormed(data, n) && i < n && 1 <= upTo <= LABELS
  {
    if upTo == 1 then 0
    else
      var best := TopClass(data, n, i, upTo - 1);
      if ClassScore(data, n, i, upTo - 1) >= ClassScore(data, n, i, best) then upTo - 1 else best
  }

  lemma {:induction false} TopClassIsTheLastBest(data: seq<real>, n: nat, i: nat, upTo: nat, k: nat)
    requires WellFormed(data, n) && i < n && k < upTo <= LABELS
    ensures ClassScore(data, n, i, k) <= ClassScore(data, n, i, TopClass(data, n, i, upTo))
    ensures TopClass(data, n, i, upTo) < k ==> ClassScore(data, n, i, k) < ClassScore(data, n, i, TopClass(data, n, i, upTo))
  {
    if k < upTo - 1 {
      TopClassIsTheLastBest(data, n, i, upTo - 1, k);
    }
  }

  function TopScore(data: seq<real>, n: nat, i: nat): real
    requires WellFormed(data, n) && i < n
  {
    ClassScore(data, n, i, TopClass(data, n, i))
  }

  /** The picture is scaled to fit the square and sits in its top left corner. */
  datatype Frame = Frame(width: nat, height: nat) {
    predicate Valid() { width > 0 && height > 0 }
    function Side(): nat { if width >= height then width else height }
    function BoundX(): (r: real)
      requires Valid()
      ensures 0.0 < r <= SIDE
    {
      Shrunk(width, Side());
      width as real / Side() as real * SIDE
    }
    function BoundY(): (r: real)
      requires Valid()
      ensures 0.0 < r <= SIDE
    {
      Shrunk(height, Side());
      height as real / Side() as real * SIDE
    }
  }

  lemma Shrunk(part: nat, whole: nat)
    requires 0 < part <= whole
    ensures 0.0 < part as real / whole as real <= 1.0
  {
  }

  /** Centre and extent turned into a corner and an extent, cut off at the picture's edges. */
  function BoxAt(data: seq<real>, n: nat, f: Frame, i: nat): Box
    requires WellFormed(data, n) && i < n && f.Valid()
  {
    var w, h := At(data, n, 2, i), At(data, n, 3, i);
    var x := Clamp(At(data, n, 0, i) - w / 2.0, 0.0, f.BoundX());
    var y := Clamp(At(data, n, 1, i) - h / 2.0, 0.0, f.BoundY());
    Box(x, y, Min(Max(w, 0.0), f.BoundX() - x), Min(Max(h, 0.0), f.BoundY() - y))
  }

  predicate Inside(b: Box, f: Frame)
    requires f.Valid()
  {
    && 0.0 <= b.x && 0.0 <= b.w && b.x + b.w <= f.BoundX()
    && 0.0 <= b.y && 0.0 <= b.h && b.y + b.h <= f.BoundY()
  }

  lemma BoxesStayInside(data: seq<real>, n: nat, f: Frame, i: nat)
    requires WellFormed(data, n) && i < n && f.Valid()
    ensures Inside(BoxAt(data, n, f, i), f)
  {
  }

  predicate ScoreValid(data: seq<real>, n: nat, i: nat)
    requires WellFormed(data, n) && i < n
  {
    0.0 <= TopScore(data, n, i) <= 1.0
  }

  predicate AllScoresValid(data: seq<real>, n: nat)
    requires WellFormed(data, n)
  {
    forall i :: 0 <= i < n ==> ScoreValid(data, n, i)
  }

  function CandidateAt(data: seq<real>, n: nat, f: Frame, i: nat): Candidate
    requires WellFormed(data, n) && i < n && f.Valid()
  {
    Candidate(TopClass(data, n, i), TopScore(data, n, i), BoxAt(data, n, f, i), i)
  }

  /** The candidates among the first `m` boxes, in order. */
  function Candidates(data: seq<real>, n: nat, f: Frame, m: nat): seq<Candidate>
    requires WellFormed(data, n) && m <= n && f.Valid()
  {
    if m == 0 then []
    else
      Candidates(data, n, f, m - 1)
      + if TopScore(data, n, m - 1) > CUTOFF then [CandidateAt(data, n, f, m - 1)] else []
  }

  predicate IsCandidate(data: seq<real>, n: nat, f: Frame, m: nat, c: Candidate)
    requires WellFormed(data, n) && m <= n && f.Valid()
  {
    c.index < m && c == CandidateAt(data, n, f, c.index) && c.score > CUTOFF
  }

  lemma {:induction false} CandidatesAreCandidates(data: seq<real>, n: nat, f: Frame, m: nat, c: Candidate)
    requires WellFormed(data, n) && m <= n && f.Valid()
    ensures c in Candidates(data, n, f, m) <==> IsCandidate(data, n, f, m, c)
  {
    if m > 0 {
      CandidatesAreCandidates(data, n, f, m - 1, c);
    }
  }

  lemma {:induction false} CandidatesRise(data: seq<real>, n: nat, f: Frame, m: nat, i: nat, j: nat)
    requires WellFormed(data, n) && m <= n && f.Valid() && i < j < |Candidates(data, n, f, m)|
    ensures Candidates(data, n, f, m)[i].index < Candidates(data, n, f, m)[j].index
  {
    var before := Candidates(data, n, f, m - 1);
    if j < |before| {
      CandidatesRise(data, n, f, m - 1, i, j);
    } else {
      CandidatesAreCandidates(data, n, f, m - 1, before[i]);
    }
  }

  // ---------------------------------------------------------------------------
  // The stable sort by falling score
  // ---------------------------------------------------------------------------

  predicate Before(a: Candidate, b: Candidate) {
    a.score > b.score || (a.score == b.score && a.index < b.index)
  }

  predicate Ordered(cs: seq<Candidate>) {
    forall i, j :: 0 <= i < j < |cs| ==> Before(cs[i], cs[j])
  }

  function Place(c: Candidate, cs: seq<Candidate>): (r: seq<Candidate>)
    ensures multiset(r) == multiset(cs) + multiset{c}
  {
    if cs == [] || Before(c, cs[0]) then [c] + cs
    else
      assert cs == [cs[0]] + cs[1..];
      [cs[0]] + Place(c, cs[1..])
  }

  function Sort(cs: seq<Candidate>): (r: seq<Candidate>)
    ensures multiset(r) == multiset(cs)
  {
    if cs == [] then []
    else
      assert cs == cs[..|cs| - 1] + [cs[|cs| - 1]];
      Place(cs[|cs| - 1], Sort(cs[..|cs| - 1]))
  }

  lemma PlaceMembers(c: Candidate, cs: seq<Candidate>, d: Candidate)
    ensures d in Place(c, cs) <==> d in cs || d == c
  {
  }

  lemma SortMembers(cs: seq<Candidate>, d: Candidate)
    ensures d in Sort(cs) <==> d in cs
  {
    assert d in multiset(Sort(cs)) <==> d in multiset(cs);
  }

  lemma {:induction false} PlaceKeepsOrder(c: Candidate, cs: seq<Candidate>)
    requires Ordered(cs) && forall d :: d in cs ==> d.index != c.index
    ensures Ordered(Place(c, cs))
  {
    if cs != [] && !Before(c, cs[0]) {
      var rest := Place(c, cs[1..]);
      PlaceKeepsOrder(c, cs[1..]);
      forall k | 0 <= k < |rest|
        ensures Before(cs[0], rest[k])
      {
        PlaceMembers(c, cs[1..], rest[k]);
      }
    }
  }

  /** Falling scores; equal scores stay in output order. */
  lemma {:induction false} SortIsStable(cs: seq<Candidate>)
    requires forall i, j :: 0 <= i < j < |cs| ==> cs[i].index < cs[j].index
    ensures Ordered(Sort(cs))
  {
    if cs != [] {
      var init := cs[..|cs| - 1];
      SortIsStable(init);
      forall d | d in Sort(init)
        ensures d.index != cs[|cs| - 1].index
      {
        SortMembers(init, d);
      }
      PlaceKeepsOrder(cs[|cs| - 1], Sort(init));
    }
  }

  // ---------------------------------------------------------------------------
  // Overlap
  // ---------------------------------------------------------------------------

  function Area(b: Box): real { b.w * b.h }

  function Intersection(a: Box, b: Box): real {
    Max(Min(a.x + a.w, b.x + b.w) - Max(a.x, b.x), 0.0) * Max(Min(a.y + a.h, b.y + b.h) - Max(a.y, b.y), 0.0)
  }

  /** Intersection over union; the denominator is kept away from zero. */
  function Overlap(a: Box, b: Box): real {
    Intersection(a, b) / Max(Area(a) + Area(b) - Intersection(a, b), EPSILON)
  }

  predicate Suppresses(kept: Candidate, c: Candidate) { Overlap(kept.box, c.box) > MAX_OVERLAP }

  lemma OverlapIsSymmetric(a: Box, b: Box)
    ensures Overlap(a, b) == Overlap(b, a)
  {
    assert Intersection(a, b) == Intersection(b, a);
  }

  lemma IntersectionFits(a: Box, b: Box)
    requires a.w >= 0.0 && a.h >= 0.0 && b.w >= 0.0 && b.h >= 0.0
    ensures 0.0 <= Intersection(a, b) <= Area(a) && Intersection(a, b) <= Area(b)
  {
    var dx := Max(Min(a.x + a.w, b.x + b.w) - Max(a.x, b.x), 0.0);
    var dy := Max(Min(a.y + a.h, b.y + b.h) - Max(a.y, b.y), 0.0);
    ProductGrows(dx, dy, a.w, a.h);
    ProductGrows(dx, dy, b.w, b.h);
  }

  lemma ProductGrows(a: real, b: real, c: real, d: real)
    requires 0.0 <= a <= c && 0.0 <= b <= d
    ensures 0.0 <= a * b <= c * d
  {
  }

  /** A ratio of areas. */
  lemma OverlapIsARatio(a: Box, b: Box)
    requires a.w >= 0.0 && a.h >= 0.0 && b.w >= 0.0 && b.h >= 0.0
    ensures 0.0 <= Overlap(a, b) <= 1.0
  {
    IntersectionFits(a, b);
    RatioBounds(Intersection(a, b), Max(Area(a) + Area(b) - Intersection(a, b), EPSILON));
  }

  lemma SelfOverlap(a: Box)
    requires a.w >= 0.0 && a.h >= 0.0
    ensures Intersection(a, a) == Area(a) && Overlap(a, a) == Area(a) / Max(Area(a), EPSILON)
  {
    assert Area(a) + Area(a) - Area(a) == Area(a);
  }

  /** A box suppresses its own duplicate unless it is vanishingly small. */
  lemma DuplicateIsDroppedIff(a: Box)
    requires a.w >= 0.0 && a.h >= 0.0
    ensures Overlap(a, a) > MAX_OVERLAP <==> Area(a) > MAX_OVERLAP * EPSILON
  {
    SelfOverlap(a);
    AboveRatio(Area(a));
  }

  lemma AboveRatio(area: real)
    ensures area / Max(area, EPSILON) > MAX_OVERLAP <==> area > MAX_OVERLAP * EPSILON
  {
    QuotientAbove(area, Max(area, EPSILON), MAX_OVERLAP);
  }

  lemma RatioBounds(p: real, q: real)
    requires 0.0 <= p <= q && q > 0.0
    ensures 0.0 <= p / q <= 1.0
  {
  }

  lemma QuotientAbove(p: real, q: real, t: real)
    requires q > 0.0
    ensures p / q > t <==> p > t * q
  {
  }

  // ---------------------------------------------------------------------------
  // Greedy suppression
  // ---------------------------------------------------------------------------

  predicate Suppressed(kept: seq<Candidate>, c: Candidate) {
    exists k :: k in kept && Suppresses(k, c)
  }

  function Keep(cs: seq<Candidate>): (kept: seq<Candidate>)
    ensures forall k :: k in kept ==> k in cs
  {
    if cs == [] then []
    else
      var kept := Keep(cs[..|cs| - 1]);
      if Suppressed(kept, cs[|cs| - 1]) then kept else kept + [cs[|cs| - 1]]
  }

  /** No two kept boxes overlap by more than the limit. */
  lemma {:induction false} KeptAreApart(cs: seq<Candidate>, i: nat, j: nat)
    requires i < j < |Keep(cs)|
    ensures Overlap(Keep(cs)[i].box, Keep(cs)[j].box) <= MAX_OVERLAP
  {
    var before := Keep(cs[..|cs| - 1]);
    if j < |before| {
      KeptAreApart(cs[..|cs| - 1], i, j);
    } else {
      assert before[i] in before;
    }
  }

  /** Every candidate is kept, or overlaps a kept box of at least its score by more than the limit. */
  lemma {:induction false} DroppedAreCovered(cs: seq<Candidate>, c: Candidate)
    requires Ordered(cs) && c in cs
    ensures c in Keep(cs) || exists k :: k in Keep(cs) && k.score >= c.score && Suppresses(k, c)
  {
    var init, last := cs[..|cs| - 1], cs[|cs| - 1];
    if c in init {
      DroppedAreCovered(init, c);
    } else {
      assert c == last;
      if c !in Keep(cs) {
        var k :| k in Keep(init) && Suppresses(k, c);
        var i :| 0 <= i < |init| && cs[i] == k;
        assert Before(cs[i], cs[|cs| - 1]);
      }
    }
  }

  /** A selection is greedy when a candidate is in it exactly if nothing before it in it suppresses it. */
  ghost predicate IsGreedy(cs: seq<Candidate>, chosen: set<Candidate>) {
    && (forall c :: c in chosen ==> c in cs)
    && (forall c :: c in cs ==> (c in chosen <==> !Blocked(chosen, c)))
  }

  ghost predicate Blocked(chosen: set<Candidate>, c: Candidate) {
    exists k :: k in chosen && Before(k, c) && Suppresses(k, c)
  }

  ghost function Elements(cs: seq<Candidate>): set<Candidate> { set c | c in cs }

  lemma {:induction false} KeepIsGreedy(cs: seq<Candidate>)
    requires Ordered(cs)
    ensures IsGreedy(cs, Elements(Keep(cs)))
  {
    if cs != [] {
      var init, last := cs[..|cs| - 1], cs[|cs| - 1];
      KeepIsGreedy(init);
      assert forall k :: k in init ==> Before(k, last);
      assert cs == init + [last];
    }
  }

  /** There is only one such selection. */
  lemma {:induction false} GreedyIsUnique(cs: seq<Candidate>, one: set<Candidate>, other: set<Candidate>, n: nat)
    requires Ordered(cs) && IsGreedy(cs, one) && IsGreedy(cs, other) && n <= |cs|
    ensures Agree(cs, one, other, n)
  {
    if n > 0 {
      GreedyIsUnique(cs, one, other, n - 1);
      SameBlockers(cs, one, other, n - 1);
      SameBlockers(cs, other, one, n - 1);
      GreedyAt(cs, one, cs[n - 1]);
      GreedyAt(cs, other, cs[n - 1]);
    }
  }

  ghost predicate Agree(cs: seq<Candidate>, one: set<Candidate>, other: set<Candidate>, n: nat)
    requires n <= |cs|
  {
    forall i :: 0 <= i < n ==> (cs[i] in one <==> cs[i] in other)
  }

  lemma GreedyAt(cs: seq<Candidate>, chosen: set<Candidate>, c: Candidate)
    requires IsGreedy(cs, chosen) && c in cs
    ensures c in chosen <==> !Blocked(chosen, c)
  {
  }

  lemma SameBlockers(cs: seq<Candidate>, one: set<Candidate>, other: set<Candidate>, n: nat)
    requires Ordered(cs) && n < |cs| && (forall c :: c in one ==> c in cs) && Agree(cs, one, other, n)
    ensures Blocked(one, cs[n]) ==> Blocked(other, cs[n])
  {
  }

  /** So the loop keeps the one greedy selection. */
  lemma KeepIsTheGreedySelection(cs: seq<Candidate>, chosen: set<Candidate>)
    requires Ordered(cs)
    ensures IsGreedy(cs, chosen) <==> chosen == Elements(Keep(cs))
  {
    KeepIsGreedy(cs);
    if IsGreedy(cs, chosen) {
      GreedyIsUnique(cs, chosen, Elements(Keep(cs)), |cs|);
    }
  }

  // ---------------------------------------------------------------------------
  // Label scores
  // ---------------------------------------------------------------------------

  function LabelScores(kept: seq<Candidate>): (scores: seq<real>)
    ensures |scores| == LABELS
  {
    if kept == [] then seq(LABELS, _ => 0.0)
    else
      var last := kept[|kept| - 1];
      var scores := LabelScores(kept[..|kept| - 1]);
      scores[last.cls := Max(scores[last.cls], last.score)]
  }

  /** Each label gets the best score of its kept boxes, or 0. */
  lemma {:induction false} EachLabelGetsItsBest(kept: seq<Candidate>, l: Label)
    ensures var best := LabelScores(kept)[l];
            && best >= 0.0
            && (forall k :: k in kept && k.cls == l ==> k.score <= best)
            && (best == 0.0 || exists k :: k in kept && k.cls == l && k.score == best)
  {
    if kept != [] {
      var init, last := kept[..|kept| - 1], kept[|kept| - 1];
      assert kept == init + [last];
      EachLabelGetsItsBest(init, l);
      if last.cls == l && LabelScores(kept)[l] == last.score {
        assert last in kept;
      }
    }
  }

  /** The boxes whose labels count. */
  function Detections(data: seq<real>, n: nat, f: Frame): seq<Candidate>
    requires WellFormed(data, n) && f.Valid()
  {
    Keep(Sort(Candidates(data, n, f, n)))
  }

  lemma DetectionsAreCandidates(data: seq<real>, n: nat, f: Frame, k: Candidate)
    requires WellFormed(data, n) && f.Valid() && k in Detections(data, n, f)
    ensures IsCandidate(data, n, f, n, k)
  {
    SortMembers(Candidates(data, n, f, n), k);
    CandidatesAreCandidates(data, n, f, n, k);
  }

  lemma SortedCandidatesAreOrdered(data: seq<real>, n: nat, f: Frame)
    requires WellFormed(data, n) && f.Valid()
    ensures Ordered(Sort(Candidates(data, n, f, n)))
  {
    var cs := Candidates(data, n, f, n);
    forall i, j | 0 <= i < j < |cs|
      ensures cs[i].index < cs[j].index
    {
      CandidatesRise(data, n, f, n, i, j);
    }
    SortIsStable(cs);
  }

  function Highest(scores: seq<real>): (m: real)
    ensures forall l :: 0 <= l < |scores| ==> scores[l] <= m
    ensures m == 0.0 || exists l :: 0 <= l < |scores| && scores[l] == m
  {
    if scores == [] then 0.0 else Max(Highest(scores[..|scores| - 1]), scores[|scores| - 1])
  }

  /** The greatest top score above the cutoff among the first `m` boxes, 0 when there is none. */
  function Strongest(data: seq<real>, n: nat, m: nat): (r: real)
    requires WellFormed(data, n) && m <= n
    ensures r >= 0.0 && forall i :: 0 <= i < m && TopScore(data, n, i) > CUTOFF ==> TopScore(data, n, i) <= r
    ensures r == 0.0 || exists i :: 0 <= i < m && TopScore(data, n, i) > CUTOFF && TopScore(data, n, i) == r
  {
    if m == 0 then 0.0
    else
      var before := Strongest(data, n, m - 1);
      if TopScore(data, n, m - 1) > CUTOFF then Max(before, TopScore(data, n, m - 1)) else before
  }

  lemma SomeLabelReaches(data: seq<real>, n: nat, f: Frame, i: nat)
    requires WellFormed(data, n) && f.Valid() && i < n && TopScore(data, n, i) > CUTOFF
    ensures TopScore(data, n, i) <= Highest(LabelScores(Detections(data, n, f)))
  {
    var cs := Candidates(data, n, f, n);
    var c := CandidateAt(data, n, f, i);
    SortedCandidatesAreOrdered(data, n, f);
    CandidatesAreCandidates(data, n, f, n, c);
    SortMembers(cs, c);
    DroppedAreCovered(Sort(cs), c);
    var k :| k in Keep(Sort(cs)) && k.score >= c.score;
    EachLabelGetsItsBest(Detections(data, n, f), k.cls);
  }

  /** Suppression never hides the strongest detection: over all labels the greatest score is the greatest
      top score above the cutoff in the raw output. */
  lemma StrongestSurvives(data: seq<real>, n: nat, f: Frame)
    requires WellFormed(data, n) && f.Valid()
    ensures Highest(LabelScores(Detections(data, n, f))) == Strongest(data, n, n)
  {
    var kept := Detections(data, n, f);
    var scores := LabelScores(kept);
    if Strongest(data, n, n) != 0.0 {
      var i :| 0 <= i < n && TopScore(data, n, i) > CUTOFF && TopScore(data, n, i) == Strongest(data, n, n);
      SomeLabelReaches(data, n, f, i);
    }
    EachLabelGetsItsBest(kept, 0);
    if Highest(scores) != 0.0 {
      var l :| 0 <= l < |scores| && scores[l] == Highest(scores);
      EachLabelGetsItsBest(kept, l);
      var k :| k in kept && k.score == scores[l];
      DetectionsAreCandidates(data, n, f, k);
    }
  }

  // ---------------------------------------------------------------------------
  // The loops
  // ---------------------------------------------------------------------------

  method BestClass(data: seq<real>, n: nat, i: nat) returns (cls: nat, score: real)
    requires WellFormed(data, n) && i < n
    ensures cls == TopClass(data, n, i) && score == TopScore(data, n, i)
  {
    cls := 0;
    for c := 1 to LABELS
      invariant cls == TopClass(data, n, i, c)
    {
      if ClassScore(data, n, i, c) >= ClassScore(data, n, i, cls) {
        cls := c;
      }
    }
    score := ClassScore(data, n, i, cls);
  }

  method CollectBoxes(data: seq<real>, n: nat, f: Frame) returns (r: Result<seq<Candidate>, string>)
    requires f.Valid()
    ensures r.Ok? <==> WellFormed(data, n) && AllScoresValid(data, n)
    ensures r.Ok? ==> r.value == Candidates(data, n, f, n)
  {
    if |data| != 22 * n {
      return Err("invalid model output");
    }
    var boxes: seq<Candidate> := [];
    for i := 0 to n
      invariant boxes == Candidates(data, n, f, i)
      invariant forall k :: 0 <= k < i ==> ScoreValid(data, n, k)
    {
      var cls, score := BestClass(data, n, i);
      if !(0.0 <= score <= 1.0) {
        assert !ScoreValid(data, n, i);
        return Err("invalid model score");
      }
      assert ScoreValid(data, n, i);
      if score > CUTOFF {
        boxes := boxes + [Candidate(cls, score, BoxAt(data, n, f, i), i)];
      }
    }
    return Ok(boxes);
  }

  method Suppress(boxes: seq<Candidate>) returns (scores: seq<real>)
    ensures scores == LabelScores(Keep(boxes))
  {
    var selected: seq<Candidate> := [];
    scores := seq(LABELS, _ => 0.0);
    for j := 0 to |boxes|
      invariant selected == Keep(boxes[..j])
      invariant scores == LabelScores(selected)
    {
      assert boxes[..j + 1][..j] == boxes[..j];
      var c := boxes[j];
      if !Suppressed(selected, c) {
        assert (selected + [c])[..|selected|] == selected;
        selected := selected + [c];
        scores := scores[c.cls := Max(scores[c.cls], c.score)];
      }
    }
    assert boxes[..|boxes|] == boxes;
  }

  method Postprocess(data: seq<real>, n: nat, f: Frame) returns (r: Result<seq<real>, string>)
    requires f.Valid()
    ensures r.Ok? <==> WellFormed(data, n) && AllScoresValid(data, n)
    ensures r.Ok? ==> r.value == LabelScores(Detections(data, n, f))
  {
    var boxes := CollectBoxes(data, n, f);
    if boxes.Err? {
      return Err(boxes.error);
    }
    var sorted := Sort(boxes.value);
    var scores := Suppress(sorted);
    return Ok(scores);
  }
}
