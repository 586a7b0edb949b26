/** Space slugs: made from names, checked when given by users, and made unique. */
module Slugs {
  import opened Wrappers
  import opened Text

  const MAX_LENGTH := 100

  // ---------------------------------------------------------------------------
  // Characters
  // ---------------------------------------------------------------------------

  predicate IsUpper(c: char) { 'A' <= c <= 'Z' }
  predicate IsLower(c: char) { 'a' <= c <= 'z' }
  predicate IsAlnum(c: char) { IsUpper(c) || IsLower(c) || IsDigit(c) }
  predicate IsSlugChar(c: char) { IsLower(c) || IsDigit(c) || c == '-' }

  /** How one character beyond ASCII is lowercased: to any text without ASCII capitals. */
  type Folding = char -> string

  ghost predicate Lowercases(fold: Folding) { forall c :: NoCapitals(fold(c)) }

  predicate NoCapitals(s: string) { forall i :: 0 <= i < |s| ==> !IsUpper(s[i]) }

  function LowerChar(fold: Folding, c: char): string {
    if c < 128 as char then [LowerAscii(c)] else fold(c)
  }

  function ToLowercase(fold: Folding, s: string): string {
    if s == "" then "" else ToLowercase(fold, s[..|s| - 1]) + LowerChar(fold, s[|s| - 1])
  }

  // ---------------------------------------------------------------------------
  // Making a slug
  // ---------------------------------------------------------------------------

  function Hyphenate(s: string): (t: string)
    ensures |t| == |s| && forall i :: 0 <= i < |s| ==> t[i] == if IsAlnum(s[i]) then s[i] else '-'
  {
    seq(|s|, i requires 0 <= i < |s| => if IsAlnum(s[i]) then s[i] else '-')
  }

  predicate EndsInHyphen(s: string) { s != "" && s[|s| - 1] == '-' }

  /** Runs of hyphens become single ones. */
  function Collapse(s: string): string {
    if s == "" then ""
    else
      var before := Collapse(s[..|s| - 1]);
      if s[|s| - 1] == '-' && EndsInHyphen(s[..|s| - 1]) then before else before + [s[|s| - 1]]
  }

  function TrimEnd(s: string): string {
    if EndsInHyphen(s) then TrimEnd(s[..|s| - 1]) else s
  }

  function TrimStart(s: string): string {
    if s != "" && s[0] == '-' then TrimStart(s[1..]) else s
  }

  function Truncate(s: string): string {
    if |s| > MAX_LENGTH then TrimEnd(s[..MAX_LENGTH]) else s
  }

  predicate AllDigits(s: string) { forall i :: 0 <= i < |s| ==> IsDigit(s[i]) }

  function Prefixed(s: string): string {
    if s != "" && AllDigits(s) then "s-" + s else s
  }

  /** Everything before the prefix for numbers. */
  function Stem(fold: Folding, name: string): string {
    Truncate(TrimEnd(TrimStart(Collapse(Hyphenate(ToLowercase(fold, name))))))
  }

  function Slugify(fold: Folding, name: string): string { Prefixed(Stem(fold, name)) }

  // ---------------------------------------------------------------------------
  // Checking one
  // ---------------------------------------------------------------------------

  predicate AllSlugChars(s: string) { forall i :: 0 <= i < |s| ==> IsSlugChar(s[i]) }

  predicate SingleHyphens(s: string) { forall i :: 0 <= i < |s| - 1 ==> !(s[i] == '-' && s[i + 1] == '-') }

  /** Slug characters, and no hyphen at either end or beside another. */
  predicate WellShaped(s: string) {
    && AllSlugChars(s) && SingleHyphens(s) && !EndsInHyphen(s) && (s != "" ==> s[0] != '-')
  }

  predicate ValidSlug(s: string) { s != "" && |s| <= MAX_LENGTH && WellShaped(s) && !AllDigits(s) }

  method ValidateSlug(s: string) returns (error: Option<string>)
    ensures error.None? <==> ValidSlug(s)
  {
    if s == "" {
      return Some("slug must not be empty");
    }
    if |s| > MAX_LENGTH {
      return Some("slug must be 100 characters or fewer");
    }
    if exists i :: 0 <= i < |s| && !(IsLower(s[i]) || IsDigit(s[i]) || s[i] == '-') {
      return Some("slug may only contain lowercase letters, digits, and hyphens");
    }
    if s[0] == '-' || s[|s| - 1] == '-' {
      return Some("slug must not start or end with a hyphen");
    }
    if exists i :: 0 <= i < |s| - 1 && s[i] == '-' && s[i + 1] == '-' {
      return Some("slug must not contain consecutive hyphens");
    }
    if forall i :: 0 <= i < |s| ==> IsDigit(s[i]) {
      return Some("slug must contain at least one letter or hyphen");
    }
    return None;
  }

  // ---------------------------------------------------------------------------
  // What a made slug looks like
  // ---------------------------------------------------------------------------

  lemma {:induction false} LowercaseHasNoCapitals(fold: Folding, s: string)
    requires Lowercases(fold)
    ensures NoCapitals(ToLowercase(fold, s))
  {
    if s != "" {
      LowercaseHasNoCapitals(fold, s[..|s| - 1]);
      assert NoCapitals(fold(s[|s| - 1]));
    }
  }

  lemma {:induction false} CollapseMakesSingle(s: string)
    requires AllSlugChars(s)
    ensures AllSlugChars(Collapse(s)) && SingleHyphens(Collapse(s))
    ensures EndsInHyphen(Collapse(s)) <==> EndsInHyphen(s)
  {
    if s != "" {
      CollapseMakesSingle(s[..|s| - 1]);
    }
  }

  lemma TrimEndKeeps(s: string)
    requires AllSlugChars(s) && SingleHyphens(s)
    ensures AllSlugChars(TrimEnd(s)) && SingleHyphens(TrimEnd(s)) && !EndsInHyphen(TrimEnd(s))
    ensures TrimEnd(s) <= s
  {
  }

  lemma TrimStartKeeps(s: string)
    requires AllSlugChars(s) && SingleHyphens(s)
    ensures AllSlugChars(TrimStart(s)) && SingleHyphens(TrimStart(s))
    ensures TrimStart(s) != "" ==> TrimStart(s)[0] != '-'
  {
  }

  lemma StemIsWellShaped(fold: Folding, name: string)
    requires Lowercases(fold)
    ensures WellShaped(Stem(fold, name)) && |Stem(fold, name)| <= MAX_LENGTH
  {
    LowercaseHasNoCapitals(fold, name);
    var s := Hyphenate(ToLowercase(fold, name));
    CollapseMakesSingle(s);
    TrimStartKeeps(Collapse(s));
    var t := TrimStart(Collapse(s));
    TrimEndKeeps(t);
    TrimEndKeeps(TrimEnd(t)[..if |TrimEnd(t)| > MAX_LENGTH then MAX_LENGTH else |TrimEnd(t)|]);
  }

  /** A made slug is empty, or passes every check but one: a number of 99 or 100 digits gets too long. */
  lemma SlugifyMeetsTheRules(fold: Folding, name: string)
    requires Lowercases(fold)
    ensures var s, stem := Slugify(fold, name), Stem(fold, name);
            && (s == "" || (WellShaped(s) && !AllDigits(s))) && |s| <= MAX_LENGTH + 2
            && (ValidSlug(s) <==> stem != "" && !(AllDigits(stem) && |stem| > MAX_LENGTH - 2))
  {
    StemIsWellShaped(fold, name);
    var stem := Stem(fold, name);
    if stem != "" && AllDigits(stem) {
      var s := "s-" + stem;
      assert s[0] == 's' && !AllDigits(s);
      assert forall i :: 2 <= i < |s| ==> s[i] == stem[i - 2];
    }
  }

  /** The exception does occur. */
  lemma LongNumbersMakeInvalidSlugs(fold: Folding, s: string)
    requires AllDigits(s) && 99 <= |s| <= 100
    ensures Slugify(fold, s) == "s-" + s && !ValidSlug(Slugify(fold, s))
  {
    LowercaseIsIdle(fold, s);
    assert Hyphenate(s) == s;
    CollapseIsIdle(s);
    assert IsDigit(s[0]) && IsDigit(s[|s| - 1]);
    assert Stem(fold, s) == s;
  }

  /** The valid slugs are the names that are their own slug. */
  lemma ValidSlugsAreFixed(fold: Folding, s: string)
    requires Lowercases(fold)
    ensures ValidSlug(s) <==> s != "" && Slugify(fold, s) == s
  {
    if ValidSlug(s) {
      LowercaseIsIdle(fold, s);
      assert Hyphenate(s) == s;
      CollapseIsIdle(s);
    } else if s != "" && Slugify(fold, s) == s {
      SlugifyMeetsTheRules(fold, s);
      NumbersAreNotFixed(fold, s);
    }
  }

  lemma {:induction false} LowercaseIsIdle(fold: Folding, s: string)
    requires AllSlugChars(s)
    ensures ToLowercase(fold, s) == s
  {
    if s != "" {
      LowercaseIsIdle(fold, s[..|s| - 1]);
      assert s == s[..|s| - 1] + [s[|s| - 1]];
    }
  }

  lemma {:induction false} CollapseIsIdle(s: string)
    requires SingleHyphens(s)
    ensures Collapse(s) == s
  {
    if s != "" {
      CollapseIsIdle(s[..|s| - 1]);
      assert s == s[..|s| - 1] + [s[|s| - 1]];
    }
  }

  lemma TruncateIsPrefix(s: string)
    requires WellShaped(s)
    ensures Truncate(s) <= s
  {
    TrimEndKeeps(s[..if |s| > MAX_LENGTH then MAX_LENGTH else |s|]);
  }

  lemma StemOfSlugShaped(fold: Folding, s: string)
    requires WellShaped(s)
    ensures Stem(fold, s) <= s
  {
    LowercaseIsIdle(fold, s);
    assert Hyphenate(s) == s;
    CollapseIsIdle(s);
    assert TrimEnd(TrimStart(s)) == s;
    TruncateIsPrefix(s);
  }

  /** A number that got its prefix is not the beginning of what it became. */
  lemma NumbersAreNotFixed(fold: Folding, s: string)
    requires Lowercases(fold) && s != "" && Slugify(fold, s) == s
    ensures Stem(fold, s) == s
  {
    SlugifyMeetsTheRules(fold, s);
    StemOfSlugShaped(fold, s);
    NoNumberFits(Stem(fold, s), s);
  }

  lemma NoNumberFits(stem: string, s: string)
    requires Prefixed(stem) == s && stem <= s && s != ""
    ensures stem == s
  {
    assert stem != "" ==> stem[0] == s[0];
  }

  method CollapseHyphens(s: string) returns (result: string)
    ensures result == Collapse(s)
  {
    result := "";
    var prevHyphen := false;
    for i := 0 to |s|
      invariant result == Collapse(s[..i]) && prevHyphen == EndsInHyphen(s[..i])
    {
      assert s[..i + 1][..i] == s[..i];
      if s[i] == '-' {
        if !prevHyphen {
          result := result + ['-'];
        }
        prevHyphen := true;
      } else {
        result := result + [s[i]];
        prevHyphen := false;
      }
    }
    assert s[..|s|] == s;
  }

  // ---------------------------------------------------------------------------
  // Making it unique
  // ---------------------------------------------------------------------------

  /** `spaces` maps the IDs of spaces to their slugs. */
  function Taken(spaces: map<string, string>, exclude: Option<string>): set<string> {
    set id | id in spaces && exclude != Some(id) :: spaces[id]
  }

  function Candidate(base: string, k: nat): string {
    if k == 0 then base else base + "-" + Decimal(k + 1)
  }

  lemma CandidatesDiffer(base: string, j: nat, k: nat)
    requires Candidate(base, j) == Candidate(base, k)
    ensures j == k
  {
    if j != 0 && k != 0 {
      assert Decimal(j + 1) == Candidate(base, j)[|base| + 1..];
      assert Decimal(k + 1) == Candidate(base, k)[|base| + 1..];
      DecimalIsInjective(j + 1, k + 1);
    }
  }

  ghost predicate FirstFree(base: string, taken: set<string>, r: string, k: nat) {
    r == Candidate(base, k) && r !in taken && forall j :: 0 <= j < k ==> Candidate(base, j) in taken
  }

  ghost predicate Tried(base: string, k: nat, s: string) { exists j :: 0 <= j < k && s == Candidate(base, j) }

  /** The search ends for any finite table, at the first candidate nobody else has. */
  method EnsureUniqueSlug(base: string, spaces: map<string, string>, exclude: Option<string>) returns (r: string)
    ensures exists k: nat :: FirstFree(base, Taken(spaces, exclude), r, k)
  {
    r := base;
    var suffix: nat := 2;
    ghost var taken := Taken(spaces, exclude);
    ghost var untried := taken;
    while true
      invariant suffix >= 2 && r == Candidate(base, suffix - 2)
      invariant forall j :: 0 <= j < suffix - 2 ==> Candidate(base, j) in taken
      invariant forall s :: s in taken ==> s in untried || Tried(base, suffix - 2, s)
      decreases |untried|
    {
      if !exists id :: id in spaces && exclude != Some(id) && spaces[id] == r {
        assert FirstFree(base, taken, r, suffix - 2);
        return;
      }
      if r !in untried {
        var j :| 0 <= j < suffix - 2 && r == Candidate(base, j);
        CandidatesDiffer(base, j, suffix - 2);
      }
      untried := untried - {r};
      r := base + "-" + Decimal(suffix);
      suffix := suffix + 1;
    }
  }

  /** A suffix keeps every rule but the length. */
  lemma SuffixKeepsTheRules(base: string, k: nat)
    requires ValidSlug(base)
    ensures ValidSlug(Candidate(base, k)) <==> |Candidate(base, k)| <= MAX_LENGTH
  {
    var c := Candidate(base, k);
    if k > 0 {
      var d := Decimal(k + 1);
      forall i | 0 <= i < |d| ensures IsDigit(d[i]) { DecimalDigits(k + 1, i); }
      assert forall i :: 0 <= i < |base| ==> c[i] == base[i];
      assert c[|base|] == '-' && forall i :: |base| < i < |c| ==> c[i] == d[i - |base| - 1];
    }
  }
}
