/** The dynamic `UPDATE` of a channel: a list of assignments built from the fields a patch sets, three lists
    of values bound in turn, and placeholders that are numbered for PostgreSQL. */
module ChannelUpdate {
  import opened Wrappers
  import opened Text

  datatype Column = Name | Type | Topic | ParentId | Position | RateLimit | Bitrate | UserLimit | Nsfw | Archived | AnonymousRead

  datatype Refusal = BadRequest | NotFound

  datatype Value = Str(s: Option<string>) | Int(n: int) | Bool(b: bool)

  datatype Row = Row(name: Option<string>, kind: string, topic: Option<string>, parent: Option<string>,
                     position: int, rateLimit: Option<int>, bitrate: Option<int>, userLimit: Option<int>,
                     nsfw: bool, archived: bool, anonymousRead: bool, space: Option<string>, updatedAt: string)

  datatype Patch = Patch(name: Option<string>, kind: Option<string>, topic: Option<string>, parent: Option<Option<string>>,
                         position: Option<int>, rateLimit: Option<int>, bitrate: Option<int>, userLimit: Option<int>,
                         nsfw: Option<bool>, archived: Option<bool>, anonymousRead: Option<bool>)

  // ---------------------------------------------------------------------------
  // What a patch means
  // ---------------------------------------------------------------------------

  function OrElse<T>(o: Option<T>, d: T): T { if o.Some? then o.value else d }
  function OrKeep<T>(o: Option<T>, d: Option<T>): Option<T> { if o.Some? then o else d }

  function Patched(row: Row, p: Patch): Row {
    row.(name := OrKeep(p.name, row.name), kind := OrElse(p.kind, row.kind), topic := OrKeep(p.topic, row.topic),
         parent := OrElse(p.parent, row.parent), position := OrElse(p.position, row.position),
         rateLimit := OrKeep(p.rateLimit, row.rateLimit), bitrate := OrKeep(p.bitrate, row.bitrate),
         userLimit := OrKeep(p.userLimit, row.userLimit), nsfw := OrElse(p.nsfw, row.nsfw),
         archived := OrElse(p.archived, row.archived), anonymousRead := OrElse(p.anonymousRead, row.anonymousRead))
  }

  const EMPTY := Patch(None, None, None, None, None, None, None, None, None, None, None)

  // ---------------------------------------------------------------------------
  // Statements
  // ---------------------------------------------------------------------------

  /** One assignment of the SET list: to the next bound value, or to the current time. */
  datatype Clause = Set(column: Column) | Stamp

  /** Assigns a value of the column's own type; `None` is a database error. */
  function Assign(row: Row, c: Column, v: Value): Option<Row> {
    match (c, v)
    case (Name, Str(s)) => Some(row.(name := s))
    case (Type, Str(Some(s))) => Some(row.(kind := s))
    case (Topic, Str(s)) => Some(row.(topic := s))
    case (ParentId, Str(s)) => Some(row.(parent := s))
    case (Position, Int(n)) => Some(row.(position := n))
    case (RateLimit, Int(n)) => Some(row.(rateLimit := Some(n)))
    case (Bitrate, Int(n)) => Some(row.(bitrate := Some(n)))
    case (UserLimit, Int(n)) => Some(row.(userLimit := Some(n)))
    case (Nsfw, Bool(b)) => Some(row.(nsfw := b))
    case (Archived, Bool(b)) => Some(row.(archived := b))
    case (AnonymousRead, Bool(b)) => Some(row.(anonymousRead := b))
    case _ => None
  }

  /** Question marks take the bound values in turn. */
  function Run(cs: seq<Clause>, binds: seq<Value>, row: Row, now: string): Option<Row> {
    if cs == [] then Some(row)
    else if cs[0].Stamp? then Run(cs[1..], binds, row.(updatedAt := now), now)
    else if binds == [] then None
    else
      var r := Assign(row, cs[0].column, binds[0]);
      if r.None? then None else Run(cs[1..], binds[1..], r.value, now)
  }

  /** Numbered placeholders name the bound value, counting from one. */
  datatype Numbered = SetTo(column: Column, n: nat) | StampTo

  function Number(cs: seq<Clause>, done: nat): seq<Numbered> {
    if cs == [] then []
    else if cs[0].Stamp? then [StampTo] + Number(cs[1..], done)
    else [SetTo(cs[0].column, done + 1)] + Number(cs[1..], done + 1)
  }

  function RunNumbered(cs: seq<Numbered>, binds: seq<Value>, row: Row, now: string): Option<Row> {
    if cs == [] then Some(row)
    else if cs[0].StampTo? then RunNumbered(cs[1..], binds, row.(updatedAt := now), now)
    else if !(1 <= cs[0].n <= |binds|) then None
    else
      var r := Assign(row, cs[0].column, binds[cs[0].n - 1]);
      if r.None? then None else RunNumbered(cs[1..], binds, r.value, now)
  }

  lemma {:induction false} NumberingIsIdle(cs: seq<Clause>, binds: seq<Value>, done: nat, row: Row, now: string)
    requires done <= |binds|
    ensures RunNumbered(Number(cs, done), binds, row, now) == Run(cs, binds[done..], row, now)
  {
    if cs != [] {
      var ns := Number(cs, done);
      if cs[0].Stamp? {
        assert ns[1..] == Number(cs[1..], done);
        NumberingIsIdle(cs[1..], binds, done, row.(updatedAt := now), now);
      } else if done < |binds| {
        assert ns[1..] == Number(cs[1..], done + 1) && binds[done..][1..] == binds[done + 1..];
        var r := Assign(row, cs[0].column, binds[done]);
        if r.Some? {
          NumberingIsIdle(cs[1..], binds, done + 1, r.value, now);
        }
      }
    }
  }

  // ---------------------------------------------------------------------------
  // Building the lists
  // ---------------------------------------------------------------------------

  type Wish = (Column, Option<Value>)

  /** The columns in the order in which the statement lists them, each with what the patch sets it to. */
  function Wishes(p: Patch): seq<Wish> {
    Strings(p) + Ints(p) + Bools(p)
  }

  function Strings(p: Patch): seq<Wish> {
    [(Name, OfText(p.name)), (Type, OfText(p.kind)), (Topic, OfText(p.topic)), (ParentId, OfParent(p.parent))]
  }

  function Ints(p: Patch): seq<Wish> {
    [(Position, OfInt(p.position)), (RateLimit, OfInt(p.rateLimit)), (Bitrate, OfInt(p.bitrate)), (UserLimit, OfInt(p.userLimit))]
  }

  function Bools(p: Patch): seq<Wish> {
    [(Nsfw, OfBool(p.nsfw)), (Archived, OfBool(p.archived)), (AnonymousRead, OfBool(p.anonymousRead))]
  }

  function OfText(o: Option<string>): Option<Value> { if o.Some? then Some(Str(o)) else None }
  function OfParent(o: Option<Option<string>>): Option<Value> { if o.Some? then Some(Str(o.value)) else None }
  function OfInt(o: Option<int>): Option<Value> { if o.Some? then Some(Int(o.value)) else None }
  function OfBool(o: Option<bool>): Option<Value> { if o.Some? then Some(Bool(o.value)) else None }

  type Pair = (Column, Value)

  function Push(ps: seq<Pair>, w: Wish): seq<Pair> {
    if w.1.Some? then ps + [(w.0, w.1.value)] else ps
  }

  /** What the patch does set, in the same order. */
  function Pairs(ws: seq<Wish>): seq<Pair> {
    if ws == [] then [] else Push(Pairs(ws[..|ws| - 1]), ws[|ws| - 1])
  }

  function SetsOf(ps: seq<Pair>): (cs: seq<Clause>)
    ensures |cs| == |ps| && forall i :: 0 <= i < |ps| ==> cs[i] == Set(ps[i].0)
  {
    seq(|ps|, i requires 0 <= i < |ps| => Set(ps[i].0))
  }

  function BindsOf(ps: seq<Pair>): (vs: seq<Value>)
    ensures |vs| == |ps| && forall i :: 0 <= i < |ps| ==> vs[i] == ps[i].1
  {
    seq(|ps|, i requires 0 <= i < |ps| => ps[i].1)
  }

  function Clauses(p: Patch): seq<Clause> { SetsOf(Pairs(Wishes(p))) + [Stamp] }

  function Binds(p: Patch): seq<Value> { BindsOf(Pairs(Wishes(p))) }

  // ---------------------------------------------------------------------------
  // Assigning column after column
  // ---------------------------------------------------------------------------

  function AssignWish(row: Row, w: Wish): Option<Row> {
    if w.1.Some? then Assign(row, w.0, w.1.value) else Some(row)
  }

  function AssignAll(row: Row, ws: seq<Wish>): Option<Row>
    decreases |ws|
  {
    if ws == [] then Some(row)
    else
      var r := AssignWish(row, ws[0]);
      if r.None? then None else AssignAll(r.value, ws[1..])
  }

  function AssignPairs(row: Row, ps: seq<Pair>): Option<Row>
    decreases |ps|
  {
    if ps == [] then Some(row)
    else
      var r := Assign(row, ps[0].0, ps[0].1);
      if r.None? then None else AssignPairs(r.value, ps[1..])
  }

  lemma {:induction false} PushLast(row: Row, ps: seq<Pair>, p: Pair)
    requires AssignPairs(row, ps).Some?
    ensures AssignPairs(row, ps + [p]) == Assign(AssignPairs(row, ps).value, p.0, p.1)
    decreases |ps|
  {
    if ps == [] {
      assert [] + [p] == [p] && [p][1..] == [];
    } else {
      assert (ps + [p])[1..] == ps[1..] + [p];
      PushLast(Assign(row, ps[0].0, ps[0].1).value, ps[1..], p);
    }
  }

  lemma {:induction false} PairsAssignTheSame(row: Row, ws: seq<Wish>)
    requires AssignAll(row, ws).Some?
    ensures AssignPairs(row, Pairs(ws)) == AssignAll(row, ws)
    decreases |ws|
  {
    if ws != [] {
      var init, last := ws[..|ws| - 1], ws[|ws| - 1];
      assert ws == init + [last];
      AssignInit(row, init, last);
      PairsAssignTheSame(row, init);
      if last.1.Some? {
        PushLast(row, Pairs(init), (last.0, last.1.value));
      }
    }
  }

  lemma {:induction false} AssignInit(row: Row, ws: seq<Wish>, w: Wish)
    requires AssignAll(row, ws + [w]).Some?
    ensures AssignAll(row, ws).Some? && AssignAll(row, ws + [w]) == AssignWish(AssignAll(row, ws).value, w)
    decreases |ws|
  {
    if ws == [] {
      assert [] + [w] == [w] && [w][1..] == [];
    } else {
      assert (ws + [w])[1..] == ws[1..] + [w];
      AssignInit(AssignWish(row, ws[0]).value, ws[1..], w);
    }
  }

  /** The lists stay in step: the k-th placeholder meets the value of its own column. */
  lemma {:induction false} ListsMatch(ps: seq<Pair>, more: seq<Value>, row: Row, now: string)
    requires AssignPairs(row, ps).Some?
    ensures Run(SetsOf(ps) + [Stamp], BindsOf(ps) + more, row, now) == Some(AssignPairs(row, ps).value.(updatedAt := now))
    decreases |ps|
  {
    var cs, vs := SetsOf(ps) + [Stamp], BindsOf(ps) + more;
    if ps == [] {
      assert cs == [Stamp] && cs[1..] == [];
    } else {
      assert cs[1..] == SetsOf(ps[1..]) + [Stamp] && vs[1..] == BindsOf(ps[1..]) + more;
      ListsMatch(ps[1..], more, Assign(row, ps[0].0, ps[0].1).value, now);
    }
  }

  lemma {:induction false} AssignParts(row: Row, a: seq<Wish>, b: seq<Wish>)
    requires AssignAll(row, a).Some?
    ensures AssignAll(row, a + b) == AssignAll(AssignAll(row, a).value, b)
    decreases |a|
  {
    if a == [] {
      assert a + b == b;
    } else {
      assert (a + b)[1..] == a[1..] + b;
      AssignParts(AssignWish(row, a[0]).value, a[1..], b);
    }
  }

  lemma AssignFirst(row: Row, w: Wish, ws: seq<Wish>)
    requires AssignWish(row, w).Some?
    ensures AssignAll(row, [w] + ws) == AssignAll(AssignWish(row, w).value, ws)
  {
  }

  lemma AssignFour(row: Row, a: Wish, b: Wish, c: Wish, d: Wish)
    requires AssignWish(row, a).Some? && AssignWish(AssignWish(row, a).value, b).Some?
    ensures AssignAll(row, [a, b, c, d]) == AssignAll(AssignWish(AssignWish(row, a).value, b).value, [c, d])
    ensures AssignAll(row, [a, b, c]) == AssignAll(AssignWish(AssignWish(row, a).value, b).value, [c])
  {
  }

  lemma AssignTwo(row: Row, a: Wish, b: Wish)
    requires AssignWish(row, a).Some? && AssignWish(AssignWish(row, a).value, b).Some?
    ensures AssignAll(row, [a, b]) == AssignWish(AssignWish(row, a).value, b)
    ensures AssignAll(row, [a]) == AssignWish(row, a)
  {
    AssignFirst(row, a, [b]);
    AssignFirst(row, a, []);
    AssignFirst(AssignWish(row, a).value, b, []);
    assert [a] + [b] == [a, b] && [a] + [] == [a] && [b] + [] == [b];
  }

  lemma StringsAssign(row: Row, p: Patch)
    ensures AssignAll(row, Strings(p)) == Some(row.(name := OrKeep(p.name, row.name), kind := OrElse(p.kind, row.kind),
              topic := OrKeep(p.topic, row.topic), parent := OrElse(p.parent, row.parent)))
  {
    var ws := Strings(p);
    AssignFour(row, ws[0], ws[1], ws[2], ws[3]);
    AssignTwo(row.(name := OrKeep(p.name, row.name), kind := OrElse(p.kind, row.kind)), ws[2], ws[3]);
  }

  lemma IntsAssign(row: Row, p: Patch)
    ensures AssignAll(row, Ints(p)) == Some(row.(position := OrElse(p.position, row.position),
              rateLimit := OrKeep(p.rateLimit, row.rateLimit), bitrate := OrKeep(p.bitrate, row.bitrate),
              userLimit := OrKeep(p.userLimit, row.userLimit)))
  {
    var ws := Ints(p);
    AssignFour(row, ws[0], ws[1], ws[2], ws[3]);
    AssignTwo(row.(position := OrElse(p.position, row.position), rateLimit := OrKeep(p.rateLimit, row.rateLimit)), ws[2], ws[3]);
  }

  lemma BoolsAssign(row: Row, p: Patch)
    ensures AssignAll(row, Bools(p)) == Some(row.(nsfw := OrElse(p.nsfw, row.nsfw),
              archived := OrElse(p.archived, row.archived), anonymousRead := OrElse(p.anonymousRead, row.anonymousRead)))
  {
    var ws := Bools(p);
    AssignFour(row, ws[0], ws[1], ws[2], ws[2]);
    AssignTwo(row.(nsfw := OrElse(p.nsfw, row.nsfw), archived := OrElse(p.archived, row.archived)), ws[2], ws[2]);
  }

  lemma WishesAssign(row: Row, p: Patch)
    ensures AssignAll(row, Wishes(p)) == Some(Patched(row, p))
  {
    StringsAssign(row, p);
    var row1 := AssignAll(row, Strings(p)).value;
    IntsAssign(row1, p);
    var row2 := AssignAll(row1, Ints(p)).value;
    BoolsAssign(row2, p);
    AssignParts(row1, Ints(p), Bools(p));
    AssignParts(row, Strings(p), Ints(p) + Bools(p));
    assert Wishes(p) == Strings(p) + (Ints(p) + Bools(p));
  }

  /** Running the built statement with its bound values applies the patch field by field, whether the
      placeholders are positional or numbered, and whatever is bound after them. */
  lemma StatementAppliesPatch(row: Row, p: Patch, id: Value, now: string)
    ensures Run(Clauses(p), Binds(p) + [id], row, now) == Some(Patched(row, p).(updatedAt := now))
    ensures RunNumbered(Number(Clauses(p), 0), Binds(p) + [id], row, now) == Some(Patched(row, p).(updatedAt := now))
  {
    WishesAssign(row, p);
    PairsAssignTheSame(row, Wishes(p));
    ListsMatch(Pairs(Wishes(p)), [id], row, now);
    var binds := Binds(p) + [id];
    NumberingIsIdle(Clauses(p), binds, 0, row, now);
    assert binds[0..] == binds;
  }

  // ---------------------------------------------------------------------------
  // The text of the statement
  // ---------------------------------------------------------------------------

  function ColumnName(c: Column): string {
    match c
    case Name => "name"
    case Type => "type"
    case Topic => "topic"
    case ParentId => "parent_id"
    case Position => "position"
    case RateLimit => "rate_limit"
    case Bitrate => "bitrate"
    case UserLimit => "user_limit"
    case Nsfw => "nsfw"
    case Archived => "archived"
    case AnonymousRead => "allow_anonymous_read"
  }

  function ClauseText(c: Clause, clock: string): string {
    if c.Stamp? then "updated_at = " + clock else ColumnName(c.column) + " = ?"
  }

  function NumberedText(c: Numbered, clock: string): string {
    if c.StampTo? then "updated_at = " + clock else ColumnName(c.column) + " = $" + Decimal(c.n)
  }

  /** `, ` before each clause but the first. */
  function ListText(cs: seq<Clause>, clock: string, first: bool): string {
    if cs == [] then "" else (if first then "" else ", ") + ClauseText(cs[0], clock) + ListText(cs[1..], clock, false)
  }

  function NumberedListText(cs: seq<Numbered>, clock: string, first: bool): string {
    if cs == [] then "" else (if first then "" else ", ") + NumberedText(cs[0], clock) + NumberedListText(cs[1..], clock, false)
  }

  function Statement(cs: seq<Clause>, clock: string): string {
    ("UPDATE channels SET " + ListText(cs, clock, true)) + (" WHERE id = " + "?")
  }

  /** The last placeholder, of the row's ID, comes after those of the list. */
  function NumberedStatement(cs: seq<Clause>, clock: string): string {
    ("UPDATE channels SET " + NumberedListText(Number(cs, 0), clock, true))
    + (" WHERE id = " + ("$" + Decimal(Placeholders(cs) + 1)))
  }

  function Placeholders(cs: seq<Clause>): nat {
    if cs == [] then 0 else (if cs[0].Stamp? then 0 else 1) + Placeholders(cs[1..])
  }

  // ---------------------------------------------------------------------------
  // Numbering the placeholders of a text
  // ---------------------------------------------------------------------------

  function Marks(s: string): nat {
    if s == "" then 0 else (if s[0] == '?' then 1 else 0) + Marks(s[1..])
  }

  /** Question marks become dollar signs with consecutive numbers. */
  function Rewrite(s: string, done: nat): string {
    if s == "" then ""
    else if s[0] == '?' then "$" + Decimal(done + 1) + Rewrite(s[1..], done + 1)
    else [s[0]] + Rewrite(s[1..], done)
  }

  lemma {:induction false} MarksAdd(a: string, b: string)
    ensures Marks(a + b) == Marks(a) + Marks(b)
  {
    if a == "" {
      assert a + b == b;
    } else {
      assert (a + b)[1..] == a[1..] + b;
      MarksAdd(a[1..], b);
    }
  }

  lemma {:induction false} RewriteParts(a: string, b: string, done: nat)
    ensures Rewrite(a + b, done) == Rewrite(a, done) + Rewrite(b, done + Marks(a))
  {
    if a == "" {
      assert a + b == b;
    } else {
      assert (a + b)[1..] == a[1..] + b;
      if a[0] == '?' {
        RewriteParts(a[1..], b, done + 1);
        Assoc("$" + Decimal(done + 1), Rewrite(a[1..], done + 1), Rewrite(b, done + Marks(a)));
      } else {
        RewriteParts(a[1..], b, done);
        Assoc([a[0]], Rewrite(a[1..], done), Rewrite(b, done + Marks(a)));
      }
    }
  }

  lemma Assoc(a: string, b: string, c: string)
    ensures a + (b + c) == (a + b) + c
  {
  }

  lemma {:induction false} RewriteIdle(s: string, done: nat)
    requires '?' !in s
    ensures Rewrite(s, done) == s && Marks(s) == 0
  {
    if s != "" {
      RewriteIdle(s[1..], done);
      assert s == [s[0]] + s[1..];
    }
  }

  lemma RewriteMark(done: nat)
    ensures Rewrite("?", done) == "$" + Decimal(done + 1) && Marks("?") == 1
  {
  }

  lemma NameHasNoMark(c: Column)
    ensures '?' !in ColumnName(c) + " = "
  {
  }

  lemma RewriteAssignment(name: string, done: nat)
    requires '?' !in name
    ensures Rewrite(name + "?", done) == name + ("$" + Decimal(done + 1)) && Marks(name + "?") == 1
  {
    RewriteIdle(name, done);
    RewriteMark(done);
    RewriteParts(name, "?", done);
    MarksAdd(name, "?");
  }

  function Next(c: Clause, done: nat): nat { if c.Stamp? then done else done + 1 }

  function NumberOne(c: Clause, done: nat): Numbered { if c.Stamp? then StampTo else SetTo(c.column, done + 1) }

  lemma RewriteClause(c: Clause, clock: string, done: nat)
    requires '?' !in clock
    ensures Rewrite(ClauseText(c, clock), done) == NumberedText(NumberOne(c, done), clock)
    ensures Marks(ClauseText(c, clock)) == Next(c, 0)
  {
    if c.Stamp? {
      RewriteIdle(ClauseText(c, clock), done);
    } else {
      NameHasNoMark(c.column);
      RewriteAssignment(ColumnName(c.column) + " = ", done);
      assert ClauseText(c, clock) == (ColumnName(c.column) + " = ") + "?";
      assert NumberedText(NumberOne(c, done), clock) == (ColumnName(c.column) + " = ") + ("$" + Decimal(done + 1));
    }
  }

  lemma {:induction false} RewriteList(cs: seq<Clause>, clock: string, first: bool, done: nat)
    requires '?' !in clock
    ensures Rewrite(ListText(cs, clock, first), done) == NumberedListText(Number(cs, done), clock, first)
    ensures Marks(ListText(cs, clock, first)) == Placeholders(cs)
  {
    if cs != [] {
      var comma := if first then "" else ", ";
      var text, rest := ClauseText(cs[0], clock), ListText(cs[1..], clock, false);
      RewriteList(cs[1..], clock, false, Next(cs[0], done));
      RewriteClause(cs[0], clock, done);
      RewriteItem(comma, text, rest, done);
      NumberedListNext(cs, clock, first, done);
    }
  }

  lemma NumberedListNext(cs: seq<Clause>, clock: string, first: bool, done: nat)
    requires cs != []
    ensures NumberedListText(Number(cs, done), clock, first)
         == (if first then "" else ", ") + NumberedText(NumberOne(cs[0], done), clock)
            + NumberedListText(Number(cs[1..], Next(cs[0], done)), clock, false)
  {
    NumberFirst(cs, done);
    assert Number(cs, done)[1..] == Number(cs[1..], Next(cs[0], done));
  }

  lemma RewriteItem(comma: string, text: string, rest: string, done: nat)
    requires '?' !in comma
    ensures Rewrite(comma + text + rest, done) == comma + Rewrite(text, done) + Rewrite(rest, done + Marks(text))
    ensures Marks(comma + text + rest) == Marks(text) + Marks(rest)
  {
    RewriteIdle(comma, done);
    RewriteParts(comma, text, done);
    RewriteParts(comma + text, rest, done);
    MarksAdd(comma, text);
    MarksAdd(comma + text, rest);
  }

  lemma NumberFirst(cs: seq<Clause>, done: nat)
    requires cs != []
    ensures Number(cs, done) == [NumberOne(cs[0], done)] + Number(cs[1..], Next(cs[0], done))
  {
  }

  /** Rewriting the built text numbers its placeholders in the order in which the values are bound. */
  lemma RewrittenStatement(cs: seq<Clause>, clock: string)
    requires '?' !in clock
    ensures Rewrite(Statement(cs, clock), 0) == NumberedStatement(cs, clock)
    ensures Marks(Statement(cs, clock)) == Placeholders(cs) + 1
  {
    RewriteList(cs, clock, true, 0);
    RewriteAround("UPDATE channels SET ", ListText(cs, clock, true), " WHERE id = ");
  }

  lemma RewriteAround(head: string, list: string, tail: string)
    requires '?' !in head && '?' !in tail
    ensures Rewrite((head + list) + (tail + "?"), 0) == (head + Rewrite(list, 0)) + (tail + ("$" + Decimal(Marks(list) + 1)))
    ensures Marks((head + list) + (tail + "?")) == Marks(list) + 1
  {
    RewriteIdle(head, 0);
    RewriteParts(head, list, 0);
    MarksAdd(head, list);
    RewriteAssignment(tail, Marks(list));
    RewriteParts(head + list, tail + "?", 0);
    MarksAdd(head + list, tail + "?");
  }

  // ---------------------------------------------------------------------------
  // What the rewritten text says
  // ---------------------------------------------------------------------------

  function Key(n: Numbered): string { if n.StampTo? then "updated_at" else ColumnName(n.column) }

  function Assigned(n: Numbered, clock: string): string { if n.StampTo? then clock else "$" + Decimal(n.n) }

  function Tail(id: nat): string { " WHERE id = " + ("$" + Decimal(id)) }

  /** A list of assignments and the placeholder of the row's ID, as text. */
  function WholeText(ns: seq<Numbered>, id: nat, clock: string): string {
    "UPDATE channels SET " + NumberedListText(ns, clock, true) + Tail(id)
  }

  /** The same from a list that is not empty to the end, and what follows an assignment. */
  function FromList(ns: seq<Numbered>, id: nat, clock: string): string
    requires ns != []
    decreases |ns|, 0
  {
    Key(ns[0]) + (" " + ("= " + (Assigned(ns[0], clock) + FromNext(ns[1..], id, clock))))
  }

  function FromNext(ns: seq<Numbered>, id: nat, clock: string): string
    decreases |ns|, 1
  {
    if ns == [] then Tail(id) else ", " + FromList(ns, id, clock)
  }

  lemma KeyParts(n: Numbered, clock: string)
    ensures NumberedText(n, clock) == Key(n) + (" = " + Assigned(n, clock))
  {
    if n.SetTo? {
      assert " = $" == " = " + "$";
      assert (ColumnName(n.column) + " = $") + Decimal(n.n) == ColumnName(n.column) + (" = " + ("$" + Decimal(n.n)));
    } else {
      assert "updated_at = " == "updated_at" + " = ";
    }
  }

  lemma Regroup(comma: string, key: string, value: string, rest: string)
    ensures comma + (key + (" = " + value)) + rest == comma + (key + (" " + ("= " + (value + rest))))
  {
    assert " = " == " " + "= ";
  }

  lemma ClauseParts(n: Numbered, clock: string, comma: string, rest: string)
    ensures comma + NumberedText(n, clock) + rest == comma + (Key(n) + (" " + ("= " + (Assigned(n, clock) + rest))))
  {
    KeyParts(n, clock);
    Regroup(comma, Key(n), Assigned(n, clock), rest);
  }

  lemma {:induction false} ListParts(ns: seq<Numbered>, id: nat, clock: string)
    ensures NumberedListText(ns, clock, false) + Tail(id) == FromNext(ns, id, clock)
    ensures ns != [] ==> NumberedListText(ns, clock, true) + Tail(id) == FromList(ns, id, clock)
  {
    if ns == [] {
      assert "" + Tail(id) == Tail(id);
    } else {
      ListParts(ns[1..], id, clock);
      var rest := NumberedListText(ns[1..], clock, false);
      ItemParts(ns[0], clock, ", ", rest, id);
      ItemParts(ns[0], clock, "", rest, id);
    }
  }

  lemma ItemParts(n: Numbered, clock: string, comma: string, rest: string, id: nat)
    ensures (comma + NumberedText(n, clock) + rest) + Tail(id)
         == comma + (Key(n) + (" " + ("= " + (Assigned(n, clock) + (rest + Tail(id))))))
  {
    ClauseParts(n, clock, comma, rest + Tail(id));
  }

  /** How many characters at the start of a text are of one kind. */
  function Leading(s: string, kind: char -> bool): nat {
    if s == "" || !kind(s[0]) then 0 else 1 + Leading(s[1..], kind)
  }

  lemma {:induction false} LeadingPart(a: string, x: string, kind: char -> bool)
    requires (forall i :: 0 <= i < |a| ==> kind(a[i])) && x != "" && !kind(x[0])
    ensures Leading(a + x, kind) == |a|
  {
    if a == "" {
      assert a + x == x;
    } else {
      assert (a + x)[1..] == a[1..] + x;
      LeadingPart(a[1..], x, kind);
    }
  }

  lemma SplitAfter(a: string, x: string, b: string, y: string, kind: char -> bool)
    requires (forall i :: 0 <= i < |a| ==> kind(a[i])) && (forall i :: 0 <= i < |b| ==> kind(b[i]))
    requires x != "" && y != "" && !kind(x[0]) && !kind(y[0]) && a + x == b + y
    ensures a == b && x == y
  {
    LeadingPart(a, x, kind);
    LeadingPart(b, y, kind);
    assert a == (a + x)[..|a|] && b == (b + y)[..|b|] && x == (a + x)[|a|..] && y == (b + y)[|b|..];
  }

  lemma SamePrefix(a: string, x: string, y: string)
    requires a + x == a + y
    ensures x == y
  {
    assert x == (a + x)[|a|..] && y == (a + y)[|a|..];
  }

  predicate StartsClean(s: string) { s != "" && !IsDigit(s[0]) }

  lemma SplitNumber(m: nat, x: string, n: nat, y: string)
    requires StartsClean(x) && StartsClean(y) && Decimal(m) + x == Decimal(n) + y
    ensures m == n && x == y
  {
    forall i | 0 <= i < |Decimal(m)| ensures IsDigit(Decimal(m)[i]) { DecimalDigits(m, i); }
    forall i | 0 <= i < |Decimal(n)| ensures IsDigit(Decimal(n)[i]) { DecimalDigits(n, i); }
    SplitAfter(Decimal(m), x, Decimal(n), y, IsDigit);
    DecimalIsInjective(m, n);
  }

  function ColumnOf(name: string): Option<Column> {
    if name == "name" then Some(Name) else if name == "type" then Some(Type) else if name == "topic" then Some(Topic)
    else if name == "parent_id" then Some(ParentId) else if name == "position" then Some(Position)
    else if name == "rate_limit" then Some(RateLimit) else if name == "bitrate" then Some(Bitrate)
    else if name == "user_limit" then Some(UserLimit) else if name == "nsfw" then Some(Nsfw)
    else if name == "archived" then Some(Archived) else if name == "allow_anonymous_read" then Some(AnonymousRead)
    else None
  }

  lemma NamesDiffer(c: Column)
    ensures ColumnOf(ColumnName(c)) == Some(c)
  {
  }

  lemma StampIsNoColumn()
    ensures ColumnOf("updated_at") == None
  {
  }

  lemma KeyIsAWord(n: Numbered)
    ensures Key(n) != "" && ' ' !in Key(n)
  {
  }

  lemma NextStartsClean(ns: seq<Numbered>, id: nat, clock: string)
    ensures StartsClean(FromNext(ns, id, clock)) && (FromNext(ns, id, clock)[0] == ' ' <==> ns == [])
  {
  }

  /** The first assignment can be read in one way only. */
  lemma FirstReadsOneWay(m: Numbered, x: string, n: Numbered, y: string, clock: string)
    requires StartsClean(x) && StartsClean(y)
    requires Key(m) + (" " + ("= " + (Assigned(m, clock) + x))) == Key(n) + (" " + ("= " + (Assigned(n, clock) + y)))
    ensures m == n && x == y
  {
    var p, q := Assigned(m, clock) + x, Assigned(n, clock) + y;
    KeyIsAWord(m);
    KeyIsAWord(n);
    SplitAfter(Key(m), " " + ("= " + p), Key(n), " " + ("= " + q), c => c != ' ');
    SamePrefix(" ", "= " + p, "= " + q);
    SamePrefix("= ", p, q);
    SameKeys(m, n);
    if m.StampTo? {
      SamePrefix(clock, x, y);
    } else {
      assert p == "$" + (Decimal(m.n) + x) && q == "$" + (Decimal(n.n) + y);
      SamePrefix("$", Decimal(m.n) + x, Decimal(n.n) + y);
      SplitNumber(m.n, x, n.n, y);
    }
  }

  lemma SameKeys(m: Numbered, n: Numbered)
    requires Key(m) == Key(n)
    ensures (m.StampTo? <==> n.StampTo?) && (m.SetTo? ==> m.column == n.column)
  {
    StampIsNoColumn();
    if m.SetTo? {
      NamesDiffer(m.column);
    }
    if n.SetTo? {
      NamesDiffer(n.column);
    }
  }

  lemma TailReadsOneWay(i: nat, j: nat)
    requires Tail(i) == Tail(j)
    ensures i == j
  {
    SamePrefix(" WHERE id = ", "$" + Decimal(i), "$" + Decimal(j));
    SamePrefix("$", Decimal(i), Decimal(j));
    DecimalIsInjective(i, j);
  }

  lemma {:induction false} NextReadsOneWay(ms: seq<Numbered>, i: nat, ns: seq<Numbered>, j: nat, clock: string)
    requires FromNext(ms, i, clock) == FromNext(ns, j, clock)
    ensures ms == ns && i == j
    decreases |ms|
  {
    NextStartsClean(ms, i, clock);
    NextStartsClean(ns, j, clock);
    if ms == [] {
      TailReadsOneWay(i, j);
    } else {
      SamePrefix(", ", FromList(ms, i, clock), FromList(ns, j, clock));
      NextStartsClean(ms[1..], i, clock);
      NextStartsClean(ns[1..], j, clock);
      FirstReadsOneWay(ms[0], FromNext(ms[1..], i, clock), ns[0], FromNext(ns[1..], j, clock), clock);
      NextReadsOneWay(ms[1..], i, ns[1..], j, clock);
      assert ms == [ms[0]] + ms[1..] && ns == [ns[0]] + ns[1..];
    }
  }

  /** A text says one thing only: two lists of assignments that make the same text are the same. */
  lemma TextReadsOneWay(ms: seq<Numbered>, i: nat, ns: seq<Numbered>, j: nat, clock: string)
    requires ms != [] && ns != [] && WholeText(ms, i, clock) == WholeText(ns, j, clock)
    ensures ms == ns && i == j
  {
    ListParts(ms, i, clock);
    ListParts(ns, j, clock);
    TextFromList(ms, i, clock);
    TextFromList(ns, j, clock);
    SamePrefix("UPDATE channels SET ", FromList(ms, i, clock), FromList(ns, j, clock));
    SamePrefix(", ", FromList(ms, i, clock), FromList(ns, j, clock));
    NextReadsOneWay(ms, i, ns, j, clock);
  }

  lemma TextFromList(ns: seq<Numbered>, id: nat, clock: string)
    requires ns != []
    ensures WholeText(ns, id, clock) == "UPDATE channels SET " + FromList(ns, id, clock)
  {
    ListParts(ns, id, clock);
    Assoc("UPDATE channels SET ", NumberedListText(ns, clock, true), Tail(id));
  }

  lemma {:induction false} AllNumbered(ps: seq<Pair>, done: nat)
    ensures Placeholders(SetsOf(ps) + [Stamp]) == |ps| && Number(SetsOf(ps) + [Stamp], done) != []
    decreases |ps|
  {
    var cs := SetsOf(ps) + [Stamp];
    if ps == [] {
      assert cs == [Stamp] && cs[1..] == [];
    } else {
      assert cs[1..] == SetsOf(ps[1..]) + [Stamp];
      AllNumbered(ps[1..], done + 1);
    }
  }

  /** One way to read a text: as these assignments, of the row with the ID bound as number `key`. */
  ghost predicate Reads(text: string, ns: seq<Numbered>, key: nat, clock: string) {
    ns != [] && WholeText(ns, key, clock) == text
  }

  lemma RewrittenTextReads(p: Patch, clock: string)
    requires '?' !in clock
    ensures Reads(Rewrite(Statement(Clauses(p), clock), 0), Number(Clauses(p), 0), |Binds(p)| + 1, clock)
  {
    RewrittenStatement(Clauses(p), clock);
    AllNumbered(Pairs(Wishes(p)), 0);
  }

  /** However the rewritten text is read: executing it with the bound values selects the row by the bound ID
      and applies the patch to it. */
  lemma RewrittenTextAppliesPatch(row: Row, p: Patch, id: Value, now: string, clock: string, ns: seq<Numbered>, key: nat)
    requires '?' !in clock && Reads(Rewrite(Statement(Clauses(p), clock), 0), ns, key, clock)
    ensures var binds := Binds(p) + [id];
            && 1 <= key <= |binds| && binds[key - 1] == id
            && RunNumbered(ns, binds, row, now) == Some(Patched(row, p).(updatedAt := now))
  {
    RewrittenTextReads(p, clock);
    TextReadsOneWay(ns, key, Number(Clauses(p), 0), |Binds(p)| + 1, clock);
    StatementAppliesPatch(row, p, id, now);
  }

  method Q(sql: string, isPostgres: bool) returns (result: string)
    ensures result == if isPostgres then Rewrite(sql, 0) else sql
  {
    if !isPostgres {
      return sql;
    }
    result := "";
    var idx: nat := 0;
    for i := 0 to |sql|
      invariant result == Rewrite(sql[..i], 0) && idx == Marks(sql[..i])
    {
      assert sql[..i + 1] == sql[..i] + [sql[i]];
      RewriteParts(sql[..i], [sql[i]], 0);
      MarksAdd(sql[..i], [sql[i]]);
      if sql[i] == '?' {
        RewriteMark(idx);
        idx := idx + 1;
        result := result + "$" + Decimal(idx);
        assert "?" == [sql[i]];
      } else {
        RewriteIdle([sql[i]], idx);
        result := result + [sql[i]];
      }
    }
    assert sql[..|sql|] == sql;
  }

  // ---------------------------------------------------------------------------
  // The operation
  // ---------------------------------------------------------------------------

  lemma PairsOfThree(a: Wish, b: Wish, c: Wish)
    ensures Pairs([a, b, c]) == Push(Push(Push([], a), b), c)
  {
    assert [a, b, c][..2] == [a, b] && [a, b][..1] == [a] && [a][..0] == [];
    assert Pairs([a]) == Push([], a);
    assert Pairs([a, b]) == Push(Pairs([a]), b);
  }

  lemma PairsOfFour(a: Wish, b: Wish, c: Wish, d: Wish)
    ensures Pairs([a, b, c, d]) == Push(Push(Push(Push([], a), b), c), d)
  {
    PairsOfThree(a, b, c);
    assert [a, b, c, d][..3] == [a, b, c];
  }

  lemma {:induction false} PairsJoin(a: seq<Wish>, b: seq<Wish>)
    ensures Pairs(a + b) == Pairs(a) + Pairs(b)
    decreases |b|
  {
    if b == [] {
      assert a + b == a;
    } else {
      assert (a + b)[..|a + b| - 1] == a + b[..|b| - 1];
      PairsJoin(a, b[..|b| - 1]);
    }
  }

  /** The text columns are pushed with their values at once. */
  method BuildStrings(p: Patch) returns (sets: seq<Clause>, values: seq<Value>)
    ensures sets == SetsOf(Pairs(Strings(p))) && values == BindsOf(Pairs(Strings(p)))
  {
    ghost var ws := Strings(p);
    ghost var ps := [];
    sets, values := [], [];
    if p.name.Some? {
      sets, values := sets + [Set(Name)], values + [Str(p.name)];
    }
    ps := Push(ps, ws[0]);
    assert sets == SetsOf(ps) && values == BindsOf(ps);
    if p.kind.Some? {
      sets, values := sets + [Set(Type)], values + [Str(p.kind)];
    }
    ps := Push(ps, ws[1]);
    assert sets == SetsOf(ps) && values == BindsOf(ps);
    if p.topic.Some? {
      sets, values := sets + [Set(Topic)], values + [Str(p.topic)];
    }
    ps := Push(ps, ws[2]);
    assert sets == SetsOf(ps) && values == BindsOf(ps);
    if p.parent.Some? {
      sets, values := sets + [Set(ParentId)], values + [Str(p.parent.value)];
    }
    ps := Push(ps, ws[3]);
    assert sets == SetsOf(ps) && values == BindsOf(ps);
    PairsOfFour(ws[0], ws[1], ws[2], ws[3]);
  }

  /** The other columns go to a list of their own first. */
  method BuildInts(p: Patch) returns (ints: seq<Pair>)
    ensures ints == Pairs(Ints(p))
  {
    ints := [];
    if p.position.Some? {
      ints := ints + [(Position, Int(p.position.value))];
    }
    if p.rateLimit.Some? {
      ints := ints + [(RateLimit, Int(p.rateLimit.value))];
    }
    if p.bitrate.Some? {
      ints := ints + [(Bitrate, Int(p.bitrate.value))];
    }
    if p.userLimit.Some? {
      ints := ints + [(UserLimit, Int(p.userLimit.value))];
    }
    ghost var ws := Ints(p);
    PairsOfFour(ws[0], ws[1], ws[2], ws[3]);
  }

  method BuildBools(p: Patch) returns (bools: seq<Pair>)
    ensures bools == Pairs(Bools(p))
  {
    bools := [];
    if p.nsfw.Some? {
      bools := bools + [(Nsfw, Bool(p.nsfw.value))];
    }
    if p.archived.Some? {
      bools := bools + [(Archived, Bool(p.archived.value))];
    }
    if p.anonymousRead.Some? {
      bools := bools + [(AnonymousRead, Bool(p.anonymousRead.value))];
    }
    ghost var ws := Bools(p);
    PairsOfThree(ws[0], ws[1], ws[2]);
  }

  method PushColumns(sets: seq<Clause>, ps: seq<Pair>) returns (longer: seq<Clause>)
    ensures longer == sets + SetsOf(ps)
  {
    longer := sets;
    for i := 0 to |ps|
      invariant longer == sets + SetsOf(ps)[..i]
    {
      longer := longer + [Set(ps[i].0)];
    }
  }

  method BindValues(binds: seq<Value>, ps: seq<Pair>) returns (longer: seq<Value>)
    ensures longer == binds + BindsOf(ps)
  {
    longer := binds;
    for i := 0 to |ps|
      invariant longer == binds + BindsOf(ps)[..i]
    {
      longer := longer + [ps[i].1];
    }
  }

  /** The set list grows by the columns of the two lists in turn, and the values are bound in the same order. */
  method Build(p: Patch) returns (sets: seq<Clause>, binds: seq<Value>)
    ensures sets == SetsOf(Pairs(Wishes(p))) && binds == Binds(p)
  {
    sets, binds := BuildStrings(p);
    var ints := BuildInts(p);
    var bools := BuildBools(p);
    sets := PushColumns(sets, ints);
    sets := PushColumns(sets, bools);
    binds := BindValues(binds, ints);
    binds := BindValues(binds, bools);
    PairsJoin(Strings(p), Ints(p));
    PairsJoin(Strings(p) + Ints(p), Bools(p));
  }

  // ---------------------------------------------------------------------------
  // The whole operation
  // ---------------------------------------------------------------------------

  predicate ParentAllowed(rows: map<string, Row>, id: string, p: Patch)
    requires id in rows
  {
    p.parent.Some? && p.parent.value.Some? ==>
      && p.parent.value.value in rows
      && OrElse(p.kind, rows[id].kind) != "category"
      && rows[p.parent.value.value].kind == "category"
      && rows[id].space.Some? && rows[p.parent.value.value].space == rows[id].space
  }

  predicate NoSuchParent(rows: map<string, Row>, p: Patch) {
    p.parent.Some? && p.parent.value.Some? && p.parent.value.value !in rows
  }

  predicate RateAllowed(p: Patch) { p.rateLimit.Some? ==> 0 <= p.rateLimit.value <= 21600 }

  class Channels {
    var rows: map<string, Row>

    constructor (rows: map<string, Row>)
      ensures this.rows == rows
    {
      this.rows := rows;
    }

    /** `UPDATE … WHERE id = ?`, with positional or numbered placeholders. A missing row is no error. */
    method Execute(sets: seq<Clause>, binds: seq<Value>, id: string, now: string, isPostgres: bool) returns (ok: bool)
      modifies this
      ensures id !in old(rows) ==> ok && rows == old(rows)
      ensures id in old(rows) ==>
                var r := if isPostgres then RunNumbered(Number(sets, 0), binds, old(rows)[id], now)
                         else Run(sets, binds, old(rows)[id], now);
                ok == r.Some? && rows == if ok then old(rows)[id := r.value] else old(rows)
    {
      if id !in rows {
        return true;
      }
      var r := if isPostgres then RunNumbered(Number(sets, 0), binds, rows[id], now) else Run(sets, binds, rows[id], now);
      if r.None? {
        return false;
      }
      rows := rows[id := r.value];
      return true;
    }

    method UpdateChannel(id: string, p: Patch, now: string, isPostgres: bool) returns (r: Result<Row, Refusal>)
      modifies this
      ensures r.Ok? <==> RateAllowed(p) && id in old(rows) && ParentAllowed(old(rows), id, p)
      ensures r == Err(NotFound) <==> RateAllowed(p) && (id !in old(rows) || NoSuchParent(old(rows), p))
      ensures !r.Ok? ==> rows == old(rows)
      ensures r.Ok? && p == EMPTY ==> rows == old(rows) && r.value == rows[id]
      ensures r.Ok? && p != EMPTY ==>
                r.value == Patched(old(rows)[id], p).(updatedAt := now) && rows == old(rows)[id := r.value]
    {
      if p.rateLimit.Some? && !(0 <= p.rateLimit.value <= 21600) {
        return Err(BadRequest);
      }
      if p.parent.Some? {
        if id !in rows {
          return Err(NotFound);
        }
        var allowed := CheckParent(rows[id].space, OrElse(p.kind, rows[id].kind), p.parent.value);
        if !allowed.Ok? {
          return Err(allowed.error);
        }
      }
      var sets, binds := Build(p);
      EmptyIffNoWish(p);
      if sets == [] {
        return if id in rows then Ok(rows[id]) else Err(NotFound);
      }
      sets := sets + [Stamp];
      if id in rows {
        StatementAppliesPatch(rows[id], p, Str(Some(id)), now);
      }
      var done := Execute(sets, binds + [Str(Some(id))], id, now, isPostgres);
      return if id in rows then Ok(rows[id]) else Err(NotFound);
    }

    method CheckParent(space: Option<string>, kind: string, parent: Option<string>) returns (r: Result<(), Refusal>)
      ensures r == Err(NotFound) <==> parent.Some? && parent.value !in rows
      ensures r.Ok? <==>
                (parent.Some? ==> parent.value in rows && kind != "category" && rows[parent.value].kind == "category"
                                  && space.Some? && rows[parent.value].space == space)
    {
      if parent.Some? {
        if parent.value !in rows {
          return Err(NotFound);
        }
        var row := rows[parent.value];
        if kind == "category" || row.kind != "category" || space.None? || row.space != space {
          return Err(BadRequest);
        }
      }
      return Ok(());
    }
  }

  lemma EmptyGroups(p: Patch)
    ensures Pairs(Strings(p)) == [] <==> p.name.None? && p.kind.None? && p.topic.None? && p.parent.None?
    ensures Pairs(Ints(p)) == [] <==> p.position.None? && p.rateLimit.None? && p.bitrate.None? && p.userLimit.None?
    ensures Pairs(Bools(p)) == [] <==> p.nsfw.None? && p.archived.None? && p.anonymousRead.None?
  {
    var s, n, b := Strings(p), Ints(p), Bools(p);
    PairsOfFour(s[0], s[1], s[2], s[3]);
    PairsOfFour(n[0], n[1], n[2], n[3]);
    PairsOfThree(b[0], b[1], b[2]);
  }

  /** Only the empty patch runs no statement. */
  lemma EmptyIffNoWish(p: Patch)
    ensures SetsOf(Pairs(Wishes(p))) == [] <==> p == EMPTY
  {
    EmptyGroups(p);
    PairsJoin(Strings(p), Ints(p));
    PairsJoin(Strings(p) + Ints(p), Bools(p));
    assert |SetsOf(Pairs(Wishes(p)))| == |Pairs(Wishes(p))|;
  }
}
