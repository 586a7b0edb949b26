/** The decoder of uploaded data URIs, against the encoding of section 4 of RFC 4648. Input is the bytes of
    the text. */
module Base64 {
  import opened Wrappers

  type Byte = bv8

  const FOREIGN: Byte := 255

  // ---------------------------------------------------------------------------
  // The alphabet
  // ---------------------------------------------------------------------------

  function Letter(v: Byte): Byte
    requires v < 64
  {
    if v < 26 then 65 + v else if v < 52 then 97 + (v - 26) else if v < 62 then 48 + (v - 52) else if v == 62 then 43 else 47
  }

  /** The sextet a letter stands for. */
  function Value(b: Byte): Byte {
    if 65 <= b <= 90 then b - 65
    else if 97 <= b <= 122 then b - 97 + 26
    else if 48 <= b <= 57 then b - 48 + 52
    else if b == 43 then 62
    else if b == 47 then 63
    else FOREIGN
  }

  lemma LettersAndValues(b: Byte)
    ensures b < 64 ==> Value(Letter(b)) == b
    ensures Value(b) != FOREIGN ==> Value(b) < 64 && Letter(Value(b)) == b
  {
  }

  /** Padding, line breaks and spaces count for nothing, wherever they are. */
  predicate Skipped(b: Byte) { b == 61 || b == 10 || b == 13 || b == 32 }

  function Clean(s: seq<Byte>): seq<Byte> {
    if s == [] then [] else (if Skipped(s[0]) then [] else [s[0]]) + Clean(s[1..])
  }

  // ---------------------------------------------------------------------------
  // Groups of three bytes and four sextets
  // ---------------------------------------------------------------------------

  function First(a: Byte): Byte { a >> 2 }
  function Second(a: Byte, b: Byte): Byte { ((a & 3) << 4) | (b >> 4) }
  function Third(b: Byte, c: Byte): Byte { ((b & 15) << 2) | (c >> 6) }
  function Fourth(c: Byte): Byte { c & 63 }

  /** Sextets of the data; a last group of one or two bytes is filled up with zero bits. */
  function Sextets(d: seq<Byte>): seq<Byte> {
    if |d| == 0 then []
    else if |d| == 1 then [First(d[0]), Second(d[0], 0)]
    else if |d| == 2 then [First(d[0]), Second(d[0], d[1]), Third(d[1], 0)]
    else [First(d[0]), Second(d[0], d[1]), Third(d[1], d[2]), Fourth(d[2])] + Sextets(d[3..])
  }

  function Front(p: Byte, q: Byte): Byte { (p << 2) | (q >> 4) }
  function Middle(q: Byte, r: Byte): Byte { (q << 4) | (r >> 2) }
  function Back(r: Byte, s: Byte): Byte { (r << 6) | s }

  /** Bytes of the sextets; a last group of one sextet is an error. */
  function Bytes(v: seq<Byte>): Result<seq<Byte>, string> {
    if |v| == 0 then Ok([])
    else if |v| == 1 then Err("invalid base64 data")
    else if |v| == 2 then Ok([Front(v[0], v[1])])
    else if |v| == 3 then Ok([Front(v[0], v[1]), Middle(v[1], v[2])])
    else
      var rest := Bytes(v[4..]);
      if rest.Err? then rest
      else Ok([Front(v[0], v[1]), Middle(v[1], v[2]), Back(v[2], v[3])] + rest.value)
  }

  lemma GroupRoundTrip(a: Byte, b: Byte, c: Byte)
    ensures First(a) < 64 && Second(a, b) < 64 && Third(b, c) < 64 && Fourth(c) < 64
    ensures Front(First(a), Second(a, b)) == a
    ensures Middle(Second(a, b), Third(b, c)) == b
    ensures Back(Third(b, c), Fourth(c)) == c
  {
  }

  lemma {:induction false} SextetsAreSmall(d: seq<Byte>, i: nat)
    requires i < |Sextets(d)|
    ensures Sextets(d)[i] < 64
  {
    if |d| == 1 {
      GroupRoundTrip(d[0], 0, 0);
    } else if |d| == 2 {
      GroupRoundTrip(d[0], d[1], 0);
    } else {
      GroupRoundTrip(d[0], d[1], d[2]);
      if i >= 4 {
        SextetsAreSmall(d[3..], i - 4);
      }
    }
  }

  lemma {:induction false} BytesOfSextets(d: seq<Byte>)
    ensures Bytes(Sextets(d)) == Ok(d)
  {
    if |d| == 1 {
      GroupRoundTrip(d[0], 0, 0);
      assert d == [d[0]];
    } else if |d| == 2 {
      GroupRoundTrip(d[0], d[1], 0);
      assert d == [d[0], d[1]];
    } else if |d| >= 3 {
      GroupRoundTrip(d[0], d[1], d[2]);
      BytesOfSextets(d[3..]);
      assert Sextets(d)[4..] == Sextets(d[3..]);
      assert d == [d[0], d[1], d[2]] + d[3..];
    }
  }

  /** Does the last group have a single sextet? */
  predicate LoneSextet(n: nat) { if n >= 4 then LoneSextet(n - 4) else n == 1 }

  lemma {:induction false} LoneSextetMeans(n: nat)
    ensures LoneSextet(n) <==> n % 4 == 1
  {
    if n >= 4 {
      LoneSextetMeans(n - 4);
    }
  }

  lemma {:induction false} BytesFails(v: seq<Byte>)
    ensures Bytes(v).Err? <==> LoneSextet(|v|)
  {
    if |v| >= 4 {
      BytesFails(v[4..]);
    }
  }

  /** The bits of the last sextet that no byte takes up. */
  predicate NoStrayBits(v: seq<Byte>) {
    if |v| >= 4 then NoStrayBits(v[4..])
    else (|v| == 2 ==> v[1] & 15 == 0) && (|v| == 3 ==> v[2] & 3 == 0)
  }

  lemma GroupBack(p: Byte, q: Byte, r: Byte, s: Byte)
    requires p < 64 && q < 64 && r < 64 && s < 64
    ensures First(Front(p, q)) == p
    ensures Second(Front(p, q), Middle(q, r)) == q && Third(Middle(q, r), Back(r, s)) == r && Fourth(Back(r, s)) == s
    ensures Second(Front(p, q), 0) == q <==> q & 15 == 0
    ensures Third(Middle(q, r), 0) == r <==> r & 3 == 0
  {
  }

  lemma GroupThenRest(p: Byte, q: Byte, r: Byte, s: Byte, d: seq<Byte>)
    requires p < 64 && q < 64 && r < 64 && s < 64
    ensures Sextets([Front(p, q), Middle(q, r), Back(r, s)] + d) == [p, q, r, s] + Sextets(d)
  {
    GroupBack(p, q, r, s);
    assert ([Front(p, q), Middle(q, r), Back(r, s)] + d)[3..] == d;
  }

  lemma LastGroups(p: Byte, q: Byte, r: Byte)
    requires p < 64 && q < 64 && r < 64
    ensures Sextets([Front(p, q)]) == [p, q] <==> q & 15 == 0
    ensures Sextets([Front(p, q), Middle(q, r)]) == [p, q, r] <==> r & 3 == 0
  {
  }

  lemma PeelGroup(v: seq<Byte>)
    requires |v| >= 4 && v[0] < 64 && v[1] < 64 && v[2] < 64 && v[3] < 64 && Bytes(v[4..]).Ok?
    ensures Bytes(v).Ok?
    ensures Sextets(Bytes(v).value) == [v[0], v[1], v[2], v[3]] + Sextets(Bytes(v[4..]).value)
  {
    GroupThenRest(v[0], v[1], v[2], v[3], Bytes(v[4..]).value);
  }

  lemma ShortSextets(v: seq<Byte>)
    requires |v| < 4 && Bytes(v).Ok? && forall i :: 0 <= i < |v| ==> v[i] < 64
    ensures Sextets(Bytes(v).value) == v <==> NoStrayBits(v)
  {
    if |v| == 2 {
      LastGroups(v[0], v[1], 0);
      assert v == [v[0], v[1]];
    } else if |v| == 3 {
      LastGroups(v[0], v[1], v[2]);
      assert v == [v[0], v[1], v[2]];
    }
  }

  lemma LongerSextets(v: seq<Byte>)
    requires |v| >= 4 && Bytes(v[4..]).Ok? && v[0] < 64 && v[1] < 64 && v[2] < 64 && v[3] < 64
    ensures Bytes(v).Ok?
    ensures Sextets(Bytes(v).value) == v <==> Sextets(Bytes(v[4..]).value) == v[4..]
  {
    PeelGroup(v);
    SplitFour(v);
    SamePrefix([v[0], v[1], v[2], v[3]], Sextets(Bytes(v[4..]).value), v[4..]);
  }

  lemma {:induction false} SextetsOfBytes(v: seq<Byte>)
    requires Bytes(v).Ok? && forall i :: 0 <= i < |v| ==> v[i] < 64
    ensures Sextets(Bytes(v).value) == v <==> NoStrayBits(v)
  {
    if |v| < 4 {
      ShortSextets(v);
    } else {
      SextetsOfBytes(v[4..]);
      LongerSextets(v);
    }
  }

  lemma SplitFour(v: seq<Byte>)
    requires |v| >= 4
    ensures v == [v[0], v[1], v[2], v[3]] + v[4..]
  {
  }

  lemma SamePrefix(p: seq<Byte>, s: seq<Byte>, t: seq<Byte>)
    ensures p + s == p + t <==> s == t
  {
    assert (p + s)[|p|..] == s && (p + t)[|p|..] == t;
  }

  // ---------------------------------------------------------------------------
  // Text
  // ---------------------------------------------------------------------------

  function Letters(v: seq<Byte>): (s: seq<Byte>)
    requires forall i :: 0 <= i < |v| ==> v[i] < 64
    ensures |s| == |v| && forall i :: 0 <= i < |v| ==> s[i] == Letter(v[i])
  {
    seq(|v|, i requires 0 <= i < |v| => Letter(v[i]))
  }

  function Values(s: seq<Byte>): (v: seq<Byte>)
    ensures |v| == |s| && forall i :: 0 <= i < |s| ==> v[i] == Value(s[i])
  {
    seq(|s|, i requires 0 <= i < |s| => Value(s[i]))
  }

  /** The encoding, without its padding. */
  function Unpadded(d: seq<Byte>): seq<Byte> {
    assert forall i :: 0 <= i < |Sextets(d)| ==> Sextets(d)[i] < 64 by {
      forall i | 0 <= i < |Sextets(d)| ensures Sextets(d)[i] < 64 { SextetsAreSmall(d, i); }
    }
    Letters(Sextets(d))
  }

  function Encode(d: seq<Byte>): seq<Byte> {
    Unpadded(d) + if |d| % 3 == 1 then [61, 61] else if |d| % 3 == 2 then [61] else []
  }

  function Decode(input: seq<Byte>): Result<seq<Byte>, string> {
    var clean := Clean(input);
    if NoForeign(clean) then Bytes(Values(clean)) else Err("invalid base64 data")
  }

  /** Every encoding decodes to its data, whatever is done to its padding, and however spaces and line
      breaks are strewn into it. */
  lemma DecodesEncodings(d: seq<Byte>, input: seq<Byte>)
    requires Clean(input) == Unpadded(d)
    ensures Decode(input) == Ok(d)
  {
    var letters := Unpadded(d);
    forall i | 0 <= i < |letters|
      ensures Value(letters[i]) == Sextets(d)[i] != FOREIGN
    {
      SextetsAreSmall(d, i);
      LettersAndValues(Sextets(d)[i]);
    }
    assert Values(letters) == Sextets(d);
    BytesOfSextets(d);
  }

  lemma {:induction false} CleanConcat(s: seq<Byte>, t: seq<Byte>)
    ensures Clean(s + t) == Clean(s) + Clean(t)
  {
    if s == [] {
      assert s + t == t;
    } else {
      assert (s + t)[1..] == s[1..] + t;
      CleanConcat(s[1..], t);
    }
  }

  lemma {:induction false} CleanKeeps(s: seq<Byte>)
    requires forall i :: 0 <= i < |s| ==> !Skipped(s[i])
    ensures Clean(s) == s
  {
    if s != [] {
      CleanKeeps(s[1..]);
      assert s == [s[0]] + s[1..];
    }
  }

  lemma {:induction false} CleanSkips(s: seq<Byte>)
    requires forall i :: 0 <= i < |s| ==> Skipped(s[i])
    ensures Clean(s) == []
  {
    if s != [] {
      CleanSkips(s[1..]);
    }
  }

  lemma LettersAreKept(v: Byte)
    requires v < 64
    ensures !Skipped(Letter(v))
  {
  }

  lemma UnpaddedIsClean(d: seq<Byte>)
    ensures Clean(Unpadded(d)) == Unpadded(d)
  {
    var letters := Unpadded(d);
    forall i | 0 <= i < |letters|
      ensures !Skipped(letters[i])
    {
      SextetsAreSmall(d, i);
      LettersAreKept(Sextets(d)[i]);
    }
    CleanKeeps(letters);
  }

  lemma RoundTrip(d: seq<Byte>)
    ensures Decode(Encode(d)) == Ok(d) && Decode(Unpadded(d)) == Ok(d)
  {
    var padding := Encode(d)[|Unpadded(d)|..];
    assert Encode(d) == Unpadded(d) + padding;
    UnpaddedIsClean(d);
    CleanSkips(padding);
    CleanConcat(Unpadded(d), padding);
    assert Unpadded(d) + [] == Unpadded(d);
    DecodesEncodings(d, Encode(d));
    DecodesEncodings(d, Unpadded(d));
  }

  /** A skippable byte can be put in anywhere. */
  lemma InsertionIsInvisible(s: seq<Byte>, b: Byte, t: seq<Byte>)
    requires Skipped(b)
    ensures Decode(s + [b] + t) == Decode(s + t)
  {
    CleanConcat(s, t);
    CleanConcat(s + [b], t);
    CleanConcat(s, [b]);
    CleanSkips([b]);
    assert Clean(s) + [] == Clean(s);
  }

  /** Decoding fails exactly on a foreign byte or a cleaned length of 1 modulo 4. */
  lemma FailsIff(input: seq<Byte>)
    ensures Decode(input).Err?
            <==> !NoForeign(Clean(input)) || |Clean(input)| % 4 == 1
  {
    BytesFails(Values(Clean(input)));
    LoneSextetMeans(|Clean(input)|);
  }

  /** What decodes is the encoding of its result exactly when no bits were dropped at the end. */
  lemma DecodedReencodes(input: seq<Byte>)
    requires Decode(input).Ok?
    ensures Unpadded(Decode(input).value) == Clean(input) <==> NoStrayBits(Values(Clean(input)))
  {
    var clean := Clean(input);
    var v, d := Values(clean), Decode(input).value;
    forall i | 0 <= i < |v|
      ensures v[i] < 64 && Letter(v[i]) == clean[i]
    {
      assert clean[i] in clean;
      LettersAndValues(clean[i]);
    }
    SextetsOfBytes(v);
    assert Letters(v) == clean;
    if Unpadded(d) == clean {
      forall i | 0 <= i < |v|
        ensures Sextets(d)[i] == v[i]
      {
        SextetsAreSmall(d, i);
        LettersAndValues(Sextets(d)[i]);
      }
      assert Sextets(d) == v;
    }
  }

  // ---------------------------------------------------------------------------
  // The loops
  // ---------------------------------------------------------------------------

  method EnterUpperCase(table: array<Byte>)
    requires table.Length == 256
    modifies table
    ensures forall b: Byte :: table[b] == if 65 <= b < 91 then b - 65 else old(table[b])
  {
    var i: Byte := 0;
    while i < 26
      invariant i <= 26
      invariant forall b: Byte :: table[b] == if 65 <= b < 65 + i then b - 65 else old(table[b])
    {
      table[65 + i] := i;
      i := i + 1;
    }
  }

  method EnterLowerCase(table: array<Byte>)
    requires table.Length == 256
    modifies table
    ensures forall b: Byte :: table[b] == if 97 <= b < 123 then b - 97 + 26 else old(table[b])
  {
    var i: Byte := 0;
    while i < 26
      invariant i <= 26
      invariant forall b: Byte :: table[b] == if 97 <= b < 97 + i then b - 97 + 26 else old(table[b])
    {
      table[97 + i] := 26 + i;
      i := i + 1;
    }
  }

  method EnterDigits(table: array<Byte>)
    requires table.Length == 256
    modifies table
    ensures forall b: Byte :: table[b] == if 48 <= b < 58 then b - 48 + 52 else old(table[b])
  {
    var i: Byte := 0;
    while i < 10
      invariant i <= 10
      invariant forall b: Byte :: table[b] == if 48 <= b < 48 + i then b - 48 + 52 else old(table[b])
    {
      table[48 + i] := 52 + i;
      i := i + 1;
    }
  }

  method DecodeTable() returns (table: array<Byte>)
    ensures fresh(table) && table.Length == 256
    ensures forall b: Byte :: table[b] == Value(b)
  {
    table := new Byte[256](_ => FOREIGN);
    EnterUpperCase(table);
    EnterLowerCase(table);
    EnterDigits(table);
    table[43 as Byte] := 62;
    table[47 as Byte] := 63;
  }

  method Filter(input: seq<Byte>) returns (clean: seq<Byte>)
    ensures clean == Clean(input)
  {
    clean := [];
    for i := 0 to |input|
      invariant clean + Clean(input[i..]) == Clean(input)
    {
      assert input[i..][1..] == input[i + 1..];
      if !Skipped(input[i]) {
        clean := clean + [input[i]];
      }
    }
    assert input[|input|..] == [];
  }

  /** The values of up to four letters, if none is foreign. */
  method ReadChunk(table: array<Byte>, chunk: seq<Byte>) returns (ok: bool, buf: seq<Byte>)
    requires table.Length == 256 && |chunk| <= 4 && forall b: Byte :: table[b] == Value(b)
    ensures ok <==> forall b :: b in chunk ==> Value(b) != FOREIGN
    ensures ok ==> |buf| == 4 && Values(chunk) <= buf
  {
    ok, buf := true, [0, 0, 0, 0];
    for i := 0 to |chunk|
      invariant |buf| == 4 && forall k :: 0 <= k < i ==> buf[k] == Value(chunk[k]) != FOREIGN
    {
      var val := table[chunk[i]];
      if val == FOREIGN {
        assert chunk[i] in chunk;
        return false, buf;
      }
      buf := buf[i := val];
    }
  }

  predicate NoForeign(s: seq<Byte>) { forall b :: b in s ==> Value(b) != FOREIGN }

  function Joined(done: seq<Byte>, rest: Result<seq<Byte>, string>): Result<seq<Byte>, string> {
    if rest.Ok? then Ok(done + rest.value) else rest
  }

  /** What is pushed for one chunk. */
  method PushChunk(output: seq<Byte>, buf: seq<Byte>, n: nat) returns (longer: seq<Byte>)
    requires |buf| == 4 && 2 <= n <= 4
    ensures Bytes(buf[..n]).Ok? && longer == output + Bytes(buf[..n]).value
  {
    if n == 4 {
      assert Bytes(buf[..4][4..]) == Ok([]);
      longer := output + [Front(buf[0], buf[1]), Middle(buf[1], buf[2]), Back(buf[2], buf[3])];
    } else if n == 3 {
      longer := output + [Front(buf[0], buf[1]), Middle(buf[1], buf[2])];
    } else {
      longer := output + [Front(buf[0], buf[1])];
    }
  }

  lemma ChunkThenRest(output: seq<Byte>, v: seq<Byte>, n: nat)
    requires 2 <= n <= 4 && (n == |v| || (n == 4 && |v| > 4))
    ensures Bytes(v[..n]).Ok?
    ensures Joined(output, Bytes(v)) == Joined(output + Bytes(v[..n]).value, Bytes(v[n..]))
  {
    BytesFails(v[..n]);
    if n == |v| {
      assert v[..n] == v;
      JoinedTwice(output, Bytes(v).value, Ok([]));
      assert Bytes(v).value + [] == Bytes(v).value;
    } else {
      FullGroup(v);
      JoinedTwice(output, Bytes(v[..n]).value, Bytes(v[n..]));
    }
  }

  lemma FullGroup(v: seq<Byte>)
    requires |v| > 4 && Bytes(v[..4]).Ok?
    ensures Bytes(v) == Joined(Bytes(v[..4]).value, Bytes(v[4..]))
  {
    var w, rest := v[..4], Bytes(v[4..]);
    assert w[4..] == [] && Bytes(w[4..]) == Ok([]);
    var group := [Front(w[0], w[1]), Middle(w[1], w[2]), Back(w[2], w[3])];
    assert group + [] == group && Bytes(w) == Ok(group);
    assert rest.Ok? ==> Bytes(v) == Ok(group + rest.value);
  }

  lemma JoinedTwice(a: seq<Byte>, b: seq<Byte>, rest: Result<seq<Byte>, string>)
    ensures Joined(a, Joined(b, rest)) == Joined(a + b, rest)
    ensures Joined([], rest) == rest && Joined(a, Ok([])) == Ok(a)
  {
    if rest.Ok? {
      assert a + (b + rest.value) == (a + b) + rest.value && [] + rest.value == rest.value;
    }
    assert a + [] == a;
  }

  lemma ValuesTake(s: seq<Byte>, n: nat)
    requires n <= |s|
    ensures Values(s)[..n] == Values(s[..n]) && Values(s)[n..] == Values(s[n..])
    ensures NoForeign(s) <==> NoForeign(s[..n]) && NoForeign(s[n..])
  {
  }

  method Base64Decode(input: seq<Byte>) returns (r: Result<seq<Byte>, string>)
    ensures r == Decode(input)
  {
    var table := DecodeTable();
    var clean := Filter(input);
    var output: seq<Byte> := [];
    var rest := clean;
    JoinedTwice([], [], Bytes(Values(clean)));
    while rest != []
      invariant forall b: Byte :: table[b] == Value(b)
      invariant NoForeign(clean) <==> NoForeign(rest)
      invariant Joined(output, Bytes(Values(rest))) == Bytes(Values(clean))
    {
      var n := if |rest| < 4 then |rest| else 4;
      ValuesTake(rest, n);
      var ok, buf := ReadChunk(table, rest[..n]);
      if !ok || n == 1 {
        return Err("invalid base64 data");
      }
      ChunkThenRest(output, Values(rest), n);
      assert buf[..n] == Values(rest)[..n];
      output := PushChunk(output, buf, n);
      rest := rest[n..];
    }
    JoinedTwice(output, [], Ok([]));
    return Ok(output);
  }
}
