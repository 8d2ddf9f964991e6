/**
 * Registry keys and save-file names built from integer coordinates
 * (World.BuildChunkName, World.BuildColumnName, Chunk.BuildChunkFileName),
 * with the parser that reads the coordinates back and shows the names are
 * injective.
 */
module Names {

  datatype Option<T> = None | Some(value: T)

  /** Decimal digit character of `d`. */
  function DigitChar(d: int): (c: char)
    requires 0 <= d < 10
    ensures '0' <= c <= '9'
  {
    (d + '0' as int) as char
  }

  /** Value of a decimal digit character. */
  function DigitValue(c: char): (d: int)
    requires '0' <= c <= '9'
    ensures 0 <= d < 10
    ensures DigitChar(d) == c
  {
    (c as int) - ('0' as int)
  }

  predicate IsDigits(s: string)
  {
    forall i :: 0 <= i < |s| ==> '0' <= s[i] <= '9'
  }

  /** `n.ToString()` for a natural number: decimal, no leading zeros; the
    * leading digits are the decimal form of n / 10. The recursion goes
    * through `IntToString`, so that both functions are recursive and the
    * verifier unfolds neither of them unasked in the proofs about names. */
  function NatToString(n: nat): string
    decreases n, 0
  {
    if n < 10 then [DigitChar(n)] else IntToString(n / 10) + [DigitChar(n % 10)]
  }

  /** `i.ToString()` for an integer: a minus sign before negative numbers. */
  function IntToString(i: int): string
    decreases if i < 0 then -i else i, 1
  {
    if i < 0 then "-" + NatToString(-i) else NatToString(i)
  }

  /** The decimal form of a natural number is a non-empty string of digits. */
  lemma {:induction false} NatToStringDigits(n: nat)
    ensures |NatToString(n)| >= 1 && IsDigits(NatToString(n))
    decreases n
  {
    if n >= 10 {
      NatToStringDigits(n / 10);
      assert IntToString(n / 10) == NatToString(n / 10);
    }
  }

  /** A printed integer holds no underscore, so it can be a field of a name. */
  lemma IntToStringPlain(i: int)
    ensures '_' !in IntToString(i)
  {
    NatToStringDigits(if i < 0 then -i else i);
  }

  /** Reads a non-empty string of decimal digits. */
  function ParseNat(s: string): (r: Option<nat>)
    ensures r.Some? <==> |s| >= 1 && IsDigits(s)
    decreases |s|
  {
    if |s| == 0 || !IsDigits(s) then None
    else if |s| == 1 then Some(DigitValue(s[0]))
    else
      var prefix := ParseNat(s[..|s| - 1]);
      assert IsDigits(s[..|s| - 1]);
      Some(prefix.value * 10 + DigitValue(s[|s| - 1]))
  }

  /** Reads an optionally negative decimal integer. */
  function ParseInt(s: string): Option<int>
  {
    var negative := |s| >= 1 && s[0] == '-';
    var digits := if negative then s[1..] else s;
    match ParseNat(digits)
    case None => None
    case Some(n) =>
      var v: int := if negative then -(n as int) else n;
      Some(v)
  }

  lemma {:induction false} ParseNatToString(n: nat)
    ensures ParseNat(NatToString(n)) == Some(n)
    decreases n
  {
    NatToStringDigits(n);
    if n >= 10 {
      var s := NatToString(n);
      NatToStringDigits(n / 10);
      ParseNatToString(n / 10);
      assert IntToString(n / 10) == NatToString(n / 10);
      assert s[..|s| - 1] == NatToString(n / 10);
      assert DigitValue(s[|s| - 1]) == n % 10;
    }
  }

  /** A digit string reads as its value. */
  lemma ParseIntDigits(d: string, n: nat)
    requires |d| >= 1 && IsDigits(d) && ParseNat(d) == Some(n)
    ensures ParseInt(d) == Some(n)
  {
    assert d[0] != '-' by { assert '0' <= d[0]; }
  }

  /** A minus sign before a digit string negates its value. */
  lemma ParseIntNegated(d: string, n: nat)
    requires ParseNat(d) == Some(n)
    ensures ParseInt("-" + d) == Some(-(n as int))
  {
    assert ("-" + d)[1..] == d;
  }

  /** Printing an integer and reading it back gives the integer. */
  lemma ParseIntToString(i: int)
    ensures ParseInt(IntToString(i)) == Some(i)
  {
    var n: nat := if i < 0 then -i else i;
    NatToStringDigits(n);
    ParseNatToString(n);
    if i < 0 { ParseIntNegated(NatToString(n), n); } else { ParseIntDigits(NatToString(n), n); }
  }

  /** Splits a string at every underscore. */
  function Fields(s: string): (r: seq<string>)
    ensures |r| >= 1
    decreases |s|
  {
    if |s| == 0 then [""]
    else
      var rest := Fields(s[1..]);
      if s[0] == '_' then [""] + rest
      else [[s[0]] + rest[0]] + rest[1..]
  }

  /** A string without underscores is a single field. */
  lemma {:induction false} FieldsPlain(a: string)
    requires '_' !in a
    ensures Fields(a) == [a]
    decreases |a|
  {
    if |a| > 0 {
      FieldsPlain(a[1..]);
      assert [a[0]] + a[1..] == a;
    }
  }

  /** An underscore-free field followed by an underscore is split off. */
  lemma {:induction false} FieldsJoin(a: string, b: string)
    requires '_' !in a
    ensures Fields(a + "_" + b) == [a] + Fields(b)
    decreases |a|
  {
    var s := a + "_" + b;
    if |a| == 0 {
      assert s[1..] == b;
    } else {
      assert s[1..] == a[1..] + "_" + b;
      FieldsJoin(a[1..], b);
      assert [a[0]] + a[1..] == a;
    }
  }

  /** Joins fields with underscores. */
  function JoinFields(fs: seq<string>): string
    requires |fs| >= 1
    decreases |fs|
  {
    if |fs| == 1 then fs[0] else fs[0] + "_" + JoinFields(fs[1..])
  }

  /** Underscore-free fields joined with underscores split back apart. */
  lemma {:induction false} FieldsOfJoin(fs: seq<string>)
    requires |fs| >= 1
    requires forall i :: 0 <= i < |fs| ==> '_' !in fs[i]
    ensures Fields(JoinFields(fs)) == fs
    decreases |fs|
  {
    if |fs| == 1 {
      FieldsPlain(fs[0]);
    } else {
      FieldsOfJoin(fs[1..]);
      FieldsJoin(fs[0], JoinFields(fs[1..]));
    }
  }

  /** Reads every field as an integer. */
  function ParseAll(fs: seq<string>): (r: Option<seq<int>>)
    ensures r.Some? ==> |r.value| == |fs|
    decreases |fs|
  {
    if |fs| == 0 then Some([])
    else
      match (ParseInt(fs[0]), ParseAll(fs[1..]))
      case (Some(v), Some(vs)) => Some([v] + vs)
      case _ => None
  }

  /** The decimal strings of a sequence of integers. */
  function Decimals(vs: seq<int>): (fs: seq<string>)
    ensures |fs| == |vs|
    ensures forall i :: 0 <= i < |fs| ==> fs[i] == IntToString(vs[i]) && '_' !in fs[i]
    decreases |vs|
  {
    if |vs| == 0 then [] else IntToStringPlain(vs[0]); [IntToString(vs[0])] + Decimals(vs[1..])
  }

  /** Parsing a field in front of parsed fields. */
  lemma ParseAllCons(f: string, fs: seq<string>, v: int, ws: seq<int>)
    requires ParseInt(f) == Some(v) && ParseAll(fs) == Some(ws)
    ensures ParseAll([f] + fs) == Some([v] + ws)
  {
    assert ([f] + fs)[0] == f && ([f] + fs)[1..] == fs;
  }

  lemma {:induction false} ParseAllDecimals(vs: seq<int>)
    ensures ParseAll(Decimals(vs)) == Some(vs)
    decreases |vs|
  {
    if |vs| > 0 {
      ParseIntToString(vs[0]);
      ParseAllDecimals(vs[1..]);
      assert Decimals(vs) == [IntToString(vs[0])] + Decimals(vs[1..]);
      ParseAllCons(IntToString(vs[0]), Decimals(vs[1..]), vs[0], vs[1..]);
      assert [vs[0]] + vs[1..] == vs;
    }
  }

  /** Integers printed and joined with underscores are read back by splitting
    * and parsing the fields. */
  lemma JoinedDecimalsRoundTrip(vs: seq<int>)
    requires |vs| >= 1
    ensures ParseAll(Fields(JoinFields(Decimals(vs)))) == Some(vs)
  {
    FieldsOfJoin(Decimals(vs));
    ParseAllDecimals(vs);
  }

  /** Splitting a chunk name at its underscores and parsing the fields gives
    * the coordinates back. */
  lemma ParseChunkNameRoundTrip(x: int, y: int, z: int)
    ensures ParseChunkName(ChunkName(x, y, z)) == Some((x, y, z))
  {
    var vs := [x, y, z];
    var fs := Decimals(vs);
    assert fs[1..][1..] == fs[2..];
    assert JoinFields(fs[2..]) == fs[2];
    assert JoinFields(fs[1..]) == fs[1] + "_" + fs[2];
    assert ChunkName(x, y, z) == JoinFields(fs);
    JoinedDecimalsRoundTrip(vs);
  }

  /** `World.BuildChunkName`: "x_y_z" of the truncated coordinates. Its
    * round trip is the lemma `ParseChunkNameRoundTrip` rather than an
    * `ensures`, since the registry invariant mentions a chunk name for every
    * chunk and each would drag in the parser. */
  function ChunkName(x: int, y: int, z: int): string
  {
    IntToString(x) + "_" + IntToString(y) + "_" + IntToString(z)
  }

  /** `World.BuildColumnName`: "x_z", read back the same way. */
  function ColumnName(x: int, z: int): (r: string)
    ensures ParseColumnName(r) == Some((x, z))
  {
    JoinedDecimalsRoundTrip([x, z]);
    IntToString(x) + "_" + IntToString(z)
  }

  /** Reads the three coordinates back out of a chunk name. */
  function ParseChunkName(s: string): Option<(int, int, int)>
  {
    match ParseAll(Fields(s))
    case Some(vs) => if |vs| == 3 then Some((vs[0], vs[1], vs[2])) else None
    case None => None
  }

  /** Reads the two coordinates back out of a column name. */
  function ParseColumnName(s: string): Option<(int, int)>
  {
    match ParseAll(Fields(s))
    case Some(vs) => if |vs| == 2 then Some((vs[0], vs[1])) else None
    case None => None
  }

  /** Distinct chunk coordinates get distinct registry keys. */
  lemma ChunkNameInjective(x1: int, y1: int, z1: int, x2: int, y2: int, z2: int)
    ensures ChunkName(x1, y1, z1) == ChunkName(x2, y2, z2) <==> (x1, y1, z1) == (x2, y2, z2)
  {
    ParseChunkNameRoundTrip(x1, y1, z1);
    ParseChunkNameRoundTrip(x2, y2, z2);
  }

  /** Distinct column coordinates get distinct column names. */
  lemma ColumnNameInjective(x1: int, z1: int, x2: int, z2: int)
    ensures ColumnName(x1, z1) == ColumnName(x2, z2) <==> (x1, z1) == (x2, z2)
  {
    var n1, n2 := ColumnName(x1, z1), ColumnName(x2, z2);
  }

  const SaveDirectory: string := "/savedata/Chunk_"
  const SaveSuffix: string := ".dat"

  /** `Chunk.BuildChunkFileName`: the save file of the chunk at (x, y, z) under
    * the data directory, tagged with the chunk size and the radius. As for
    * `ChunkName`, its round trip is the lemma `ParseChunkFileNameRoundTrip`,
    * which keeps the parser out of every use of a file name. */
  function ChunkFileName(dataPath: string, x: int, y: int, z: int, size: int, radius: int): string
  {
    dataPath + SaveDirectory + IntToString(x) + "_" + IntToString(y) + "_" + IntToString(z)
      + "_" + IntToString(size) + "_" + IntToString(radius) + SaveSuffix
  }

  /** Reads (x, y, z, size, radius) back out of a save-file name under `dataPath`. */
  function ParseChunkFileName(dataPath: string, s: string): Option<(int, int, int, int, int)>
  {
    var prefix := dataPath + SaveDirectory;
    if |s| < |prefix| + |SaveSuffix| || s[..|prefix|] != prefix || s[|s| - |SaveSuffix|..] != SaveSuffix then None
    else
      match ParseAll(Fields(s[|prefix|..|s| - |SaveSuffix|]))
      case Some(vs) => if |vs| == 5 then Some((vs[0], vs[1], vs[2], vs[3], vs[4])) else None
      case None => None
  }

  /** A string made of a prefix, a body and a suffix gives them back by slicing. */
  lemma Affixes(prefix: string, body: string, suffix: string)
    ensures var s := prefix + body + suffix;
      s[..|prefix|] == prefix && s[|s| - |suffix|..] == suffix && s[|prefix|..|s| - |suffix|] == body
  {
  }

  lemma {:induction false} JoinFive(fs: seq<string>)
    requires |fs| == 5
    ensures JoinFields(fs) == fs[0] + "_" + fs[1] + "_" + fs[2] + "_" + fs[3] + "_" + fs[4]
  {
    var t4 := fs[4..];
    var t3 := fs[3..];
    var t2 := fs[2..];
    var t1 := fs[1..];
    assert JoinFields(t4) == fs[4];
    assert t3[1..] == t4;
    assert JoinFields(t3) == fs[3] + "_" + fs[4];
    assert t2[1..] == t3;
    assert JoinFields(t2) == fs[2] + "_" + (fs[3] + "_" + fs[4]);
    assert t1[1..] == t2;
    assert JoinFields(t1) == fs[1] + "_" + (fs[2] + "_" + (fs[3] + "_" + fs[4]));
    assert JoinFields(fs) == fs[0] + "_" + (fs[1] + "_" + (fs[2] + "_" + (fs[3] + "_" + fs[4])));
  }

  lemma Assoc(a: string, b: string, c: string)
    ensures a + (b + c) == (a + b) + c
  {
  }

  /** A save-file name is the data directory, the joined decimal fields and the suffix. */
  lemma ChunkFileNameShape(dataPath: string, x: int, y: int, z: int, size: int, radius: int)
    ensures ChunkFileName(dataPath, x, y, z, size, radius)
         == (dataPath + SaveDirectory) + JoinFields(Decimals([x, y, z, size, radius])) + SaveSuffix
  {
    var fs := Decimals([x, y, z, size, radius]);
    JoinFive(fs);
    var p := dataPath + SaveDirectory;
    var b1 := IntToString(x) + "_";
    var b2 := b1 + IntToString(y);
    var b3 := b2 + "_";
    var b4 := b3 + IntToString(z);
    var b5 := b4 + "_";
    var b6 := b5 + IntToString(size);
    var b7 := b6 + "_";
    var b8 := b7 + IntToString(radius);
    assert JoinFields(fs) == b8;
    Assoc(p, IntToString(x), "_");
    Assoc(p, b1, IntToString(y));
    Assoc(p, b2, "_");
    Assoc(p, b3, IntToString(z));
    Assoc(p, b4, "_");
    Assoc(p, b5, IntToString(size));
    Assoc(p, b6, "_");
    Assoc(p, b7, IntToString(radius));
  }

  /** The position, chunk size and radius are read back out of a save-file name. */
  lemma ParseChunkFileNameRoundTrip(dataPath: string, x: int, y: int, z: int, size: int, radius: int)
    ensures ParseChunkFileName(dataPath, ChunkFileName(dataPath, x, y, z, size, radius))
         == Some((x, y, z, size, radius))
  {
    var vs := [x, y, z, size, radius];
    ChunkFileNameShape(dataPath, x, y, z, size, radius);
    Affixes(dataPath + SaveDirectory, JoinFields(Decimals(vs)), SaveSuffix);
    JoinedDecimalsRoundTrip(vs);
  }

  /** Under one data directory, two chunks get the same save file only when
    * their coordinates, chunk size and radius all agree. */
  lemma ChunkFileNameInjective(dataPath: string, x1: int, y1: int, z1: int, n1: int, r1: int,
                               x2: int, y2: int, z2: int, n2: int, r2: int)
    ensures ChunkFileName(dataPath, x1, y1, z1, n1, r1) == ChunkFileName(dataPath, x2, y2, z2, n2, r2)
        <==> (x1, y1, z1, n1, r1) == (x2, y2, z2, n2, r2)
  {
    ParseChunkFileNameRoundTrip(dataPath, x1, y1, z1, n1, r1);
    ParseChunkFileNameRoundTrip(dataPath, x2, y2, z2, n2, r2);
  }
}
