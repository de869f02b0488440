/** The enum tables written by stringer, the names they give, and the decoders that look names up again. */
module Enums {
  // --- Strings --------------------------------------------------------------------------------------------

  function LowerChar(c: char): char {
    if 'A' <= c <= 'Z' then (c as int + 32) as char else c
  }

  /** strings.ToLower, on ASCII letters. */
  function Lower(s: string): (l: string)
    ensures |l| == |s| && forall i :: 0 <= i < |s| ==> l[i] == LowerChar(s[i])
  {
    seq(|s|, i requires 0 <= i < |s| => LowerChar(s[i]))
  }

  lemma LowerOfSlice(s: string, lo: nat, hi: nat)
    requires lo <= hi <= |s|
    ensures Lower(s)[lo..hi] == Lower(s[lo..hi])
  {
  }

  // --- Letter case ----------------------------------------------------------------------------------------

  const UPPER := "ABCDEFGHIJKLMNOPQRSTUVWXYZ"
  const LOWER := "abcdefghijklmnopqrstuvwxyz"

  /** The same character, or the same letter in the other case. */
  ghost predicate SameLetter(c: char, d: char) {
    c == d || exists i :: 0 <= i < 26 && CasesOf(i, c, d)
  }

  /** c and d are the two cases of the i-th letter. */
  predicate CasesOf(i: nat, c: char, d: char)
    requires i < 26
  {
    Alphabet(i);
    (c == UPPER[i] && d == LOWER[i]) || (c == LOWER[i] && d == UPPER[i])
  }

  /** The same characters but for letter case. */
  ghost predicate SameLetters(s: string, t: string) {
    |s| == |t| && forall i :: 0 <= i < |s| ==> SameLetter(s[i], t[i])
  }

  lemma Alphabet(i: nat)
    requires i < 26
    ensures |UPPER| == |LOWER| == 26
    ensures UPPER[i] as int == 65 + i && LOWER[i] as int == 97 + i
  {
  }

  lemma LowerCharMeans(c: char, d: char)
    ensures LowerChar(c) == LowerChar(d) <==> SameLetter(c, d)
  {
    if c != d {
      if LowerChar(c) == LowerChar(d) {
        var i := LowerChar(c) as int - 97;
        Alphabet(i);
        assert CasesOf(i, c, d);
      } else if SameLetter(c, d) {
        var i :| 0 <= i < 26 && CasesOf(i, c, d);
        Alphabet(i);
      }
    }
  }

  /** Two strings have the same lower case exactly if they differ in letter case only. */
  lemma LowerMeans(s: string, t: string)
    ensures Lower(s) == Lower(t) <==> SameLetters(s, t)
  {
    if |s| == |t| {
      forall i | 0 <= i < |s| ensures Lower(s)[i] == Lower(t)[i] <==> SameLetter(s[i], t[i]) {
        LowerCharMeans(s[i], t[i]);
      }
      assert SameLetters(s, t) ==> forall i :: 0 <= i < |s| ==> Lower(s)[i] == Lower(t)[i];
      if Lower(s) == Lower(t) {
        forall i | 0 <= i < |s| ensures SameLetter(s[i], t[i]) { assert Lower(s)[i] == Lower(t)[i]; }
      }
    }
  }

  // --- Numbers --------------------------------------------------------------------------------------------

  /** strconv.FormatInt(n, 10). */
  function Decimal(n: nat): (d: string)
    ensures d != []
  {
    var digit := ('0' as int + n % 10) as char;
    if n < 10 then [digit] else Decimal(n / 10) + [digit]
  }

  /** The number that a string of digits reads. */
  function Reads(d: string): int {
    if d == [] then 0 else 10 * Reads(d[..|d| - 1]) + (d[|d| - 1] as int - 48)
  }

  /** Decimal writes digits only, without a leading zero, and they read the number. */
  lemma {:induction false} DecimalReads(n: nat)
    ensures Reads(Decimal(n)) == n
    ensures forall c <- Decimal(n) :: 48 <= c as int <= 57
    ensures n > 0 ==> Decimal(n)[0] as int != 48
  {
    if n >= 10 {
      DecimalReads(n / 10);
      assert Decimal(n)[..|Decimal(n)| - 1] == Decimal(n / 10);
    } else {
      assert Decimal(n)[..0] == [];
    }
  }

  // --- Tables ---------------------------------------------------------------------------------------------

  /** The packed names, and where each of them starts. */
  datatype Table = Table(typeName: string, names: string, index: seq<nat>) {
    /** The slices String and unString take are in range. */
    predicate Valid() {
      && |index| >= 1 && (forall i :: 0 <= i < |index| ==> index[i] <= |names|)
      && forall i :: 0 <= i < |index| - 1 ==> index[i] <= index[i + 1]
    }

    function Size(): nat
      requires Valid()
    {
      |index| - 1
    }

    function Entry(i: nat): string
      requires Valid() && i < Size()
    {
      names[index[i]..index[i + 1]]
    }

    /** String. */
    function NameOf(v: nat): string
      requires Valid()
    {
      if v >= Size() then typeName + "(" + Decimal(v) + ")" else Entry(v)
    }

    /** The first entry from i on that reads from when the case of letters is ignored, or 0. */
    function Find(from: string, i: nat): (r: nat)
      requires Valid() && i <= Size()
      decreases Size() - i
    {
      if i == Size() then 0
      else if Lower(from) == Lower(Entry(i)) then i
      else Find(from, i + 1)
    }

    /** What unString gives. */
    function ValueOf(from: string): (r: nat)
      requires Valid()
    {
      Find(from, 0)
    }

    /** No two entries are the same name in different letter cases. */
    ghost predicate Distinct()
      requires Valid()
    {
      forall i, j :: 0 <= i < j < Size() ==> !SameLetters(Entry(i), Entry(j))
    }

    ghost predicate Matches(s: string, i: nat)
      requires Valid()
    {
      i < Size() && SameLetters(s, Entry(i))
    }
  }

  /** unString: the loop over the lower-cased packed names. */
  method UnString(from: string, t: Table) returns (r: nat)
    requires t.Valid()
    ensures r == t.ValueOf(from)
  {
    var f := Lower(from);
    var l := Lower(t.names);
    var i := 0;
    while i < |t.index| - 1
      invariant 0 <= i <= t.Size()
      invariant t.ValueOf(from) == t.Find(from, i)
    {
      LowerOfSlice(t.names, t.index[i], t.index[i + 1]);
      if f == l[t.index[i]..t.index[i + 1]] {
        return i;
      }
      i := i + 1;
    }
    return 0;
  }

  // --- Looking names up again -----------------------------------------------------------------------------

  lemma {:induction false} FindMeans(t: Table, s: string, i: nat)
    requires t.Valid() && i <= t.Size()
    ensures FirstMatch(t, s, i, t.Find(s, i))
    decreases t.Size() - i
  {
    if i < t.Size() {
      LowerMeans(s, t.Entry(i));
      if !t.Matches(s, i) {
        FindMeans(t, s, i + 1);
        FirstMatchBefore(t, s, i, t.Find(s, i + 1));
      }
    }
  }

  /** r is the first entry from i on that s matches, or 0 if there is none. */
  ghost predicate FirstMatch(t: Table, s: string, i: nat, r: nat)
    requires t.Valid()
  {
    if exists j :: i <= j < t.Size() && t.Matches(s, j) then
      i <= r && t.Matches(s, r) && forall j :: i <= j < r ==> !t.Matches(s, j)
    else r == 0
  }

  lemma FirstMatchBefore(t: Table, s: string, i: nat, r: nat)
    requires t.Valid() && i < t.Size() && !t.Matches(s, i) && FirstMatch(t, s, i + 1, r)
    ensures FirstMatch(t, s, i, r)
  {
    assert forall j :: i <= j < t.Size() && t.Matches(s, j) ==> i + 1 <= j;
  }

  /** In a table with distinct entries a string decodes to i exactly when it is the i-th name in some letter case, and
      to 0 also when it is no name at all. */
  lemma ValueOfMeans(t: Table, s: string, i: nat)
    requires t.Valid() && t.Distinct()
    ensures t.ValueOf(s) == i <==> t.Matches(s, i) || (i == 0 && forall j :: 0 <= j < t.Size() ==> !t.Matches(s, j))
  {
    FindMeans(t, s, 0);
    var r := t.ValueOf(s);
    if t.Matches(s, i) {
      assert t.Matches(s, r);
      OneMatch(t, s, i, r);
    }
  }

  lemma OneMatch(t: Table, s: string, i: nat, j: nat)
    requires t.Valid() && t.Distinct() && t.Matches(s, i) && t.Matches(s, j)
    ensures i == j
  {
    LowerMeans(s, t.Entry(i));
    LowerMeans(s, t.Entry(j));
    LowerMeans(t.Entry(i), t.Entry(j));
    LowerMeans(t.Entry(j), t.Entry(i));
  }

  /** String and unString are inverse on the values of the type, also if letters change their case in between. */
  lemma NameRoundTrip(t: Table, v: nat)
    requires t.Valid() && t.Distinct() && v < t.Size()
    ensures t.ValueOf(t.NameOf(v)) == v
    ensures forall s :: SameLetters(s, t.NameOf(v)) ==> t.ValueOf(s) == v
  {
    ValueOfMeans(t, t.NameOf(v), v);
    forall s | SameLetters(s, t.NameOf(v)) ensures t.ValueOf(s) == v {
      ValueOfMeans(t, s, v);
    }
  }

  /** No name contains an opening parenthesis. */
  ghost predicate NoParenthesis(t: Table)
    requires t.Valid()
  {
    forall i :: 0 <= i < t.Size() ==> '(' !in t.Entry(i)
  }

  /** The string of a value outside the type decodes to 0. */
  lemma UnknownValueName(t: Table, v: nat)
    requires t.Valid() && NoParenthesis(t) && v >= t.Size()
    ensures t.ValueOf(t.NameOf(v)) == 0
  {
    var s := t.NameOf(v);
    var k := |t.typeName|;
    assert s[k] == '(';
    forall i | 0 <= i < t.Size() ensures !t.Matches(s, i) {
      if |t.Entry(i)| == |s| {
        assert t.Entry(i)[k] != '(';
        LowerCharMeans(s[k], t.Entry(i)[k]);
      }
    }
    FindMeans(t, s, 0);
  }

  // --- MessagePack ----------------------------------------------------------------------------------------

  /** A byte, as the character with its code. */
  function Byte(n: nat): char
    requires n < 256
  {
    n as char
  }

  /** The MessagePack str format family: fixstr up to 31 bytes, then str 8, str 16 and str 32. */
  function Header(n: nat): seq<char>
    requires n < 0x1_0000_0000
  {
    if n < 32 then [Byte(0xa0 + n)]
    else if n < 0x100 then [Byte(0xd9), Byte(n)]
    else if n < 0x1_0000 then [Byte(0xda), Byte(n / 0x100), Byte(n % 0x100)]
    else [Byte(0xdb), Byte(n / 0x100_0000), Byte(n / 0x1_0000 % 0x100), Byte(n / 0x100 % 0x100), Byte(n % 0x100)]
  }

  function Encode(s: string): seq<char>
    requires |s| < 0x1_0000_0000
  {
    Header(|s|) + s
  }

  /** The big-endian number in some bytes. */
  function Number(b: seq<char>): nat {
    if b == [] then 0 else 0x100 * Number(b[..|b| - 1]) + b[|b| - 1] as nat
  }

  /** What a MessagePack decoder makes of the bytes of a str value: by its first byte, a fixstr with the length in its
      five low bits, or one, two or four bytes of length, and then exactly that many bytes. */
  function DecodeStr(b: seq<char>): Option<string> {
    if b == [] then None
    else
      var first := b[0] as int;
      var extra := if 0xa0 <= first < 0xc0 then 0 else if first == 0xd9 then 1 else if first == 0xda then 2
                   else if first == 0xdb then 4 else |b|;
      if |b| < 1 + extra then None
      else
        var n := if extra == 0 then first - 0xa0 else Number(b[1..1 + extra]);
        if |b| == 1 + extra + n then Some(b[1 + extra..]) else None
  }

  datatype Option<T> = None | Some(value: T)

  lemma NumberOfTwo(a: char, b: char)
    ensures Number([a]) == a as nat && Number([a, b]) == 0x100 * (a as nat) + b as nat
  {
    assert [a][..0] == [] && [a, b][..1] == [a];
  }

  lemma NumberOfFour(a: char, b: char, c: char, d: char)
    ensures Number([a, b, c, d]) == 0x100_0000 * (a as nat) + 0x1_0000 * (b as nat) + 0x100 * (c as nat) + d as nat
  {
    NumberOfTwo(a, b);
    assert [a, b, c, d][..3] == [a, b, c] && [a, b, c][..2] == [a, b];
  }

  lemma HeaderReads(n: nat)
    requires n < 0x1_0000_0000
    ensures var h := Header(n); |h| > 1 ==> Number(h[1..]) == n
  {
    var h := Header(n);
    if n < 32 {
    } else if n < 0x100 {
      assert h[1..] == [Byte(n)];
      NumberOfTwo(Byte(n), Byte(0));
    } else if n < 0x1_0000 {
      assert h[1..] == [Byte(n / 0x100), Byte(n % 0x100)];
      NumberOfTwo(Byte(n / 0x100), Byte(n % 0x100));
    } else {
      var a, b, c, d := Byte(n / 0x100_0000), Byte(n / 0x1_0000 % 0x100), Byte(n / 0x100 % 0x100), Byte(n % 0x100);
      assert h[1..] == [a, b, c, d];
      NumberOfFour(a, b, c, d);
      FourBytes(n);
    }
  }

  lemma FourBytes(n: nat)
    ensures 0x100_0000 * (n / 0x100_0000) + 0x1_0000 * (n / 0x1_0000 % 0x100) + 0x100 * (n / 0x100 % 0x100) + n % 0x100
            == n
  {
    var m := n / 0x100;
    assert n / 0x1_0000 == m / 0x100 && n / 0x100_0000 == m / 0x1_0000;
    assert m / 0x1_0000 == m / 0x100 / 0x100;
  }

  /** A decoder gives back the string that was encoded. */
  lemma EncodeDecodes(s: string)
    requires |s| < 0x1_0000_0000
    ensures DecodeStr(Encode(s)) == Some(s)
  {
    var h := Header(|s|);
    HeaderReads(|s|);
    assert Encode(s)[..|h|] == h && Encode(s)[|h|..] == s;
    assert Encode(s)[1..|h|] == h[1..];
  }

  /** Every name is shorter than the longest string with a one-byte header. */
  ghost predicate ShortNames(t: Table)
    requires t.Valid()
  {
    forall i :: 0 <= i < t.Size() ==> 0 < |t.Entry(i)| < 32
  }

  datatype Decoded = Value(v: nat) | TooShort

  /** What UnmarshalMsgpack makes of some bytes. */
  function FromMsgpack(t: Table, b: seq<char>): Decoded
    requires t.Valid()
  {
    if |b| < 2 then TooShort else Value(t.ValueOf(b[1..]))
  }

  lemma TooLongForAName(t: Table, s: string)
    requires t.Valid() && ShortNames(t) && |s| >= 32
    ensures t.ValueOf(s) == 0
  {
    forall i | 0 <= i < t.Size() ensures !t.Matches(s, i) {
      assert |s| != |t.Entry(i)|;
    }
    FindMeans(t, s, 0);
  }

  /** Dropping one byte is enough: for every string that MessagePack can hold, the decoder gives what unString gives
      on the string itself, however long the header really is. Only the empty string is refused. */
  lemma OneByteIsEnough(t: Table, s: string)
    requires t.Valid() && ShortNames(t) && |s| < 0x1_0000_0000
    ensures FromMsgpack(t, Encode(s)) == if s == "" then TooShort else Value(t.ValueOf(s))
  {
    var b := Encode(s);
    if |s| < 32 {
      assert b[1..] == s;
    } else {
      TooLongForAName(t, s);
      TooLongForAName(t, b[1..]);
    }
  }

  /** No name begins with a control character. */
  ghost predicate Printable(t: Table)
    requires t.Valid()
  {
    forall i :: 0 <= i < t.Size() && t.Entry(i) != "" ==> t.Entry(i)[0] as int >= 32
  }

  /** A length that fits in five bits leaves a control character in the first byte of a longer length field. */
  lemma ShortLength(b: seq<char>)
    requires (|b| == 1 || |b| == 2 || |b| == 4) && Number(b) < 32
    ensures b[0] as int < 32
  {
    if |b| == 1 {
      assert b == [b[0]];
      NumberOfTwo(b[0], b[0]);
    } else if |b| == 2 {
      assert b == [b[0], b[1]];
      NumberOfTwo(b[0], b[1]);
    } else {
      assert b == [b[0], b[1], b[2], b[3]];
      NumberOfFour(b[0], b[1], b[2], b[3]);
    }
  }

  /** Any encoding of a string, also with a longer header than it needs: dropping one byte gives what unString gives on
      the string exactly if the header is one byte long or the string is no name, and 0 otherwise. */
  lemma AnyEncoding(t: Table, b: seq<char>, s: string)
    requires t.Valid() && ShortNames(t) && Printable(t) && DecodeStr(b) == Some(s) && s != ""
    ensures FromMsgpack(t, b) == Value(t.ValueOf(s)) <==> b[0] as int < 0xc0 || t.ValueOf(s) == 0
    ensures b[0] as int >= 0xc0 ==> FromMsgpack(t, b) == Value(0)
  {
    if b[0] as int < 0xc0 {
      assert b[1..] == s;
    } else {
      LongHeaderMatchesNothing(t, b, s);
    }
  }

  lemma LongHeaderMatchesNothing(t: Table, b: seq<char>, s: string)
    requires t.Valid() && ShortNames(t) && Printable(t) && DecodeStr(b) == Some(s) && b[0] as int >= 0xc0
    ensures |b| >= 2 && t.ValueOf(b[1..]) == 0
  {
    if |b| > 32 {
      TooLongForAName(t, b[1..]);
    } else {
      var extra := |b| - 1 - |s|;
      ShortLength(b[1..1 + extra]);
      forall i | 0 <= i < t.Size() ensures !t.Matches(b[1..], i) {
        LowerCharMeans(b[1], t.Entry(i)[0]);
      }
      FindMeans(t, b[1..], 0);
    }
  }

  /** MarshalMsgpack and UnmarshalMsgpack: every value of the type comes back, and any other comes back as 0. */
  lemma MsgpackRoundTrip(t: Table, v: nat)
    requires t.Valid() && t.Distinct() && ShortNames(t) && NoParenthesis(t)
    requires |t.NameOf(v)| < 0x1_0000_0000
    ensures FromMsgpack(t, Encode(t.NameOf(v))) == Value(if v < t.Size() then v else 0)
  {
    OneByteIsEnough(t, t.NameOf(v));
    if v < t.Size() {
      NameRoundTrip(t, v);
      assert t.NameOf(v) != "";
    } else {
      UnknownValueName(t, v);
    }
  }

  // --- JSON -----------------------------------------------------------------------------------------------

  predicate Quote(c: char) {
    c == '"' || c == '\''
  }

  /** The two quotation marks, by their codes. */
  lemma QuoteMeans(c: char)
    ensures Quote(c) <==> c as int == 34 || c as int == 39
  {
  }

  function TrimLeft(b: string): string {
    if b != [] && Quote(b[0]) then TrimLeft(b[1..]) else b
  }

  function TrimRight(b: string): string {
    if b != [] && Quote(b[|b| - 1]) then TrimRight(b[..|b| - 1]) else b
  }

  /** bytes.Trim with the two quotation marks. */
  function Trim(b: string): string {
    TrimRight(TrimLeft(b))
  }

  /** What UnmarshalJSON makes of some bytes. */
  function FromJSON(t: Table, b: string): nat
    requires t.Valid()
  {
    t.ValueOf(Trim(b))
  }

  lemma {:induction false} TrimLeftStrips(q: string, s: string)
    requires forall c <- q :: Quote(c)
    requires s != [] ==> !Quote(s[0])
    ensures TrimLeft(q + s) == TrimLeft(s)
  {
    if q != [] {
      assert (q + s)[1..] == q[1..] + s;
      TrimLeftStrips(q[1..], s);
    } else {
      assert q + s == s;
    }
  }

  lemma {:induction false} TrimRightStrips(s: string, q: string)
    requires forall c <- q :: Quote(c)
    ensures TrimRight(s + q) == TrimRight(s)
  {
    if q != [] {
      var k := |q| - 1;
      assert (s + q)[..|s + q| - 1] == s + q[..k];
      TrimRightStrips(s, q[..k]);
    } else {
      assert s + q == s;
    }
  }

  /** Any quotation marks around a string that has none at its ends are taken off. */
  lemma TrimUnquotes(p: string, s: string, q: string)
    requires (forall c <- p :: Quote(c)) && (forall c <- q :: Quote(c))
    requires s != [] && !Quote(s[0]) && !Quote(s[|s| - 1])
    ensures Trim(p + s + q) == s
  {
    assert p + s + q == p + (s + q);
    TrimLeftStrips(p, s + q);
    assert TrimLeft(s + q) == s + q;
    TrimRightStrips(s, q);
  }

  /** Names do not begin or end with a quotation mark. */
  ghost predicate Unquoted(t: Table)
    requires t.Valid()
  {
    && (forall i :: 0 <= i < t.Size() && t.Entry(i) != [] ==>
          !Quote(t.Entry(i)[0]) && !Quote(t.Entry(i)[|t.Entry(i)| - 1]))
    && t.typeName != [] && !Quote(t.typeName[0])
  }

  /** The JSON form of every value, a quoted name, decodes to that value, and to 0 for a value outside the type. */
  lemma JSONRoundTrip(t: Table, v: nat)
    requires t.Valid() && t.Distinct() && ShortNames(t) && NoParenthesis(t) && Unquoted(t)
    ensures FromJSON(t, "\"" + t.NameOf(v) + "\"") == if v < t.Size() then v else 0
  {
    var s := t.NameOf(v);
    if v < t.Size() {
      NameRoundTrip(t, v);
      assert s == t.Entry(v) && s != [];
    } else {
      UnknownValueName(t, v);
      assert s[0] == t.typeName[0] && s[|s| - 1] == ')';
    }
    TrimUnquotes("\"", s, "\"");
  }

  // --- A variable of an enum type -------------------------------------------------------------------------

  class Variable {
    const table: Table
    var value: nat

    constructor (table: Table, value: nat)
      ensures this.table == table && this.value == value
    {
      this.table, this.value := table, value;
    }

    /** UnmarshalMsgpack assigns through its receiver, unless the data is too short. */
    method UnmarshalMsgpack(b: seq<char>) returns (ok: bool)
      requires table.Valid()
      modifies this
      ensures ok <==> FromMsgpack(table, b).Value?
      ensures value == if ok then FromMsgpack(table, b).v else old(value)
    {
      if |b| < 2 {
        return false;
      }
      value := UnString(b[1..], table);
      return true;
    }

    /** UnmarshalJSON never fails. */
    method UnmarshalJSON(b: string)
      requires table.Valid()
      modifies this
      ensures value == FromJSON(table, b)
    {
      value := UnString(Trim(b), table);
    }
  }
}
