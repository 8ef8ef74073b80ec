/** The string operations of Swift's standard library and Foundation that the
    forms apply to what the user typed: `prefix`, `trimmingCharacters(in:
    .whitespaces)`, `replacingOccurrences(of: ",", with: ".")`,
    `split(separator: ",")` and `data(using: .utf8)`. */
module Text {

  newtype byte = x: int | 0 <= x < 0x100

  /** `s.prefix(n)`: the first `n` characters, or all of `s` when it is shorter. */
  function Prefix(s: string, n: nat): (r: string)
    ensures |r| == if |s| < n then |s| else n
    ensures r <= s
  {
    if |s| < n then s else s[..n]
  }

  /** Membership in `CharacterSet.whitespaces`: the horizontal tab and the
      Unicode space separators (general category Zs). Line breaks are not in it. */
  predicate IsWhitespace(c: char)
  {
    || c == '\t'
    || c == ' '
    || c == '\U{A0}'
    || c == '\U{1680}'
    || ('\U{2000}' <= c <= '\U{200A}')
    || c == '\U{202F}'
    || c == '\U{205F}'
    || c == '\U{3000}'
  }

  predicate IsBlank(s: string)
  {
    forall k :: 0 <= k < |s| ==> IsWhitespace(s[k])
  }

  /** Neither starts nor ends with whitespace. */
  predicate IsTrimmed(s: string)
  {
    s == [] || (!IsWhitespace(s[0]) && !IsWhitespace(s[|s| - 1]))
  }

  /** Drops the leading whitespace: what is left is a suffix of `s`. */
  function TrimStart(s: string): (r: string)
    ensures |r| <= |s| && r == s[|s| - |r|..]
    ensures forall k :: 0 <= k < |s| - |r| ==> IsWhitespace(s[k])
    ensures r != [] ==> !IsWhitespace(r[0])
  {
    if s != [] && IsWhitespace(s[0]) then TrimStart(s[1..]) else s
  }

  /** Drops the trailing whitespace: what is left is a prefix of `s`. */
  function TrimEnd(s: string): (r: string)
    ensures |r| <= |s| && r == s[..|r|]
    ensures forall k :: |r| <= k < |s| ==> IsWhitespace(s[k])
    ensures r != [] ==> !IsWhitespace(r[|r| - 1])
  {
    if s != [] && IsWhitespace(s[|s| - 1]) then TrimEnd(s[..|s| - 1]) else s
  }

  /** `s.trimmingCharacters(in: .whitespaces)`. */
  function Trim(s: string): (r: string)
    ensures r == [] <==> IsBlank(s)
    ensures IsTrimmed(r)
    ensures forall c :: c in r ==> c in s
    ensures IsTrimmed(s) ==> r == s
    ensures exists i, j :: 0 <= i <= j <= |s| && r == s[i..j] && IsBlank(s[..i]) && IsBlank(s[j..])
  {
    TrimSlice(s);
    TrimEmpty(s);
    TrimKeeps(s);
    TrimEnds(s);
    TrimIdle(s);
    TrimEnd(TrimStart(s))
  }

  /** Trimming cuts whitespace off both ends and keeps the middle as it is. */
  lemma {:induction false} TrimSlice(s: string)
    ensures var r := TrimEnd(TrimStart(s));
      exists i, j :: 0 <= i <= j <= |s| && r == s[i..j] && IsBlank(s[..i]) && IsBlank(s[j..])
  {
    var t := TrimStart(s);
    var r := TrimEnd(t);
    var i := |s| - |t|;
    MiddleSlice(s, t, r);
    BlankHead(s, i);
    BlankTail(s, t, |r|);
    assert r == s[i..i + |r|] && IsBlank(s[..i]) && IsBlank(s[i + |r|..]);
  }

  /** A prefix `r` of a suffix `t` of `s` is a slice of `s`. */
  lemma {:induction false} MiddleSlice(s: string, t: string, r: string)
    requires |t| <= |s| && t == s[|s| - |t|..] && |r| <= |t| && r == t[..|r|]
    ensures r == s[|s| - |t|..|s| - |t| + |r|]
  {
  }

  /** The first `m` characters are whitespace: the prefix of length `m` is blank. */
  lemma {:induction false} BlankHead(s: string, m: nat)
    requires m <= |s| && forall k :: 0 <= k < m ==> IsWhitespace(s[k])
    ensures IsBlank(s[..m])
  {
  }

  /** Whitespace after position `n` of a suffix `t` of `s` is whitespace
      after the same place in `s`. */
  lemma {:induction false} BlankTail(s: string, t: string, n: nat)
    requires |t| <= |s| && t == s[|s| - |t|..] && n <= |t|
    requires forall k :: n <= k < |t| ==> IsWhitespace(t[k])
    ensures IsBlank(s[|s| - |t| + n..])
  {
    assert s[|s| - |t| + n..] == t[n..];
  }

  lemma {:induction false} TrimEmpty(s: string)
    ensures TrimEnd(TrimStart(s)) == [] <==> IsBlank(s)
  {
    var t := TrimStart(s);
    if TrimEnd(t) == [] {
      assert t == [];
    }
  }

  lemma {:induction false} TrimEnds(s: string)
    ensures IsTrimmed(TrimEnd(TrimStart(s)))
  {
    var t := TrimStart(s);
    var r := TrimEnd(t);
    assert r != [] ==> r[0] == t[0];
  }

  lemma {:induction false} TrimKeeps(s: string)
    ensures forall c :: c in TrimEnd(TrimStart(s)) ==> c in s
  {
    var t := TrimStart(s);
    var r := TrimEnd(t);
    forall c | c in r
      ensures c in s
    {
      var i :| 0 <= i < |r| && r[i] == c;
      assert s[|s| - |t| + i] == c;
    }
  }

  lemma {:induction false} TrimIdle(s: string)
    ensures IsTrimmed(s) ==> TrimEnd(TrimStart(s)) == s
  {
    if IsTrimmed(s) && s != [] {
      assert TrimStart(s) == s;
    }
  }

  lemma {:induction false} TrimAfterBlank(w: string, t: string)
    requires IsBlank(w) && IsTrimmed(t)
    ensures Trim(w + t) == t
  {
    if w != [] {
      assert (w + t)[1..] == w[1..] + t;
      TrimAfterBlank(w[1..], t);
    } else {
      assert w + t == t;
    }
  }

  /** `s.replacingOccurrences(of: ",", with: ".")`: the decimal comma of a
      Spanish keyboard becomes the decimal point `Double(String)` expects. */
  function ReplaceCommas(s: string): (r: string)
    ensures |r| == |s|
    ensures forall k :: 0 <= k < |s| ==> r[k] == if s[k] == ',' then '.' else s[k]
    ensures ',' !in r
    ensures ',' !in s ==> r == s
  {
    if s == [] then [] else [if s[0] == ',' then '.' else s[0]] + ReplaceCommas(s[1..])
  }

  /** `[p]` unless `p` is empty: `split` leaves out empty pieces. */
  function Piece(p: string): seq<string>
  {
    if p == [] then [] else [p]
  }

  /** `s.split(separator: ",")` after the characters of `piece` have already
      been collected into the current piece. */
  function SplitFrom(s: string, piece: string): (r: seq<string>)
    requires ',' !in piece
    ensures forall k :: 0 <= k < |r| ==> r[k] != [] && ',' !in r[k]
    decreases |s|
  {
    if s == [] then Piece(piece)
    else if s[0] == ',' then Piece(piece) + SplitFrom(s[1..], [])
    else SplitFrom(s[1..], piece + [s[0]])
  }

  /** `s.split(separator: ",")`: the maximal runs of characters other than
      ',', in order, with the empty runs left out. */
  function Split(s: string): (r: seq<string>)
    ensures forall k :: 0 <= k < |r| ==> r[k] != [] && ',' !in r[k]
  {
    SplitFrom(s, [])
  }

  /** The inverse direction: the pieces joined back with `sep` between them. */
  function Join(parts: seq<string>, sep: string): string
  {
    if |parts| == 0 then []
    else if |parts| == 1 then parts[0]
    else Join(parts[..|parts| - 1], sep) + sep + parts[|parts| - 1]
  }

  lemma {:induction false} SplitFromComma(a: string, b: string, piece: string)
    requires ',' !in piece
    ensures SplitFrom(a + "," + b, piece) == SplitFrom(a, piece) + SplitFrom(b, [])
    decreases |a|
  {
    if a == [] {
      assert a + "," + b == [','] + b;
      assert ([','] + b)[1..] == b;
    } else {
      assert (a + "," + b)[0] == a[0];
      assert (a + "," + b)[1..] == a[1..] + "," + b;
      if a[0] == ',' {
        SplitFromComma(a[1..], b, []);
      } else {
        SplitFromComma(a[1..], b, piece + [a[0]]);
      }
    }
  }

  lemma {:induction false} SplitFromNoComma(t: string, piece: string)
    requires ',' !in piece && ',' !in t
    ensures SplitFrom(t, piece) == Piece(piece + t)
    decreases |t|
  {
    if t == [] {
      assert piece + t == piece;
    } else {
      assert t[0] in t;
      assert piece + t == (piece + [t[0]]) + t[1..];
      SplitFromNoComma(t[1..], piece + [t[0]]);
    }
  }

  /** Splitting at a comma is splitting each side. */
  lemma SplitComma(a: string, b: string)
    ensures Split(a + "," + b) == Split(a) + Split(b)
  {
    SplitFromComma(a, b, []);
  }

  /** A text without commas is one piece, or none when it is empty. */
  lemma SplitNoComma(t: string)
    requires ',' !in t
    ensures Split(t) == Piece(t)
  {
    SplitFromNoComma(t, []);
    assert [] + t == t;
  }

  /** Round trip: non-empty pieces without commas, joined with ',', split
      back into the same pieces. */
  lemma {:induction false} SplitJoin(parts: seq<string>)
    requires forall k :: 0 <= k < |parts| ==> parts[k] != [] && ',' !in parts[k]
    ensures Split(Join(parts, ",")) == parts
  {
    if |parts| == 0 {
      SplitNoComma([]);
    } else if |parts| == 1 {
      SplitNoComma(parts[0]);
    } else {
      var init, last := parts[..|parts| - 1], parts[|parts| - 1];
      SplitJoin(init);
      SplitComma(Join(init, ","), last);
      SplitNoComma(last);
      assert parts == init + [last];
    }
  }

  /** `parts.map { $0.trimmingCharacters(in: .whitespaces) }`. */
  function TrimEach(parts: seq<string>): (r: seq<string>)
    ensures |r| == |parts|
    ensures forall k :: 0 <= k < |r| ==> r[k] == Trim(parts[k])
  {
    if parts == [] then [] else [Trim(parts[0])] + TrimEach(parts[1..])
  }

  lemma {:induction false} TrimEachConcat(a: seq<string>, b: seq<string>)
    ensures TrimEach(a + b) == TrimEach(a) + TrimEach(b)
  {
    if a != [] {
      assert (a + b)[1..] == a[1..] + b;
      TrimEachConcat(a[1..], b);
    } else {
      assert a + b == b;
    }
  }

  /** `parts.filter { !$0.isEmpty }`: the non-empty parts, in order. */
  function NonEmpty(parts: seq<string>): (r: seq<string>)
    ensures |r| <= |parts|
    ensures forall k :: 0 <= k < |r| ==> r[k] != [] && r[k] in parts
    ensures forall x :: x in parts && x != [] ==> x in r
    ensures (forall k :: 0 <= k < |parts| ==> parts[k] != []) ==> r == parts
  {
    if parts == [] then []
    else if parts[0] == [] then NonEmpty(parts[1..])
    else [parts[0]] + NonEmpty(parts[1..])
  }

  lemma {:induction false} NonEmptyConcat(a: seq<string>, b: seq<string>)
    ensures NonEmpty(a + b) == NonEmpty(a) + NonEmpty(b)
  {
    if a != [] {
      assert (a + b)[0] == a[0];
      assert (a + b)[1..] == a[1..] + b;
      NonEmptyConcat(a[1..], b);
    } else {
      assert a + b == b;
    }
  }

  /** One character in UTF-8 (RFC 3629): one to four bytes. */
  function EncodeChar(c: char): (r: seq<byte>)
    ensures 1 <= |r| <= 4
    ensures c as int < 0x80 <==> |r| == 1
    ensures |r| == 1 ==> r[0] as int == c as int
    ensures r[0] < 0x80 || 0xC0 <= r[0]
    ensures forall k :: 1 <= k < |r| ==> 0x80 <= r[k] < 0xC0
  {
    var n := c as int;
    if n < 0x80 then [n as byte]
    else if n < 0x800 then [(0xC0 + n / 0x40) as byte, (0x80 + n % 0x40) as byte]
    else if n < 0x10000 then
      [(0xE0 + n / 0x1000) as byte, (0x80 + (n / 0x40) % 0x40) as byte, (0x80 + n % 0x40) as byte]
    else
      [(0xF0 + n / 0x40000) as byte, (0x80 + (n / 0x1000) % 0x40) as byte,
       (0x80 + (n / 0x40) % 0x40) as byte, (0x80 + n % 0x40) as byte]
  }

  predicate IsAscii(s: string)
  {
    forall k :: 0 <= k < |s| ==> s[k] as int < 0x80
  }

  /** `s.data(using: .utf8)!`. */
  function Utf8(s: string): (r: seq<byte>)
    ensures |s| <= |r| <= 4 * |s|
  {
    if s == [] then [] else EncodeChar(s[0]) + Utf8(s[1..])
  }

  /** ASCII text encodes to its own code points, one byte each. */
  lemma {:induction false} Utf8Ascii(s: string)
    requires IsAscii(s)
    ensures |Utf8(s)| == |s|
    ensures forall k :: 0 <= k < |s| ==> Utf8(s)[k] as int == s[k] as int
  {
    if s != [] {
      Utf8Ascii(s[1..]);
      assert Utf8(s) == EncodeChar(s[0]) + Utf8(s[1..]);
    }
  }

  /** Encoding two texts one after the other is encoding them together. */
  lemma {:induction false} Utf8Concat(a: string, b: string)
    ensures Utf8(a + b) == Utf8(a) + Utf8(b)
  {
    if a == [] {
      assert a + b == b;
    } else {
      assert (a + b)[0] == a[0];
      assert (a + b)[1..] == a[1..] + b;
      Utf8Concat(a[1..], b);
    }
  }

  /** No text occurs twice. */
  predicate Distinct(s: seq<string>)
  {
    forall i, j :: 0 <= i < j < |s| ==> s[i] != s[j]
  }

  /** A test for `Distinct` that is cheap on lists of literals: any two
      entries differ in length, in their first or in their last character. */
  predicate Apart(s: seq<string>)
  {
    forall i, j :: 0 <= i < j < |s| ==>
      |s[i]| != |s[j]| || (|s[i]| > 0 && (s[i][0] != s[j][0] || s[i][|s[i]| - 1] != s[j][|s[j]| - 1]))
  }

  lemma ApartDistinct(s: seq<string>)
    requires Apart(s)
    ensures Distinct(s)
  {
  }
}
