/** String primitives of JavaScript as the components use them, restricted to ASCII
    case mapping: `toLowerCase`, `includes`, the whitespace `trim` removes, and the
    decimal rendering of a counter in a template literal. */
module Text {

  /** ASCII `toLowerCase` of one character. */
  function Lower(c: char): (r: char)
    ensures 'A' <= c <= 'Z' ==> r as int == c as int + 32
    ensures !('A' <= c <= 'Z') ==> r == c
  {
    if 'A' <= c <= 'Z' then (c as int + 32) as char else c
  }

  /** `s.toLowerCase()` on ASCII letters. */
  function ToLower(s: string): (r: string)
    ensures |r| == |s|
    ensures forall i :: 0 <= i < |s| ==> r[i] == Lower(s[i])
  {
    if s == [] then [] else [Lower(s[0])] + ToLower(s[1..])
  }

  /** How many UTF-16 code units a character takes: two for one above U+FFFF, which
      JavaScript stores as a surrogate pair. */
  function CodeUnits(c: char): nat
  {
    if c as int < 0x1_0000 then 1 else 2
  }

  /** `s.length`: the number of UTF-16 code units, not of characters. */
  function Utf16Length(s: string): (r: nat)
    ensures |s| <= r <= 2 * |s|
    ensures (forall i :: 0 <= i < |s| ==> s[i] as int < 0x1_0000) ==> r == |s|
  {
    if s == [] then 0 else CodeUnits(s[0]) + Utf16Length(s[1..])
  }

  /** A character above U+FFFF counts twice. */
  lemma AstralCountsTwo()
    ensures Utf16Length("\U{1F600}") == 2
    ensures Utf16Length("ab") == 2
  {
  }

  predicate StartsWith(s: string, prefix: string)
  {
    |prefix| <= |s| && s[..|prefix|] == prefix
  }

  /** `s.includes(q)`: `q` occurs in `s` at some position. */
  predicate Includes(s: string, q: string)
    decreases |s|
  {
    StartsWith(s, q) || (s != [] && Includes(s[1..], q))
  }

  /** `q` occurs in `s` starting at index `i`. */
  predicate OccursAt(s: string, q: string, i: int)
  {
    0 <= i && i + |q| <= |s| && s[i..i + |q|] == q
  }

  /** `Includes` holds exactly when `q` occurs at some index of `s`. */
  lemma {:induction false} IncludesIff(s: string, q: string)
    ensures Includes(s, q) <==> exists i :: OccursAt(s, q, i)
    decreases |s|
  {
    if s != [] {
      IncludesIff(s[1..], q);
      if exists i :: OccursAt(s, q, i) {
        var i :| OccursAt(s, q, i);
        if i > 0 {
          assert s[1..][i - 1..i - 1 + |q|] == s[i..i + |q|];
          assert OccursAt(s[1..], q, i - 1);
        }
      }
      if Includes(s[1..], q) {
        var i :| OccursAt(s[1..], q, i);
        assert s[i + 1..i + 1 + |q|] == s[1..][i..i + |q|];
        assert OccursAt(s, q, i + 1);
      }
      if StartsWith(s, q) {
        assert OccursAt(s, q, 0);
      }
    } else {
      if exists i :: OccursAt(s, q, i) {
        var i :| OccursAt(s, q, i);
        assert q == [] && s[..0] == q;
      }
      if Includes(s, q) {
        assert OccursAt(s, q, 0);
      }
    }
  }

  /** `s.toLowerCase().includes(q.toLowerCase())`. */
  predicate IncludesIgnoringCase(s: string, q: string)
  {
    Includes(ToLower(s), ToLower(q))
  }

  lemma {:induction false} IncludesSelf(s: string)
    ensures Includes(s, s)
  {
    assert s[..|s|] == s;
  }

  /** The empty string occurs in every string. */
  lemma IncludesEmpty(s: string)
    ensures Includes(s, "")
  {
    assert s[..0] == "";
  }

  /** Lowering works character by character. */
  lemma ToLowerAppend(a: string, b: string)
    ensures ToLower(a + b) == ToLower(a) + ToLower(b)
  {
  }

  /** Lowering changes nothing in a string without ASCII capitals. */
  lemma {:induction false} ToLowerIdentity(s: string)
    requires forall i :: 0 <= i < |s| ==> !('A' <= s[i] <= 'Z')
    ensures ToLower(s) == s
  {
  }

  /** An occurrence at a known index is an inclusion. */
  lemma IncludesAt(s: string, q: string, i: int)
    requires OccursAt(s, q, i)
    ensures Includes(s, q)
  {
    IncludesIff(s, q);
  }

  /** A lower-case query at the start of a lower-case text is found ignoring case. */
  lemma PrefixIncludedIgnoringCase(s: string, q: string)
    requires forall i :: 0 <= i < |s| ==> !('A' <= s[i] <= 'Z')
    requires StartsWith(s, q)
    ensures IncludesIgnoringCase(s, q)
  {
    ToLowerIdentity(s);
    assert forall i :: 0 <= i < |q| ==> q[i] == s[i];
    ToLowerIdentity(q);
  }

  /** A longer string never occurs inside a shorter one. */
  lemma NotIncludesLonger(s: string, q: string)
    requires |s| < |q|
    ensures !Includes(s, q) && !IncludesIgnoringCase(s, q)
  {
    IncludesIff(s, q);
    IncludesIff(ToLower(s), ToLower(q));
  }

  /** A character that `String.prototype.trim` removes (white space and line terminators). */
  predicate IsWhitespace(c: char)
  {
    c == ' ' || (9 <= c as int <= 13) || c as int == 0xA0 || c as int == 0x1680
    || (0x2000 <= c as int <= 0x200A) || c as int == 0x2028 || c as int == 0x2029
    || c as int == 0x202F || c as int == 0x205F || c as int == 0x3000 || c as int == 0xFEFF
  }

  /** `!s.trim()`: nothing is left once white space is trimmed. */
  predicate IsBlank(s: string)
  {
    forall i :: 0 <= i < |s| ==> IsWhitespace(s[i])
  }

  /** `s.trimStart()`. */
  function TrimStart(s: string): (r: string)
    ensures |r| <= |s|
    ensures r == [] || !IsWhitespace(r[0])
    ensures r == s[|s| - |r|..]
    ensures forall i :: 0 <= i < |s| - |r| ==> IsWhitespace(s[i])
  {
    if s != [] && IsWhitespace(s[0]) then
      var r := TrimStart(s[1..]);
      assert forall i :: 1 <= i < |s| - |r| ==> s[i] == s[1..][i - 1];
      r
    else s
  }

  /** `s.trimEnd()`. */
  function TrimEnd(s: string): (r: string)
    ensures |r| <= |s|
    ensures r == [] || !IsWhitespace(r[|r| - 1])
    ensures r == s[..|r|]
    ensures forall i :: |r| <= i < |s| ==> IsWhitespace(s[i])
  {
    if s != [] && IsWhitespace(s[|s| - 1]) then
      var r := TrimEnd(s[..|s| - 1]);
      assert forall i :: |r| <= i < |s| - 1 ==> s[i] == s[..|s| - 1][i];
      r
    else s
  }

  /** `s.trim()`. */
  function Trim(s: string): string
  {
    TrimEnd(TrimStart(s))
  }

  /** Trimming a string without white space changes nothing. */
  lemma TrimWithoutWhitespace(s: string)
    requires forall i :: 0 <= i < |s| ==> !IsWhitespace(s[i])
    ensures Trim(s) == s
  {
    assert |TrimStart(s)| == |s|;
  }

  /** `!s.trim()` holds exactly when every character of `s` is white space. */
  lemma BlankIffTrimmedEmpty(s: string)
    ensures Trim(s) == [] <==> IsBlank(s)
  {
  }

  /** `s.substring(a, b)`: both ends clamped to `[0, |s|]`, then swapped if reversed. */
  function Substring(s: string, a: int, b: int): (r: string)
    ensures 0 <= a <= b <= |s| ==> r == s[a..b]
    ensures |r| <= |s|
  {
    var x := if a < 0 then 0 else if a > |s| then |s| else a;
    var y := if b < 0 then 0 else if b > |s| then |s| else b;
    if x <= y then s[x..y] else s[y..x]
  }

  /** `s.split(sep)` for a one-character separator: the pieces between separators, at
      least one (an empty text splits into one empty piece). */
  function Split(s: string, sep: char): (r: seq<string>)
    ensures |r| >= 1
    ensures forall i :: 0 <= i < |r| ==> sep !in r[i]
  {
    if s == [] then [[]]
    else
      var rest := Split(s[1..], sep);
      if s[0] == sep then [[]] + rest else [[s[0]] + rest[0]] + rest[1..]
  }

  /** `pieces.join(sep)`. */
  function Join(pieces: seq<string>, sep: char): string
  {
    if |pieces| == 0 then []
    else if |pieces| == 1 then pieces[0]
    else pieces[0] + [sep] + Join(pieces[1..], sep)
  }

  /** Joining the pieces of a split restores the text. */
  lemma {:induction false} JoinSplit(s: string, sep: char)
    ensures Join(Split(s, sep), sep) == s
  {
    if s != [] {
      JoinSplit(s[1..], sep);
      var rest := Split(s[1..], sep);
      if s[0] == sep {
        assert Split(s, sep)[1..] == rest;
      } else {
        var r := Split(s, sep);
        if |rest| > 1 {
          assert r[1..] == rest[1..];
        }
      }
    }
  }

  /** Splitting a join of separator-free pieces gives the pieces back. */
  lemma {:induction false} SplitJoin(pieces: seq<string>, sep: char)
    requires |pieces| >= 1
    requires forall i :: 0 <= i < |pieces| ==> sep !in pieces[i]
    ensures Split(Join(pieces, sep), sep) == pieces
    decreases |pieces|
  {
    if |pieces| == 1 {
      SplitFree(pieces[0], sep);
    } else {
      SplitJoin(pieces[1..], sep);
      SplitPrefix(pieces[0], Join(pieces[1..], sep), sep);
      assert pieces == [pieces[0]] + pieces[1..];
    }
  }

  /** A text without the separator is one piece. */
  lemma {:induction false} SplitFree(s: string, sep: char)
    requires sep !in s
    ensures Split(s, sep) == [s]
  {
    if s != [] {
      assert sep !in s[1..];
      SplitFree(s[1..], sep);
      assert s[0] != sep;
      assert [s[0]] + s[1..] == s;
    }
  }

  /** A separator-free piece, then a separator, then more text. */
  lemma {:induction false} SplitPrefix(a: string, b: string, sep: char)
    requires sep !in a
    ensures Split(a + [sep] + b, sep) == [a] + Split(b, sep)
  {
    if a == [] {
      assert a + [sep] + b == [sep] + b;
      assert ([sep] + b)[1..] == b;
    } else {
      assert (a + [sep] + b)[1..] == a[1..] + [sep] + b;
      assert sep !in a[1..];
      SplitPrefix(a[1..], b, sep);
      assert [a[0]] + a[1..] == a;
    }
  }

  /** `n` occurrences of the separator: `n + 1` pieces. */
  function Count(s: string, c: char): nat
  {
    if s == [] then 0 else (if s[0] == c then 1 else 0) + Count(s[1..], c)
  }

  lemma {:induction false} SplitCount(s: string, sep: char)
    ensures |Split(s, sep)| == Count(s, sep) + 1
  {
    if s != [] {
      SplitCount(s[1..], sep);
    }
  }

  /** The total length of some pieces. */
  function TotalLength(pieces: seq<string>): nat
  {
    if pieces == [] then 0 else |pieces[0]| + TotalLength(pieces[1..])
  }

  /** A join adds one separator between each two pieces. */
  lemma {:induction false} JoinLength(pieces: seq<string>, sep: char)
    requires |pieces| >= 1
    ensures |Join(pieces, sep)| == TotalLength(pieces) + |pieces| - 1
    decreases |pieces|
  {
    if |pieces| > 1 {
      JoinLength(pieces[1..], sep);
    }
  }

  function DigitChar(d: nat): (c: char)
    requires d < 10
    ensures '0' <= c <= '9'
  {
    ('0' as int + d) as char
  }

  /** The decimal digits of `n`, as `${n}` renders a non-negative integer. */
  function NatToString(n: nat): (r: string)
    ensures |r| >= 1
    ensures forall i :: 0 <= i < |r| ==> '0' <= r[i] <= '9'
    ensures (r[0] == '0') ==> n == 0
  {
    if n < 10 then [DigitChar(n)] else NatToString(n / 10) + [DigitChar(n % 10)]
  }

  /** Different numbers render differently. */
  lemma {:induction false} NatToStringInjective(m: nat, n: nat)
    requires NatToString(m) == NatToString(n)
    ensures m == n
  {
    if m >= 10 && n >= 10 {
      var a, b := NatToString(m / 10), NatToString(n / 10);
      assert NatToString(m) == a + [DigitChar(m % 10)];
      assert NatToString(n) == b + [DigitChar(n % 10)];
      assert a == NatToString(m)[..|a|];
      assert b == NatToString(n)[..|b|];
      NatToStringInjective(m / 10, n / 10);
    }
  }

  /** `s.split(sep).pop()`. */
  function LastPiece(s: string, sep: char): string
  {
    var pieces := Split(s, sep);
    pieces[|pieces| - 1]
  }

  /** `last` is the end of `s` and is all of `s` or follows a separator. */
  predicate EndPiece(s: string, last: string, sep: char)
  {
    |last| <= |s| && s[|s| - |last|..] == last && (|last| < |s| ==> s[|s| - |last| - 1] == sep)
  }

  /** The last piece of a split is the text after the last separator: all of it when
      there is none. */
  lemma {:induction false} SplitLast(s: string, sep: char)
    ensures EndPiece(s, LastPiece(s, sep), sep)
  {
    if s != [] {
      SplitLast(s[1..], sep);
      if s[0] == sep {
        SplitLastSep(s, sep);
      } else if |Split(s[1..], sep)| == 1 {
        SplitLastOne(s, sep);
      } else {
        SplitLastMany(s, sep);
      }
    }
  }

  /** After a leading separator, the last piece is the tail's. */
  lemma SplitLastSep(s: string, sep: char)
    requires s != [] && s[0] == sep
    requires EndPiece(s[1..], LastPiece(s[1..], sep), sep)
    ensures EndPiece(s, LastPiece(s, sep), sep)
  {
    var rest := Split(s[1..], sep);
    assert Split(s, sep) == [[]] + rest;
    assert LastPiece(s, sep) == LastPiece(s[1..], sep);
    EndPieceCons(s, LastPiece(s[1..], sep), sep);
  }

  /** When the tail splits into several pieces, the last one is the tail's. */
  lemma SplitLastMany(s: string, sep: char)
    requires s != [] && s[0] != sep && |Split(s[1..], sep)| > 1
    requires EndPiece(s[1..], LastPiece(s[1..], sep), sep)
    ensures EndPiece(s, LastPiece(s, sep), sep)
  {
    var rest := Split(s[1..], sep);
    var r := Split(s, sep);
    assert r == [[s[0]] + rest[0]] + rest[1..];
    assert r[|r| - 1] == rest[1..][|rest| - 2];
    if |LastPiece(s[1..], sep)| == |s| - 1 {
      SplitFree(s[1..], sep);
    }
    EndPieceCons(s, LastPiece(s[1..], sep), sep);
  }

  /** An end piece of the tail that is shorter than the tail, or preceded by a separator
      head, is an end piece of the whole. */
  lemma EndPieceCons(s: string, last: string, sep: char)
    requires s != [] && EndPiece(s[1..], last, sep)
    requires |last| == |s| - 1 ==> s[0] == sep
    ensures EndPiece(s, last, sep)
  {
    assert s[1..][|s| - 1 - |last|..] == s[|s| - |last|..];
  }

  /** When the tail splits into one piece, the head joins it. */
  lemma SplitLastOne(s: string, sep: char)
    requires s != [] && s[0] != sep && |Split(s[1..], sep)| == 1
    requires EndPiece(s[1..], LastPiece(s[1..], sep), sep)
    ensures EndPiece(s, LastPiece(s, sep), sep)
  {
    var last := LastPiece(s[1..], sep);
    if |last| < |s| - 1 {
      assert sep in s[1..] by {
        assert s[1..][|s| - 1 - |last| - 1] == sep;
      }
      SplitCount(s[1..], sep);
      CountPositive(s[1..], sep);
    }
    assert last == s[1..];
    assert LastPiece(s, sep) == [s[0]] + s[1..];
    assert [s[0]] + s[1..] == s;
  }

  /** A text holding the separator counts it at least once. */
  lemma {:induction false} CountPositive(s: string, c: char)
    requires c in s
    ensures Count(s, c) > 0
  {
    if s[0] != c {
      assert c in s[1..];
      CountPositive(s[1..], c);
    }
  }

  /** The order `Array.prototype.sort` uses by default on strings: lexicographic by
      character code, a proper prefix first. */
  predicate LexLess(a: string, b: string)
    decreases |a|
  {
    if a == [] then b != []
    else if b == [] then false
    else if a[0] < b[0] then true
    else a[0] == b[0] && LexLess(a[1..], b[1..])
  }

  lemma {:induction false} LexIrreflexive(a: string)
    ensures !LexLess(a, a)
    decreases |a|
  {
    if a != [] {
      LexIrreflexive(a[1..]);
    }
  }

  lemma {:induction false} LexAsymmetric(a: string, b: string)
    requires LexLess(a, b)
    ensures !LexLess(b, a)
    decreases |a|
  {
    if a != [] && b != [] && a[0] == b[0] {
      LexAsymmetric(a[1..], b[1..]);
    }
  }

  lemma {:induction false} LexTransitive(a: string, b: string, c: string)
    requires LexLess(a, b) && LexLess(b, c)
    ensures LexLess(a, c)
    decreases |a|
  {
    if a != [] && a[0] == b[0] && b[0] == c[0] {
      LexTransitive(a[1..], b[1..], c[1..]);
    }
  }

  /** Two different strings are ordered one way or the other. */
  lemma {:induction false} LexTotal(a: string, b: string)
    requires a != b
    ensures LexLess(a, b) || LexLess(b, a)
    decreases |a|
  {
    if a != [] && b != [] && a[0] == b[0] {
      assert a == [a[0]] + a[1..] && b == [b[0]] + b[1..];
      LexTotal(a[1..], b[1..]);
    }
  }
}
