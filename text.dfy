/** Rust `str` and `char` operations that the validators and the LaTeX
    serialiser rely on, over strings as sequences of Unicode scalar values. */
module RustStr {

  // ---------------------------------------------------------------------
  // Character classes
  // ---------------------------------------------------------------------

  predicate IsAsciiDigit(c: char) { '0' <= c <= '9' }
  predicate IsAsciiUppercase(c: char) { 'A' <= c <= 'Z' }
  predicate IsAsciiLowercase(c: char) { 'a' <= c <= 'z' }
  predicate IsAsciiAlphabetic(c: char) { IsAsciiUppercase(c) || IsAsciiLowercase(c) }
  predicate IsAsciiAlphanumeric(c: char) { IsAsciiAlphabetic(c) || IsAsciiDigit(c) }
  predicate IsAscii(c: char) { (c as int) < 0x80 }

  /** `char::is_whitespace`: the Unicode White_Space property, complete. */
  predicate IsWhitespace(c: char) {
    var n := c as int;
    (0x09 <= n <= 0x0D) || n == 0x20 || n == 0x85 || n == 0xA0 || n == 0x1680
    || (0x2000 <= n <= 0x200A) || n == 0x2028 || n == 0x2029 || n == 0x202F
    || n == 0x205F || n == 0x3000
  }

  /** `char::is_alphabetic`, exact below U+0100 (ASCII and Latin-1);
      code points from U+0100 on are classed as not alphabetic. */
  predicate IsAlphabetic(c: char) {
    var n := c as int;
    IsAsciiAlphabetic(c) || n == 0xAA || n == 0xB5 || n == 0xBA
    || (0xC0 <= n <= 0xD6) || (0xD8 <= n <= 0xF6) || (0xF8 <= n <= 0xFF)
  }

  /** `char::is_uppercase`, exact below U+0100. */
  predicate IsUppercase(c: char) {
    var n := c as int;
    IsAsciiUppercase(c) || (0xC0 <= n <= 0xD6) || (0xD8 <= n <= 0xDE)
  }

  /** `char::is_numeric`, exact below U+0100 (digits, superscripts, fractions). */
  predicate IsNumeric(c: char) {
    var n := c as int;
    IsAsciiDigit(c) || n == 0xB2 || n == 0xB3 || n == 0xB9 || (0xBC <= n <= 0xBE)
  }

  predicate IsAlphanumeric(c: char) { IsAlphabetic(c) || IsNumeric(c) }

  // ---------------------------------------------------------------------
  // Length in bytes
  // ---------------------------------------------------------------------

  /** Number of bytes the UTF-8 encoding of `c` occupies. */
  function Utf8Width(c: char): (w: nat)
    ensures 1 <= w <= 4
    ensures w == 1 <==> IsAscii(c)
  {
    var n := c as int;
    if n < 0x80 then 1 else if n < 0x800 then 2 else if n < 0x10000 then 3 else 4
  }

  /** `str::len`: the length of the UTF-8 encoding. */
  function ByteLen(s: string): nat
  {
    if |s| == 0 then 0 else ByteLen(s[..|s| - 1]) + Utf8Width(s[|s| - 1])
  }

  lemma {:induction false} ByteLenAppend(s: string, t: string)
    ensures ByteLen(s + t) == ByteLen(s) + ByteLen(t)
    decreases |t|
  {
    if |t| == 0 {
      assert s + t == s;
    } else {
      assert (s + t)[..|s + t| - 1] == s + t[..|t| - 1];
      ByteLenAppend(s, t[..|t| - 1]);
    }
  }

  /** A string never has fewer bytes than characters, and has exactly as
      many precisely when every character is ASCII. */
  lemma {:induction false} ByteLenBounds(s: string)
    ensures |s| <= ByteLen(s) <= 4 * |s|
    ensures ByteLen(s) == |s| <==> forall i :: 0 <= i < |s| ==> IsAscii(s[i])
  {
    if |s| > 0 {
      var p := s[..|s| - 1];
      ByteLenBounds(p);
      assert forall i :: 0 <= i < |p| ==> p[i] == s[i];
    }
  }

  lemma ByteLenEmpty(s: string)
    ensures ByteLen(s) == 0 <==> |s| == 0
  {
    ByteLenBounds(s);
  }

  // ---------------------------------------------------------------------
  // Searching, replacing, joining, splitting
  // ---------------------------------------------------------------------

  /** Number of occurrences of `c` in `s`. */
  function Count(s: string, c: char): nat
  {
    if |s| == 0 then 0 else (if s[0] == c then 1 else 0) + Count(s[1..], c)
  }

  lemma {:induction false} CountZero(s: string, c: char)
    ensures Count(s, c) == 0 <==> c !in s
  {
    if |s| > 0 {
      CountZero(s[1..], c);
      assert s == [s[0]] + s[1..];
    }
  }

  /** `str::replace` with a one-character pattern: every `c` becomes `r`. */
  function ReplaceChar(s: string, c: char, r: string): string
  {
    if |s| == 0 then "" else (if s[0] == c then r else [s[0]]) + ReplaceChar(s[1..], c, r)
  }

  lemma {:induction false} ReplaceCharAppend(s: string, t: string, c: char, r: string)
    ensures ReplaceChar(s + t, c, r) == ReplaceChar(s, c, r) + ReplaceChar(t, c, r)
    decreases |s|
  {
    if |s| == 0 {
      assert s + t == t;
    } else {
      assert (s + t)[1..] == s[1..] + t;
      ReplaceCharAppend(s[1..], t, c, r);
    }
  }

  lemma {:induction false} ReplaceCharAbsent(s: string, c: char, r: string)
    requires c !in s
    ensures ReplaceChar(s, c, r) == s
  {
    if |s| > 0 {
      ReplaceCharAbsent(s[1..], c, r);
      assert s == [s[0]] + s[1..];
    }
  }

  /** `[..].join(sep)`. */
  function Join(parts: seq<string>, sep: string): string
  {
    if |parts| == 0 then ""
    else if |parts| == 1 then parts[0]
    else parts[0] + sep + Join(parts[1..], sep)
  }

  /** `str::split(c).collect()`: the pieces between occurrences of `c`;
      there is always at least one piece. */
  function Split(s: string, c: char): (parts: seq<string>)
    ensures |parts| >= 1
  {
    if |s| == 0 then [""]
    else if s[0] == c then [""] + Split(s[1..], c)
    else
      var rest := Split(s[1..], c);
      [[s[0]] + rest[0]] + rest[1..]
  }

  /** Splitting yields one more piece than there are separators, no piece
      holds the separator, and joining the pieces gives the string back. */
  lemma SplitJoin(s: string, c: char)
    ensures |Split(s, c)| == Count(s, c) + 1
    ensures forall i :: 0 <= i < |Split(s, c)| ==> c !in Split(s, c)[i]
    ensures Join(Split(s, c), [c]) == s
  {
    SplitCount(s, c);
    SplitPiecesFree(s, c);
    JoinSplit(s, c);
  }

  lemma {:induction false} SplitCount(s: string, c: char)
    ensures |Split(s, c)| == Count(s, c) + 1
  {
    if |s| > 0 {
      SplitCount(s[1..], c);
    }
  }

  lemma {:induction false} SplitPiecesFree(s: string, c: char)
    ensures forall i :: 0 <= i < |Split(s, c)| ==> c !in Split(s, c)[i]
  {
    if |s| > 0 {
      SplitPiecesFree(s[1..], c);
      var rest := Split(s[1..], c);
      var parts := Split(s, c);
      if s[0] == c {
        assert parts == [""] + rest;
        forall i | 0 <= i < |parts| ensures c !in parts[i] {
          if i > 0 { assert parts[i] == rest[i - 1]; }
        }
      } else {
        assert parts == [[s[0]] + rest[0]] + rest[1..];
        forall i | 0 <= i < |parts| ensures c !in parts[i] {
          if i > 0 { assert parts[i] == rest[i]; }
        }
      }
    }
  }

  lemma {:induction false} JoinSplit(s: string, c: char)
    ensures Join(Split(s, c), [c]) == s
  {
    if |s| > 0 {
      JoinSplit(s[1..], c);
      var rest := Split(s[1..], c);
      var parts := Split(s, c);
      if s[0] == c {
        assert parts == [""] + rest;
        assert parts[1..] == rest;
        assert s == [c] + s[1..];
      } else {
        assert parts == [[s[0]] + rest[0]] + rest[1..];
        if |rest| > 1 {
          assert parts[1..] == rest[1..];
          assert Join(rest, [c]) == rest[0] + [c] + Join(rest[1..], [c]);
          assert Join(parts, [c]) == [s[0]] + rest[0] + [c] + Join(rest[1..], [c]);
        } else {
          assert Join(parts, [c]) == [s[0]] + rest[0];
        }
        assert s == [s[0]] + s[1..];
      }
    }
  }

  /** Splitting after a separator-free piece and one separator peels off
      exactly that piece. */
  lemma {:induction false} SplitAfterPiece(w: string, c: char, t: string)
    requires c !in w
    ensures Split(w + [c] + t, c) == [w] + Split(t, c)
  {
    if |w| == 0 {
      assert w + [c] + t == [c] + t;
      assert ([c] + t)[1..] == t;
    } else {
      assert c !in w[1..];
      SplitAfterPiece(w[1..], c, t);
      assert (w + [c] + t)[1..] == w[1..] + [c] + t;
      assert [w[0]] + w[1..] == w;
    }
  }

  /** Joining separator-free pieces and splitting again gives the pieces
      back: the two are inverse on such lists. */
  lemma {:induction false} SplitOfJoin(parts: seq<string>, c: char)
    requires |parts| >= 1
    requires forall i :: 0 <= i < |parts| ==> c !in parts[i]
    ensures Split(Join(parts, [c]), c) == parts
  {
    if |parts| == 1 {
      SplitLast(parts[0], c);
    } else {
      SplitOfJoin(parts[1..], c);
      SplitAfterPiece(parts[0], c, Join(parts[1..], [c]));
      assert parts == [parts[0]] + parts[1..];
    }
  }

  /** The first piece of a split is the text before the first separator. */
  lemma {:induction false} SplitFirst(s: string, c: char)
    ensures Split(s, c)[0] == (if c in s then s[..FirstIndex(s, c)] else s)
  {
    if |s| > 0 && s[0] != c {
      SplitFirst(s[1..], c);
      if c in s {
        assert c in s[1..];
        assert s[..FirstIndex(s, c)] == [s[0]] + s[1..][..FirstIndex(s[1..], c)];
      } else {
        assert s == [s[0]] + s[1..];
      }
    }
  }

  /** Index of the first `c` in `s`. */
  function FirstIndex(s: string, c: char): (k: nat)
    requires c in s
    ensures k < |s| && s[k] == c && c !in s[..k]
  {
    if s[0] == c then 0 else FirstIndex(s[1..], c) + 1
  }

  /** The last piece of a split is the text after the last separator. */
  lemma {:induction false} SplitLast(s: string, c: char)
    ensures c in s ==> Last(Split(s, c)) == s[LastIndex(s, c) + 1..]
    ensures c !in s ==> Split(s, c) == [s]
  {
    if |s| > 0 {
      var rest := Split(s[1..], c);
      var parts := Split(s, c);
      SplitLast(s[1..], c);
      if c in s[1..] {
        assert |rest| >= 2 by {
          SplitJoin(s[1..], c);
          CountZero(s[1..], c);
        }
        assert Last(parts) == Last(rest);
        assert LastIndex(s, c) == LastIndex(s[1..], c) + 1;
        assert s[LastIndex(s, c) + 1..] == s[1..][LastIndex(s[1..], c) + 1..];
      } else if s[0] == c {
        assert parts == [""] + rest;
        assert LastIndex(s, c) == 0;
      } else {
        assert rest == [s[1..]];
        assert [s[0]] + s[1..] == s;
        assert parts == [s];
      }
    }
  }

  function Last(parts: seq<string>): string
    requires |parts| > 0
  {
    parts[|parts| - 1]
  }

  /** Index of the last `c` in `s`. */
  function LastIndex(s: string, c: char): (k: nat)
    requires c in s
    ensures k < |s| && s[k] == c && c !in s[k + 1..]
  {
    if c in s[1..] then LastIndex(s[1..], c) + 1
    else
      assert s[0] == c by {
        assert forall j :: 1 <= j < |s| ==> s[j] == s[1..][j - 1];
      }
      0
  }

  /** `split(c)` gives exactly two non-empty pieces exactly when `c`
      occurs once, neither first nor last. */
  lemma TwoNonEmptyParts(s: string, c: char)
    ensures var parts := Split(s, c);
      (|parts| == 2 && parts[0] != "" && parts[1] != "")
      <==> (Count(s, c) == 1 && |s| >= 2 && s[0] != c && s[|s| - 1] != c)
  {
    var parts := Split(s, c);
    SplitJoin(s, c);
    SplitFirst(s, c);
    SplitLast(s, c);
    CountZero(s, c);
    if Count(s, c) == 1 {
      var k := FirstIndex(s, c);
      CountSplitAt(s, k, c);
      CountZero(s[..k], c);
      assert s[k..][1..] == s[k + 1..];
      CountZero(s[k + 1..], c);
      assert LastIndex(s, c) == k;
    }
  }

  lemma {:induction false} CountSplitAt(s: string, k: nat, c: char)
    requires k <= |s|
    ensures Count(s, c) == Count(s[..k], c) + Count(s[k..], c)
  {
    if k > 0 {
      CountSplitAt(s[1..], k - 1, c);
      assert s[1..][..k - 1] == s[..k][1..];
      assert s[1..][k - 1..] == s[k..];
    }
  }

  /** `str::strip_prefix(c).unwrap_or(s)`. */
  function StripPrefix(s: string, c: char): (r: string)
    ensures |s| > 0 && s[0] == c ==> r == s[1..]
    ensures (|s| == 0 || s[0] != c) ==> r == s
  {
    if |s| > 0 && s[0] == c then s[1..] else s
  }

  // ---------------------------------------------------------------------
  // Whitespace: trim and split_whitespace
  // ---------------------------------------------------------------------

  predicate AllWhitespace(s: string) { forall i :: 0 <= i < |s| ==> IsWhitespace(s[i]) }

  /** `str::trim_start`: `s` without its leading White_Space. */
  function TrimStart(s: string): string
  {
    if |s| == 0 then s
    else if IsWhitespace(s[0]) then TrimStart(s[1..])
    else s
  }

  /** What `trim_start` keeps is a suffix of `s` that does not start with
      whitespace, and what it cuts off is all whitespace. */
  lemma {:induction false} TrimStartFacts(s: string)
    ensures var r := TrimStart(s);
      && |r| <= |s| && r == s[|s| - |r|..]
      && (r == "" || !IsWhitespace(r[0]))
      && AllWhitespace(s[..|s| - |r|])
  {
    if |s| > 0 && IsWhitespace(s[0]) {
      TrimStartFacts(s[1..]);
      var r := TrimStart(s[1..]);
      var n := |s| - |r|;
      assert s[1..][..n - 1] == s[1..n];
      assert s[1..][n - 1..] == s[n..];
      forall k | 0 <= k < n ensures IsWhitespace(s[..n][k]) {
        if k > 0 { assert s[..n][k] == s[1..n][k - 1]; }
      }
    }
  }

  /** `str::trim_end`: `s` without its trailing White_Space. */
  function TrimEnd(s: string): string
  {
    if |s| == 0 then s
    else if IsWhitespace(s[|s| - 1]) then TrimEnd(s[..|s| - 1])
    else s
  }

  /** What `trim_end` keeps is a prefix of `s` that does not end with
      whitespace, and what it cuts off is all whitespace. */
  lemma {:induction false} TrimEndFacts(s: string)
    ensures var r := TrimEnd(s);
      && |r| <= |s| && r == s[..|r|]
      && (r == "" || !IsWhitespace(r[|r| - 1]))
      && AllWhitespace(s[|r|..])
  {
    if |s| > 0 && IsWhitespace(s[|s| - 1]) {
      TrimEndFacts(s[..|s| - 1]);
      var r := TrimEnd(s[..|s| - 1]);
      assert s[..|s| - 1][..|r|] == s[..|r|];
      assert s[..|s| - 1][|r|..] + [s[|s| - 1]] == s[|r|..];
    }
  }

  /** `str::trim`: `s` with leading and trailing White_Space removed. The
      result is a contiguous piece of `s` that neither starts nor ends with
      whitespace, and everything cut off is whitespace. */
  function Trim(s: string): (r: string)
    ensures r == "" || (!IsWhitespace(r[0]) && !IsWhitespace(r[|r| - 1]))
    ensures exists i :: (0 <= i <= |s| - |r| && r == s[i..i + |r|]
      && AllWhitespace(s[..i]) && AllWhitespace(s[i + |r|..]))
  {
    var t := TrimStart(s);
    TrimStartFacts(s);
    TrimEndFacts(t);
    Window(s, t, TrimEnd(t));
    TrimEnd(t)
  }

  /** A prefix `r` of a suffix `t` of `s` sits in `s` at `|s| - |t|`, and
      what follows `r` in `t` is what follows it in `s`. */
  lemma Window(s: string, t: string, r: string)
    requires |t| <= |s| && t == s[|s| - |t|..]
    requires |r| <= |t| && r == t[..|r|]
    requires AllWhitespace(t[|r|..])
    ensures var i := |s| - |t|;
      && i + |r| <= |s| && r == s[i..i + |r|] && AllWhitespace(s[i + |r|..])
  {
    var i := |s| - |t|;
    assert s[i..][..|r|] == s[i..i + |r|];
    assert s[i + |r|..] == t[|r|..];
  }

  /** A single non-whitespace character is its own trim. */
  lemma TrimOneChar(s: string)
    requires |s| == 1 && !IsWhitespace(s[0])
    ensures !AllWhitespace(s) && Trim(s) == s
    ensures ByteLen(s) == Utf8Width(s[0])
  {
    assert TrimStart(s) == s;
    assert TrimEnd(s) == s;
    assert s[..0] == [];
  }

  /** Trimming leaves nothing exactly when the string is all whitespace. */
  lemma TrimBlank(s: string)
    ensures Trim(s) == "" <==> AllWhitespace(s)
  {
    var t := TrimStart(s);
    var i := |s| - |t|;
    var r := TrimEnd(t);
    TrimStartFacts(s);
    TrimEndFacts(t);
    assert Trim(s) == r;
    if AllWhitespace(s) && t != "" {
      assert false;
    }
    if r == "" {
      assert AllWhitespace(t) by { assert t[|r|..] == t; }
      assert t == "" by { assert t[0..] == t; }
      forall j | 0 <= j < |s| ensures IsWhitespace(s[j]) {
        assert s[..i][j] == s[j];
      }
    }
  }

  /** The longest whitespace-free prefix of `s`. */
  function TakeWord(s: string): (w: string)
    ensures |w| <= |s| && w == s[..|w|]
    ensures forall i :: 0 <= i < |w| ==> !IsWhitespace(w[i])
    ensures |w| < |s| ==> IsWhitespace(s[|w|])
    ensures |s| > 0 && !IsWhitespace(s[0]) ==> |w| >= 1
  {
    if |s| == 0 || IsWhitespace(s[0]) then ""
    else [s[0]] + TakeWord(s[1..])
  }

  /** `str::split_whitespace().collect()`: the maximal runs of
      non-whitespace characters, in order. */
  function SplitWhitespace(s: string): (words: seq<string>)
    decreases |s|
  {
    if |s| == 0 then []
    else if IsWhitespace(s[0]) then SplitWhitespace(s[1..])
    else
      var w := TakeWord(s);
      [w] + SplitWhitespace(s[|w|..])
  }

  /** `s` with every whitespace character dropped. */
  function RemoveWhitespace(s: string): string
  {
    if |s| == 0 then "" else (if IsWhitespace(s[0]) then "" else [s[0]]) + RemoveWhitespace(s[1..])
  }

  lemma {:induction false} RemoveWhitespaceOfWord(w: string, s: string)
    requires forall i :: 0 <= i < |w| ==> !IsWhitespace(w[i])
    ensures RemoveWhitespace(w + s) == w + RemoveWhitespace(s)
    decreases |w|
  {
    if |w| > 0 {
      assert (w + s)[1..] == w[1..] + s;
      RemoveWhitespaceOfWord(w[1..], s);
      assert w == [w[0]] + w[1..];
    } else {
      assert w + s == s;
    }
  }

  /** The words of `split_whitespace` are non-empty, whitespace-free, and
      together they are exactly the non-whitespace characters of `s`. */
  lemma SplitWhitespaceWords(s: string)
    ensures forall k :: 0 <= k < |SplitWhitespace(s)| ==> SplitWhitespace(s)[k] != ""
    ensures forall k, i :: (0 <= k < |SplitWhitespace(s)| && 0 <= i < |SplitWhitespace(s)[k]|
      ==> !IsWhitespace(SplitWhitespace(s)[k][i]))
    ensures Concat(SplitWhitespace(s)) == RemoveWhitespace(s)
  {
    SplitWhitespaceClean(s);
    ConcatWords(s);
  }

  lemma {:induction false} SplitWhitespaceClean(s: string)
    ensures forall k :: 0 <= k < |SplitWhitespace(s)| ==> SplitWhitespace(s)[k] != ""
    ensures forall k, i :: (0 <= k < |SplitWhitespace(s)| && 0 <= i < |SplitWhitespace(s)[k]|
      ==> !IsWhitespace(SplitWhitespace(s)[k][i]))
    decreases |s|
  {
    if |s| > 0 {
      if IsWhitespace(s[0]) {
        SplitWhitespaceClean(s[1..]);
      } else {
        var w := TakeWord(s);
        var rest := s[|w|..];
        SplitWhitespaceClean(rest);
        var words := SplitWhitespace(s);
        var tail := SplitWhitespace(rest);
        assert words == [w] + tail;
        forall k | 1 <= k < |words| ensures words[k] == tail[k - 1] {
        }
      }
    }
  }

  lemma {:induction false} ConcatWords(s: string)
    ensures Concat(SplitWhitespace(s)) == RemoveWhitespace(s)
    decreases |s|
  {
    if |s| > 0 {
      if IsWhitespace(s[0]) {
        ConcatWords(s[1..]);
        assert RemoveWhitespace(s) == "" + RemoveWhitespace(s[1..]);
      } else {
        var w := TakeWord(s);
        var rest := s[|w|..];
        ConcatWords(rest);
        var words := SplitWhitespace(s);
        assert words == [w] + SplitWhitespace(rest);
        assert words[1..] == SplitWhitespace(rest);
        assert s == w + rest;
        RemoveWhitespaceOfWord(w, rest);
      }
    }
  }

  function Concat(parts: seq<string>): string
  {
    if |parts| == 0 then "" else parts[0] + Concat(parts[1..])
  }

  /** A string has no whitespace-separated words exactly when it is blank. */
  lemma {:induction false} SplitWhitespaceEmpty(s: string)
    ensures SplitWhitespace(s) == [] <==> AllWhitespace(s)
    decreases |s|
  {
    if |s| > 0 {
      SplitWhitespaceEmpty(s[1..]);
      if IsWhitespace(s[0]) {
        assert AllWhitespace(s) <==> AllWhitespace(s[1..]) by {
          assert forall i :: 1 <= i < |s| ==> s[i] == s[1..][i - 1];
        }
      }
    }
  }

  // ---------------------------------------------------------------------
  // Filtering
  // ---------------------------------------------------------------------

  /** `chars().filter(|c| c.is_ascii_digit()).collect::<String>()`. */
  function AsciiDigits(s: string): (d: string)
    ensures |d| <= |s|
    ensures forall i :: 0 <= i < |d| ==> IsAsciiDigit(d[i])
  {
    if |s| == 0 then ""
    else (if IsAsciiDigit(s[0]) then [s[0]] else "") + AsciiDigits(s[1..])
  }

  /** Number of ASCII digits in `s`. */
  function DigitCount(s: string): nat
  {
    if |s| == 0 then 0 else (if IsAsciiDigit(s[0]) then 1 else 0) + DigitCount(s[1..])
  }

  /** Counting digits distributes over concatenation. */
  lemma {:induction false} DigitCountAppend(s: string, t: string)
    ensures DigitCount(s + t) == DigitCount(s) + DigitCount(t)
  {
    if |s| > 0 {
      assert (s + t)[1..] == s[1..] + t;
      DigitCountAppend(s[1..], t);
    } else {
      assert s + t == t;
    }
  }

  /** The filtered digit string has one byte per digit of the input. */
  lemma {:induction false} AsciiDigitsLen(s: string)
    ensures ByteLen(AsciiDigits(s)) == |AsciiDigits(s)| == DigitCount(s)
  {
    if |s| > 0 {
      AsciiDigitsLen(s[1..]);
    }
    var d := AsciiDigits(s);
    ByteLenBounds(d);
  }
}
