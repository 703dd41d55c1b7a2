/**
 * The handful of JavaScript string operations the application relies on:
 * `trim`, `split` on one character, `join`, `startsWith`, `slice(0, n)`,
 * prefix tests after `toLowerCase`, and decimal rendering of integers
 * (used in render identifiers and file names).
 *
 * Characters are Unicode scalar values; JavaScript counts UTF-16 code units.
 * The two agree on every string without astral-plane characters.
 */
module Text {

  /** The characters `String.prototype.trim` removes: ECMAScript WhiteSpace and LineTerminator. */
  predicate IsSpace(c: char) {
    || c == ' ' || c == '\t' || c == '\n' || c == '\r'
    || c == '\U{000B}' || c == '\U{000C}' || c == '\U{00A0}' || c == '\U{1680}'
    || ('\U{2000}' <= c <= '\U{200A}')
    || c == '\U{2028}' || c == '\U{2029}' || c == '\U{202F}' || c == '\U{205F}'
    || c == '\U{3000}' || c == '\U{FEFF}'
  }

  /** Every character is white space (JavaScript: `s.trim() === ''`). */
  predicate Blank(s: string) {
    forall i :: 0 <= i < |s| ==> IsSpace(s[i])
  }

  predicate IsPrefix(p: string, s: string) {
    |p| <= |s| && s[..|p|] == p
  }

  /** Leading white space removed: the longest suffix that starts with a non-space. */
  function TrimStart(s: string): (r: string)
    ensures |r| <= |s|
  {
    if |s| > 0 && IsSpace(s[0]) then TrimStart(s[1..]) else s
  }

  /** Trailing white space removed: the longest prefix that ends with a non-space. */
  function TrimEnd(s: string): (r: string)
    ensures |r| <= |s|
  {
    if |s| > 0 && IsSpace(s[|s| - 1]) then TrimEnd(s[..|s| - 1]) else s
  }

  /** JavaScript's `s.trim()`. */
  function Trim(s: string): string {
    TrimEnd(TrimStart(s))
  }

  /** JavaScript's `s.split(sep)` for a one-character separator: never empty. */
  function Split(s: string, sep: char): (parts: seq<string>)
    ensures |parts| >= 1
    ensures forall i :: 0 <= i < |parts| ==> sep !in parts[i]
  {
    if s == [] then [[]]
    else
      var rest := Split(s[1..], sep);
      if s[0] == sep then [[]] + rest
      else [[s[0]] + rest[0]] + rest[1..]
  }

  /** JavaScript's `parts.join(sep)` for a one-character separator. */
  function Join(parts: seq<string>, sep: char): string {
    if |parts| == 0 then []
    else if |parts| == 1 then parts[0]
    else parts[0] + [sep] + Join(parts[1..], sep)
  }

  /** Index of the first occurrence of `c` in `s`. */
  function IndexOf(s: string, c: char): (i: nat)
    requires c in s
    ensures i < |s| && s[i] == c && c !in s[..i]
  {
    if s[0] == c then 0 else 1 + IndexOf(s[1..], c)
  }

  /** JavaScript's `s.slice(0, n)`. */
  function Take(s: string, n: nat): (r: string)
    ensures IsPrefix(r, s)
    ensures |r| == if |s| <= n then |s| else n
  {
    if |s| <= n then s else s[..n]
  }

  // ---------------------------------------------------------------- trim

  /** `TrimStart` removes a blank prefix and stops at the first non-space. */
  lemma {:induction false} TrimStartSpec(s: string)
    ensures var r := TrimStart(s);
      r == s[|s| - |r|..] && Blank(s[..|s| - |r|]) && (r == [] || !IsSpace(r[0]))
  {
    if |s| > 0 && IsSpace(s[0]) {
      TrimStartSpec(s[1..]);
      var r := TrimStart(s);
      assert s[1..][|s| - 1 - |r|..] == s[|s| - |r|..];
      forall k | 0 <= k < |s| - |r| ensures IsSpace(s[k]) {
        if k > 0 { assert s[k] == s[1..][..|s| - 1 - |r|][k - 1]; }
      }
    }
  }

  /** `TrimEnd` removes a blank suffix and stops at the last non-space. */
  lemma {:induction false} TrimEndSpec(s: string)
    ensures var r := TrimEnd(s);
      r == s[..|r|] && Blank(s[|r|..]) && (r == [] || !IsSpace(r[|r| - 1]))
  {
    if |s| > 0 && IsSpace(s[|s| - 1]) {
      var s' := s[..|s| - 1];
      TrimEndSpec(s');
      var r := TrimEnd(s);
      assert s'[..|r|] == s[..|r|];
      forall k | |r| <= k < |s| ensures IsSpace(s[k]) {
        if k < |s| - 1 { assert s[k] == s'[|r|..][k - |r|]; }
      }
    }
  }

  lemma {:induction false} TrimStartOfBlank(a: string, b: string)
    requires Blank(a)
    ensures TrimStart(a + b) == TrimStart(b)
  {
    if a != [] {
      assert (a + b)[0] == a[0] && IsSpace(a[0]);
      assert (a + b)[1..] == a[1..] + b;
      assert TrimStart(a + b) == TrimStart(a[1..] + b);
      assert Blank(a[1..]) by {
        forall k | 0 <= k < |a| - 1 ensures IsSpace(a[1..][k]) { assert a[1..][k] == a[k + 1]; }
      }
      TrimStartOfBlank(a[1..], b);
    } else {
      assert a + b == b;
    }
  }

  lemma {:induction false} TrimStartOfNonBlank(a: string, b: string)
    requires !Blank(a)
    ensures TrimStart(a + b) == TrimStart(a) + b
  {
    if IsSpace(a[0]) {
      assert (a + b)[1..] == a[1..] + b;
      assert !Blank(a[1..]) by {
        var i :| 0 <= i < |a| && !IsSpace(a[i]);
        assert a[1..][i - 1] == a[i];
      }
      TrimStartOfNonBlank(a[1..], b);
    }
  }

  lemma {:induction false} TrimEndOfBlank(a: string, b: string)
    requires Blank(b)
    ensures TrimEnd(a + b) == TrimEnd(a)
    decreases |b|
  {
    if b != [] {
      var b' := b[..|b| - 1];
      assert (a + b)[|a + b| - 1] == b[|b| - 1] && IsSpace(b[|b| - 1]);
      assert (a + b)[..|a + b| - 1] == a + b';
      assert TrimEnd(a + b) == TrimEnd(a + b');
      assert Blank(b') by {
        forall k | 0 <= k < |b'| ensures IsSpace(b'[k]) { assert b'[k] == b[k]; }
      }
      TrimEndOfBlank(a, b');
    } else {
      assert a + b == a;
    }
  }

  /** `trim()` yields the empty string exactly on blank input. */
  lemma TrimEmptyIffBlank(s: string)
    ensures Trim(s) == [] <==> Blank(s)
  {
    var t := TrimStart(s);
    TrimStartSpec(s);
    TrimEndSpec(t);
    if Trim(s) == [] {
      assert t[0..] == t;
      assert Blank(t);
      assert t == [];
      assert s == s[..|s| - |t|] + t;
    }
  }

  /** A non-empty `trim()` result neither starts nor ends with white space. */
  lemma TrimmedEnds(s: string)
    ensures Trim(s) != [] ==> !IsSpace(Trim(s)[0]) && !IsSpace(Trim(s)[|Trim(s)| - 1])
  {
    var t := TrimStart(s);
    var r := TrimEnd(t);
    TrimStartSpec(s);
    TrimEndSpec(t);
    if r != [] {
      assert r[0] == t[0];
    }
  }

  /** Trimming twice is trimming once. */
  lemma TrimIdempotent(s: string)
    ensures Trim(Trim(s)) == Trim(s)
  {
    var r := Trim(s);
    TrimmedEnds(s);
  }

  /** Trimming what is already trimmed at the front only trims the end. */
  lemma TrimOfTrimStart(s: string)
    ensures Trim(TrimStart(s)) == Trim(s)
  {
  }

  /** Appending white space does not change the trimmed text. */
  lemma TrimAppendBlank(p: string, w: string)
    requires Blank(w)
    ensures Trim(p + w) == Trim(p)
  {
    if Blank(p) {
      assert Blank(p + w);
      TrimStartOfBlank(p + w, []);
      assert p + w + [] == p + w;
      assert TrimStart(p + w) == [] by { TrimEmptyIffBlank(p + w); TrimStartOfBlank(p + w, []); }
      TrimStartOfBlank(p, []);
      assert p + [] == p;
    } else {
      TrimStartOfNonBlank(p, w);
      TrimEndOfBlank(TrimStart(p), w);
    }
  }

  // ---------------------------------------------------------------- split / join

  /** Splitting and re-joining on the same character gives the text back. */
  lemma {:induction false} JoinSplit(s: string, sep: char)
    ensures Join(Split(s, sep), sep) == s
  {
    if s != [] {
      var rest := Split(s[1..], sep);
      JoinSplit(s[1..], sep);
      if s[0] == sep {
        assert Split(s, sep) == [[]] + rest;
        assert ([[]] + rest)[1..] == rest;
      } else {
        var parts := Split(s, sep);
        assert parts == [[s[0]] + rest[0]] + rest[1..];
        if |rest| == 1 {
          assert Join(rest, sep) == rest[0];
        } else {
          assert Join(rest, sep) == rest[0] + [sep] + Join(rest[1..], sep);
          assert parts[1..] == rest[1..];
        }
      }
    }
  }

  /** Without the separator, `split` returns the whole text as its only part. */
  lemma {:induction false} SplitNoSep(s: string, sep: char)
    requires sep !in s
    ensures Split(s, sep) == [s]
  {
    if s != [] {
      assert s[0] != sep;
      SplitNoSep(s[1..], sep);
      assert [s[0]] + s[1..] == s;
    }
  }

  /** `split` cuts at the first separator and splits the rest again. */
  lemma {:induction false} SplitAtFirst(s: string, sep: char)
    requires sep in s
    ensures var i := IndexOf(s, sep); Split(s, sep) == [s[..i]] + Split(s[i + 1..], sep)
  {
    if s[0] != sep {
      SplitAtFirst(s[1..], sep);
      var i := IndexOf(s, sep);
      assert s[1..][..i - 1] == s[1..i];
      assert s[1..][i..] == s[i + 1..];
      assert [s[0]] + s[1..i] == s[..i];
    }
  }

  /** The first part of `split` is the text up to the first separator. */
  lemma {:induction false} SplitHeadOfConcat(a: string, b: string, sep: char)
    ensures Split(a + b, sep)[0] == if sep in a then Split(a, sep)[0] else a + Split(b, sep)[0]
  {
    if a != [] {
      assert (a + b)[1..] == a[1..] + b;
      SplitHeadOfConcat(a[1..], b, sep);
      assert sep in a <==> a[0] == sep || sep in a[1..];
    } else {
      assert a + b == b;
    }
  }

  /** The first part of `split` is a prefix of the text. */
  lemma {:induction false} SplitHeadIsPrefix(s: string, sep: char)
    ensures IsPrefix(Split(s, sep)[0], s)
  {
    if s != [] {
      SplitHeadIsPrefix(s[1..], sep);
    }
  }

  /** The parts of `split` are the text between consecutive separators. */
  lemma SplitTailJoin(s: string, sep: char)
    requires sep in s
    ensures var i := IndexOf(s, sep);
      Split(s, sep)[0] == s[..i] && Join(Split(s, sep)[1..], sep) == s[i + 1..]
  {
    var i := IndexOf(s, sep);
    SplitAtFirst(s, sep);
    JoinSplit(s[i + 1..], sep);
  }

  // ------------------------------------------------- first line of trimmed text

  /** The index of the first line that is not blank, or `|lines|` when all are. */
  function FirstNonBlank(lines: seq<string>): (j: nat)
    ensures j <= |lines|
    ensures forall i :: 0 <= i < j ==> Blank(lines[i])
    ensures j < |lines| ==> !Blank(lines[j])
  {
    if lines == [] then 0
    else if !Blank(lines[0]) then 0
    else 1 + FirstNonBlank(lines[1..])
  }

  /**
   * After leading white space is removed from lines joined with newlines,
   * the first line (trimmed) is the first non-blank input line (trimmed).
   */
  lemma {:induction false} FirstLineAfterTrimStart(lines: seq<string>)
    requires |lines| >= 1
    requires forall i :: 0 <= i < |lines| ==> '\n' !in lines[i]
    ensures FirstNonBlank(lines) == |lines| ==> Blank(Join(lines, '\n'))
    ensures FirstNonBlank(lines) < |lines| ==>
      Trim(Split(TrimStart(Join(lines, '\n')), '\n')[0]) == Trim(lines[FirstNonBlank(lines)])
  {
    var l0 := lines[0];
    if !Blank(l0) {
      FirstLineIsNonBlankHead(lines);
    } else if |lines| == 1 {
      assert Join(lines, '\n') == l0;
    } else {
      var tail := Join(lines[1..], '\n');
      assert Join(lines, '\n') == (l0 + ['\n']) + tail;
      assert Blank(l0 + ['\n']);
      TrimStartOfBlank(l0 + ['\n'], tail);
      FirstLineAfterTrimStart(lines[1..]);
      var j := FirstNonBlank(lines);
      assert j == 1 + FirstNonBlank(lines[1..]);
      if j == |lines| {
        assert Blank(Join(lines, '\n')) by {
          var whole := Join(lines, '\n');
          forall k | 0 <= k < |whole| ensures IsSpace(whole[k]) {
            if k > |l0| { assert whole[k] == tail[k - |l0| - 1]; }
          }
        }
      } else {
        assert lines[j] == lines[1..][j - 1];
      }
    }
  }

  /** The case of the lemma above where the first line is not blank. */
  lemma FirstLineIsNonBlankHead(lines: seq<string>)
    requires |lines| >= 1 && !Blank(lines[0])
    requires forall i :: 0 <= i < |lines| ==> '\n' !in lines[i]
    ensures Trim(Split(TrimStart(Join(lines, '\n')), '\n')[0]) == Trim(lines[0])
  {
    var l0 := lines[0];
    var rest: string := if |lines| == 1 then [] else ['\n'] + Join(lines[1..], '\n');
    assert Join(lines, '\n') == l0 + rest;
    TrimStartOfNonBlank(l0, rest);
    var t := TrimStart(l0);
    TrimStartSpec(l0);
    assert '\n' !in t by {
      forall k | 0 <= k < |t| ensures t[k] != '\n' { assert t[k] == l0[|l0| - |t| + k]; }
    }
    HeadBeforeNewline(t, rest);
    TrimOfTrimStart(l0);
  }

  /** A newline-free text followed by nothing or by a newline is the first line. */
  lemma HeadBeforeNewline(t: string, rest: string)
    requires '\n' !in t
    requires rest == [] || rest[0] == '\n'
    ensures Split(t + rest, '\n')[0] == t
  {
    SplitHeadOfConcat(t, rest, '\n');
    if rest != [] {
      assert Split(rest, '\n')[0] == [];
    }
  }

  /** Removing trailing white space does not change the trimmed first line. */
  lemma FirstLineAfterTrimEnd(y: string)
    ensures Trim(Split(TrimEnd(y), '\n')[0]) == Trim(Split(y, '\n')[0])
  {
    var p := TrimEnd(y);
    TrimEndSpec(y);
    var t := y[|p|..];
    assert y == p + t;
    SplitHeadOfConcat(p, t, '\n');
    if '\n' !in p {
      SplitNoSep(p, '\n');
      BlankFirstPart(t);
      TrimAppendBlank(p, Split(t, '\n')[0]);
    }
  }

  /** The first line of a blank text is blank. */
  lemma BlankFirstPart(t: string)
    requires Blank(t)
    ensures Blank(Split(t, '\n')[0])
  {
    var h := Split(t, '\n')[0];
    SplitHeadIsPrefix(t, '\n');
    forall k | 0 <= k < |h| ensures IsSpace(h[k]) { assert h[k] == t[k]; }
  }

  /**
   * The first line of `Join(lines).trim()`, trimmed, is the first non-blank
   * line, trimmed; when every line is blank the joined text is blank.
   */
  lemma FirstLineOfTrimmed(lines: seq<string>)
    requires |lines| >= 1
    requires forall i :: 0 <= i < |lines| ==> '\n' !in lines[i]
    ensures FirstNonBlank(lines) == |lines| <==> Trim(Join(lines, '\n')) == []
    ensures FirstNonBlank(lines) < |lines| ==>
      Trim(Split(Trim(Join(lines, '\n')), '\n')[0]) == Trim(lines[FirstNonBlank(lines)])
  {
    var s := Join(lines, '\n');
    FirstLineAfterTrimStart(lines);
    FirstLineAfterTrimEnd(TrimStart(s));
    TrimEmptyIffBlank(s);
    var j := FirstNonBlank(lines);
    if j < |lines| {
      TrimEmptyIffBlank(lines[j]);
    }
  }

  // ---------------------------------------------------------------- case

  /**
   * The case mapping of `toLowerCase` restricted to the characters that can
   * lower-case to an ASCII letter: A-Z, and KELVIN SIGN (U+212A) to 'k'.
   * Every other character is left alone, which cannot make it equal to an
   * ASCII letter it was not already.
   */
  function LowerChar(c: char): char {
    if 'A' <= c <= 'Z' then (c as int + 32) as char
    else if c == '\U{212A}' then 'k'
    else c
  }

  /** `s.toLowerCase().startsWith(p)` for a lower-case ASCII prefix `p`. */
  predicate LowerStartsWith(s: string, p: string) {
    |p| <= |s| && forall i :: 0 <= i < |p| ==> LowerChar(s[i]) == p[i]
  }

  // ---------------------------------------------------------------- numbers

  function DigitChar(d: nat): char
    requires d < 10
  {
    "0123456789"[d]
  }

  /** `String(n)` for a non-negative integer: its decimal digits, no leading zero. */
  function NatToString(n: nat): (r: string)
    ensures |r| >= 1
    ensures forall i :: 0 <= i < |r| ==> '0' <= r[i] <= '9'
    ensures n > 0 ==> r[0] != '0'
    decreases n
  {
    if n < 10 then [DigitChar(n)] else NatToString(n / 10) + [DigitChar(n % 10)]
  }

  /** The number a string of decimal digits denotes. */
  function DigitsValue(s: string): nat
    requires forall i :: 0 <= i < |s| ==> '0' <= s[i] <= '9'
  {
    if s == [] then 0 else 10 * DigitsValue(s[..|s| - 1]) + (s[|s| - 1] as int - '0' as int)
  }

  /** Reading the decimal digits back gives the number: `String` is injective on naturals. */
  lemma {:induction false} NatToStringValue(n: nat)
    ensures DigitsValue(NatToString(n)) == n
    decreases n
  {
    if n >= 10 {
      NatToStringValue(n / 10);
      var s := NatToString(n);
      assert s[..|s| - 1] == NatToString(n / 10);
    }
  }

  lemma NatToStringInjective(m: nat, n: nat)
    requires NatToString(m) == NatToString(n)
    ensures m == n
  {
    NatToStringValue(m);
    NatToStringValue(n);
  }
}
