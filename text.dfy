/**
 * String helpers shared by the Java back end and the JavaScript front end:
 * the two trim rules, Spring's `hasText`, ASCII case mapping, splitting and
 * joining on a separator, literal replacement, decimal rendering, UTF-16 code
 * units and the `31 * h + c` string hash used by both `String.hashCode` and the
 * particle seed.
 */
module Text {
  import opened Wrappers

  // ---------------------------------------------------------------------------
  // Whitespace classes and trimming

  /** Characters `String.trim` removes in Java: every code point up to U+0020. */
  predicate IsJavaTrimmed(c: char) { c <= ' ' }

  /** `Character.isWhitespace` (used by `hasText` / `isBlank`). */
  predicate IsJavaWhitespace(c: char)
  {
    c == ' ' || ('\t' <= c <= '\r') || ('\U{1C}' <= c <= '\U{1F}')
    || c == '\U{1680}' || ('\U{2000}' <= c <= '\U{2006}') || ('\U{2008}' <= c <= '\U{200A}')
    || c == '\U{2028}' || c == '\U{2029}' || c == '\U{205F}' || c == '\U{3000}'
  }

  /** White space and line terminators removed by JavaScript's `String.prototype.trim`. */
  predicate IsJsSpace(c: char)
  {
    c == ' ' || ('\t' <= c <= '\r') || c == '\U{A0}' || c == '\U{FEFF}'
    || c == '\U{1680}' || ('\U{2000}' <= c <= '\U{200A}') || c == '\U{2028}' || c == '\U{2029}'
    || c == '\U{202F}' || c == '\U{205F}' || c == '\U{3000}'
  }

  /** Drops the longest prefix whose characters satisfy `p`. */
  function DropStart(s: string, p: char -> bool): (r: string)
    ensures |r| <= |s| && r == s[|s| - |r|..]
    ensures r == [] || !p(r[0])
    ensures forall i :: 0 <= i < |s| - |r| ==> p(s[i])
  {
    if s == [] || !p(s[0]) then s else DropStart(s[1..], p)
  }

  /** Drops the longest suffix whose characters satisfy `p`. */
  function DropEnd(s: string, p: char -> bool): (r: string)
    ensures |r| <= |s| && r == s[..|r|]
    ensures r == [] || !p(r[|r| - 1])
    ensures forall i :: |r| <= i < |s| ==> p(s[i])
  {
    if s == [] || !p(s[|s| - 1]) then s else DropEnd(s[..|s| - 1], p)
  }

  function Trim(s: string, p: char -> bool): string
  {
    DropEnd(DropStart(s, p), p)
  }

  /** Java `String.trim()`. */
  function JavaTrim(s: string): string
  {
    Trim(s, IsJavaTrimmed)
  }

  /** JavaScript `String.prototype.trim()`. */
  function JsTrim(s: string): string
  {
    Trim(s, IsJsSpace)
  }

  /** A trimmed string is a slice of the input, starting after the stripped prefix. */
  lemma TrimSlice(s: string, p: char -> bool)
    ensures var k := |s| - |DropStart(s, p)|; var t := Trim(s, p);
      k + |t| <= |s| && t == s[k..k + |t|]
  {
    var a := DropStart(s, p);
    var t := DropEnd(a, p);
    assert t == a[..|t|];
  }

  /** A trimmed string neither starts nor ends with a strippable character. */
  lemma TrimEnds(s: string, p: char -> bool)
    ensures var t := Trim(s, p); t == [] || (!p(t[0]) && !p(t[|t| - 1]))
  {
    var a := DropStart(s, p);
    var t := DropEnd(a, p);
    if t != [] {
      assert t[0] == a[0];
    }
  }

  /** A trimmed string is a contiguous piece of the input with no strippable character at either end. */
  lemma TrimShape(s: string, p: char -> bool)
    ensures var k := |s| - |DropStart(s, p)|; var t := Trim(s, p);
      k + |t| <= |s| && t == s[k..k + |t|]
      && (t == [] || (!p(t[0]) && !p(t[|t| - 1])))
  {
    TrimSlice(s, p);
    TrimEnds(s, p);
  }

  /** Trimming twice is trimming once. */
  lemma TrimIdempotent(s: string, p: char -> bool)
    ensures Trim(Trim(s, p), p) == Trim(s, p)
  {
    var t := Trim(s, p);
    TrimShape(s, p);
    assert DropStart(t, p) == t;
  }

  /** A string trims to nothing exactly when every character of it is strippable. */
  lemma TrimEmpty(s: string, p: char -> bool)
    ensures Trim(s, p) == [] <==> forall i :: 0 <= i < |s| ==> p(s[i])
  {
    var a := DropStart(s, p);
    if a != [] {
      assert !p(a[0]);
      assert DropEnd(a, p) != [];
      assert a[0] == s[|s| - |a|];
    }
  }

  /**
   * `trimToNull` / `normalizeNullable`: `null` stays `null`, a value that trims
   * to the empty string becomes `null`, any other value is stored trimmed.
   */
  function TrimToNull(v: Option<string>): (r: Option<string>)
    ensures r.Some? ==> v.Some? && r.value != []
    ensures r.Some? ==> !IsJavaTrimmed(r.value[0]) && !IsJavaTrimmed(r.value[|r.value| - 1])
    ensures r.None? <==> v.None? || forall i :: 0 <= i < |v.value| ==> IsJavaTrimmed(v.value[i])
  {
    if v.None? then None
    else
      var t := JavaTrim(v.value);
      TrimEnds(v.value, IsJavaTrimmed);
      TrimEmpty(v.value, IsJavaTrimmed);
      if t == [] then None else Some(t)
  }

  /** Normalising a normalised value changes nothing. */
  lemma TrimToNullIdempotent(v: Option<string>)
    ensures TrimToNull(TrimToNull(v)) == TrimToNull(v)
  {
    if v.Some? {
      TrimIdempotent(v.value, IsJavaTrimmed);
    }
  }

  /** Spring `StringUtils.hasText`: not null and some character is not white space. */
  predicate HasText(s: Option<string>)
  {
    s.Some? && exists i :: 0 <= i < |s.value| && !IsJavaWhitespace(s.value[i])
  }

  predicate IsBlank(s: string)
  {
    !HasText(Some(s))
  }

  // ---------------------------------------------------------------------------
  // Case mapping (ASCII letters only)

  function LowerChar(c: char): char
  {
    if 'A' <= c <= 'Z' then (c as int + 32) as char else c
  }

  function Lower(s: string): (r: string)
    ensures |r| == |s|
    ensures forall i :: 0 <= i < |s| ==> r[i] == LowerChar(s[i])
  {
    if s == [] then [] else [LowerChar(s[0])] + Lower(s[1..])
  }

  lemma LowerIdempotent(s: string)
    ensures Lower(Lower(s)) == Lower(s)
  {
  }

  // ---------------------------------------------------------------------------
  // Prefixes, suffixes, substrings

  predicate StartsWith(s: string, prefix: string)
  {
    |prefix| <= |s| && s[..|prefix|] == prefix
  }

  predicate EndsWith(s: string, suffix: string)
  {
    |suffix| <= |s| && s[|s| - |suffix|..] == suffix
  }

  /** `s.contains(pat)` / `s.includes(pat)`. */
  predicate Contains(s: string, pat: string)
    decreases |s|
  {
    StartsWith(s, pat) || (|s| > 0 && Contains(s[1..], pat))
  }

  /** A pattern found at some offset is contained. */
  lemma {:induction false} ContainsAt(s: string, pat: string, k: nat)
    requires k <= |s| && StartsWith(s[k..], pat)
    ensures Contains(s, pat)
    decreases k
  {
    if k > 0 {
      assert s[1..][k - 1..] == s[k..];
      ContainsAt(s[1..], pat, k - 1);
    }
  }

  /** A pattern with a character the text lacks is not contained. */
  lemma NotContains(s: string, pat: string, c: char)
    requires c in pat && c !in s
    ensures !Contains(s, pat)
  {
    if Contains(s, pat) {
      ContainsChar(s, pat, c);
    }
  }

  /** Every character of a contained pattern occurs in the text. */
  lemma {:induction false} ContainsChar(s: string, pat: string, c: char)
    requires Contains(s, pat) && c in pat
    ensures c in s
    decreases |s|
  {
    if !StartsWith(s, pat) {
      ContainsChar(s[1..], pat, c);
    } else {
      assert pat == s[..|pat|];
    }
  }

  /**
   * Java `String.replace(pat, rep)`: every occurrence, scanned left to right
   * without overlap, is replaced.
   */
  function ReplaceAll(s: string, pat: string, rep: string): string
    requires |pat| > 0
    decreases |s|
  {
    if |s| < |pat| then s
    else if StartsWith(s, pat) then rep + ReplaceAll(s[|pat|..], pat, rep)
    else [s[0]] + ReplaceAll(s[1..], pat, rep)
  }

  lemma {:induction false} ReplaceAllAbsent(s: string, pat: string, rep: string)
    requires |pat| > 0 && !Contains(s, pat)
    ensures ReplaceAll(s, pat, rep) == s
    decreases |s|
  {
    if |s| >= |pat| {
      ReplaceAllAbsent(s[1..], pat, rep);
      assert s == [s[0]] + s[1..];
    }
  }

  // ---------------------------------------------------------------------------
  // Splitting and joining on one separator character

  /** JavaScript `s.split(sep)` for a one-character separator: empty pieces are kept. */
  function Split(s: string, sep: char): (r: seq<string>)
    ensures |r| >= 1
    ensures forall i :: 0 <= i < |r| ==> sep !in r[i]
  {
    if s == [] then [[]]
    else
      var rest := Split(s[1..], sep);
      if s[0] == sep then [[]] + rest else [[s[0]] + rest[0]] + rest[1..]
  }

  function Join(parts: seq<string>, sep: string): string
  {
    if |parts| == 0 then []
    else if |parts| == 1 then parts[0]
    else parts[0] + sep + Join(parts[1..], sep)
  }

  /** Splitting and joining back with the same separator gives the original text. */
  lemma {:induction false} JoinSplit(s: string, sep: char)
    ensures Join(Split(s, sep), [sep]) == s
  {
    if s != [] {
      var rest := Split(s[1..], sep);
      JoinSplit(s[1..], sep);
      if s[0] == sep {
        assert Split(s, sep) == [[]] + rest;
      } else {
        var r := Split(s, sep);
        assert r == [[s[0]] + rest[0]] + rest[1..];
        if |rest| == 1 {
          assert Join(r, [sep]) == [s[0]] + rest[0];
        } else {
          assert r[1..] == rest[1..];
          assert Join(r, [sep]) == [s[0]] + rest[0] + [sep] + Join(rest[1..], [sep]);
          assert Join(rest, [sep]) == rest[0] + [sep] + Join(rest[1..], [sep]);
        }
        assert s == [s[0]] + s[1..];
      }
    }
  }

  /** Index of the first `c` in `s`, or `|s|` when there is none. */
  function IndexOf(s: string, c: char): (k: nat)
    ensures k <= |s|
    ensures c !in s[..k]
    ensures k < |s| ==> s[k] == c
  {
    if s == [] then 0 else if s[0] == c then 0 else 1 + IndexOf(s[1..], c)
  }

  /** The first piece of a split is the text before the first separator. */
  lemma {:induction false} SplitHead(s: string, sep: char)
    ensures Split(s, sep)[0] == s[..IndexOf(s, sep)]
  {
    if s != [] && s[0] != sep {
      SplitHead(s[1..], sep);
    }
  }

  /** A piece without the separator splits to itself. */
  lemma {:induction false} SplitNoSep(a: string, sep: char)
    requires sep !in a
    ensures Split(a, sep) == [a]
  {
    if a != [] {
      SplitNoSep(a[1..], sep);
      assert [a[0]] + a[1..] == a;
    }
  }

  /** Splitting at a first separator peels off the piece before it. */
  lemma {:induction false} SplitConcat(a: string, b: string, sep: char)
    requires sep !in a
    ensures Split(a + [sep] + b, sep) == [a] + Split(b, sep)
  {
    var s := a + [sep] + b;
    if a == [] {
      assert s[1..] == b;
    } else {
      assert s[1..] == a[1..] + [sep] + b;
      SplitConcat(a[1..], b, sep);
      assert [a[0]] + a[1..] == a;
    }
  }

  /** Joining pieces that lack the separator and splitting again gives the pieces back. */
  lemma {:induction false} SplitJoin(parts: seq<string>, sep: char)
    requires |parts| >= 1
    requires forall i :: 0 <= i < |parts| ==> sep !in parts[i]
    ensures Split(Join(parts, [sep]), sep) == parts
  {
    if |parts| == 1 {
      SplitNoSep(parts[0], sep);
    } else {
      SplitJoin(parts[1..], sep);
      SplitConcat(parts[0], Join(parts[1..], [sep]), sep);
      assert parts == [parts[0]] + parts[1..];
    }
  }

  /** A string with no strippable character at either end is its own trim. */
  lemma TrimNoOp(s: string, p: char -> bool)
    requires s == [] || (!p(s[0]) && !p(s[|s| - 1]))
    ensures Trim(s, p) == s
  {
  }

  /** Trimming only removes characters. */
  lemma TrimKeeps(s: string, p: char -> bool, c: char)
    requires c in Trim(s, p)
    ensures c in s
  {
    var a := DropStart(s, p);
    var t := DropEnd(a, p);
    var i :| 0 <= i < |t| && t[i] == c;
    assert a[i] == c;
    assert s[|s| - |a| + i] == c;
  }

  // ---------------------------------------------------------------------------
  // Decimal rendering (`Integer.toString`, `String(n)`, `"" + n`)

  function DigitChar(d: int): char
    requires 0 <= d < 10
  {
    ('0' as int + d) as char
  }

  predicate IsDigit(c: char) { '0' <= c <= '9' }

  function NatToString(n: nat): (r: string)
    ensures |r| >= 1
    ensures forall i :: 0 <= i < |r| ==> IsDigit(r[i])
    ensures r[0] == '0' ==> n == 0
  {
    if n < 10 then [DigitChar(n)] else NatToString(n / 10) + [DigitChar(n % 10)]
  }

  function ParseDigits(s: string): nat
    requires forall i :: 0 <= i < |s| ==> IsDigit(s[i])
  {
    if s == [] then 0
    else
      var d := s[|s| - 1];
      assert IsDigit(d);
      ParseDigits(s[..|s| - 1]) * 10 + (d as int - '0' as int)
  }

  /** Decimal rendering is undone by parsing. */
  lemma {:induction false} ParseNatToString(n: nat)
    ensures ParseDigits(NatToString(n)) == n
  {
    if n >= 10 {
      var a := NatToString(n / 10);
      var s := a + [DigitChar(n % 10)];
      assert s[..|s| - 1] == a;
      ParseNatToString(n / 10);
    }
  }

  /** Hence distinct numbers render differently. */
  lemma NatToStringInjective(m: nat, n: nat)
    requires NatToString(m) == NatToString(n)
    ensures m == n
  {
    ParseNatToString(m);
    ParseNatToString(n);
  }

  function IntToString(i: int): string
  {
    if i < 0 then "-" + NatToString(-i) else NatToString(i)
  }

  // ---------------------------------------------------------------------------
  // UTF-16 code units and the 31-multiplier hash

  /** The UTF-16 code units of a string (`charCodeAt` / Java `char`). */
  function Utf16(s: string): (u: seq<int>)
    ensures |u| >= |s|
    ensures forall i :: 0 <= i < |u| ==> 0 <= u[i] < 0x10000
  {
    if s == [] then []
    else
      var c := s[0] as int;
      var head := if c < 0x10000 then [c]
        else [0xD800 + (c - 0x10000) / 0x400, 0xDC00 + (c - 0x10000) % 0x400];
      head + Utf16(s[1..])
  }

  const TwoTo32: int := 0x1_0000_0000

  /**
   * `h = 31 * h + unit` over 32-bit wrap-around, as an unsigned value. Java's
   * `String.hashCode` and the loop `h = Math.imul(31, h) + code | 0` compute the
   * same bits.
   */
  function Hash31(units: seq<int>): (h: int)
    ensures 0 <= h < TwoTo32
  {
    if units == [] then 0
    else (Hash31(units[..|units| - 1]) * 31 + units[|units| - 1]) % TwoTo32
  }

  /** The signed 32-bit reading of an unsigned 32-bit value. */
  function ToInt32(h: int): (r: int)
    requires 0 <= h < TwoTo32
    ensures -0x8000_0000 <= r < 0x8000_0000
    ensures (r - h) % TwoTo32 == 0
  {
    if h >= 0x8000_0000 then h - TwoTo32 else h
  }

  // ---------------------------------------------------------------------------
  // Lexicographic order by character code

  /** `a` sorts before or equal to `b`: a prefix first, otherwise the first differing character decides. */
  predicate StrLe(a: string, b: string)
  {
    a == [] || (b != [] && (a[0] < b[0] || (a[0] == b[0] && StrLe(a[1..], b[1..]))))
  }

  /** The order is total, transitive and antisymmetric. */
  lemma {:induction false} StrLeTotal(a: string, b: string)
    ensures StrLe(a, b) || StrLe(b, a)
    ensures StrLe(a, b) && StrLe(b, a) ==> a == b
  {
    if a != [] && b != [] && a[0] == b[0] {
      StrLeTotal(a[1..], b[1..]);
      assert a == [a[0]] + a[1..] && b == [b[0]] + b[1..];
    }
  }

  lemma {:induction false} StrLeTrans(a: string, b: string, c: string)
    requires StrLe(a, b) && StrLe(b, c)
    ensures StrLe(a, c)
  {
    if a != [] && b != [] && c != [] && a[0] == b[0] && b[0] == c[0] {
      StrLeTrans(a[1..], b[1..], c[1..]);
    }
  }
}
