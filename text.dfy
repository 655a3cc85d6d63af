/** The Foundation string operations the app relies on, over `seq<char>`:
    `components(separatedBy:)`, `joined(separator:)`, `contains`, `hasPrefix`,
    `hasSuffix`, `trimmingCharacters(in:)`, `Int(_:)`, integer interpolation,
    `split(separator:)` and `lowercased()`. A `char` is one Unicode scalar, so
    a string here is the Swift string's unicode scalars; Swift's own
    `Character` is a grapheme cluster, which can hold several scalars. */
module Text {
  import opened Wrappers

  // ---------------------------------------------------------------------------
  // components(separatedBy:) and joined(separator:)
  // ---------------------------------------------------------------------------

  /** `parts.joined(separator: sep)`. */
  function Join(parts: seq<string>, sep: string): string
  {
    if |parts| == 0 then []
    else if |parts| == 1 then parts[0]
    else parts[0] + sep + Join(parts[1..], sep)
  }

  /** `s.components(separatedBy: sep)`: cut `s` at every occurrence of `sep`,
      scanning from the left and never letting two occurrences overlap. There
      is always at least one component, and joining the components with `sep`
      gives `s` back. */
  function Split(s: string, sep: string): (parts: seq<string>)
    requires sep != []
    ensures |parts| >= 1
    ensures Join(parts, sep) == s
    decreases |s|
  {
    if |s| < |sep| then [s]
    else if s[..|sep|] == sep then
      var rest := Split(s[|sep|..], sep);
      assert Join([[]] + rest, sep) == sep + Join(rest, sep) by {
        assert ([[]] + rest)[1..] == rest;
      }
      [[]] + rest
    else
      var rest := Split(s[1..], sep);
      var parts := [[s[0]] + rest[0]] + rest[1..];
      assert Join(parts, sep) == [s[0]] + Join(rest, sep) by {
        assert parts[1..] == rest[1..];
        if |rest| > 1 {
          assert Join(rest, sep) == rest[0] + sep + Join(rest[1..], sep);
        }
      }
      assert s == [s[0]] + s[1..];
      parts
  }

  /** A text without the separator character is a single component. */
  lemma {:induction false} SplitWithoutSeparator(s: string, c: char)
    requires c !in s
    ensures Split(s, [c]) == [s]
    decreases |s|
  {
    if |s| >= 1 {
      assert s[..1] == [s[0]];
      SplitWithoutSeparator(s[1..], c);
      assert [s[0]] + s[1..] == s;
    }
  }

  /** Cutting `p + [c] + rest` at `c` yields `p` followed by the components of
      `rest`, as long as `p` itself holds no `c`. */
  lemma {:induction false} SplitAfterFirstSeparator(p: string, c: char, rest: string)
    requires c !in p
    ensures Split(p + [c] + rest, [c]) == [p] + Split(rest, [c])
    decreases |p|
  {
    var s := p + [c] + rest;
    if p == [] {
      assert s[..1] == [c];
      assert s[1..] == rest;
    } else {
      assert s[..1] == [p[0]];
      assert s[1..] == p[1..] + [c] + rest;
      SplitAfterFirstSeparator(p[1..], c, rest);
      assert [p[0]] + p[1..] == p;
    }
  }

  /** For a one-character separator, splitting undoes joining whenever no
      component holds the separator. */
  lemma {:induction false} SplitJoin(parts: seq<string>, c: char)
    requires |parts| >= 1
    requires forall i :: 0 <= i < |parts| ==> c !in parts[i]
    ensures Split(Join(parts, [c]), [c]) == parts
    decreases |parts|
  {
    if |parts| == 1 {
      SplitWithoutSeparator(parts[0], c);
    } else {
      SplitJoin(parts[1..], c);
      SplitAfterFirstSeparator(parts[0], c, Join(parts[1..], [c]));
      assert [parts[0]] + parts[1..] == parts;
    }
  }

  /** The number of occurrences of `c` in `s`. */
  function CountChar(s: string, c: char): nat
  {
    if s == [] then 0 else (if s[0] == c then 1 else 0) + CountChar(s[1..], c)
  }

  /** The text before the first `c`, or all of `s` when there is none. */
  function BeforeFirst(s: string, c: char): string
  {
    if s == [] || s[0] == c then [] else [s[0]] + BeforeFirst(s[1..], c)
  }

  /** Cutting at a one-character separator gives one component more than
      there are separators, and the first component is the text before the
      first separator. */
  lemma {:induction false} SplitCountAndHead(s: string, c: char)
    ensures |Split(s, [c])| == CountChar(s, c) + 1
    ensures Split(s, [c])[0] == BeforeFirst(s, c)
    decreases |s|
  {
    if s != [] {
      assert s[..1] == [s[0]];
      assert s[|[c]|..] == s[1..];
      SplitCountAndHead(s[1..], c);
    }
  }

  // ---------------------------------------------------------------------------
  // Prefix, suffix and substring tests
  // ---------------------------------------------------------------------------

  /** `s.starts(with: prefix)`. */
  predicate StartsWith(s: string, prefix: string)
  {
    |prefix| <= |s| && s[..|prefix|] == prefix
  }

  /** `s.hasSuffix(suffix)`. */
  predicate HasSuffix(s: string, suffix: string)
  {
    |suffix| <= |s| && s[|s| - |suffix|..] == suffix
  }

  /** `sub` occurs in `s` starting at index `i`. */
  predicate OccursAt(s: string, sub: string, i: int)
  {
    0 <= i <= |s| - |sub| && s[i..i + |sub|] == sub
  }

  /** `s.contains(sub)`: `sub` occurs in `s` as a contiguous substring. */
  predicate Contains(s: string, sub: string)
  {
    exists i | 0 <= i <= |s| - |sub| :: OccursAt(s, sub, i)
  }

  /** An occurrence in `b` is an occurrence in `a + b`, shifted by `|a|`. */
  lemma OccursAtShifted(a: string, b: string, sub: string, i: int)
    requires OccursAt(b, sub, i)
    ensures OccursAt(a + b, sub, |a| + i)
  {
    var n := |sub|;
    assert i + n <= |b|;
    var j := |a| + i;
    assert (a + b)[j..j + n] == b[i..i + n];
  }

  /** An occurrence in `a` is an occurrence in `a + b`. */
  lemma OccursAtExtended(a: string, b: string, sub: string, i: int)
    requires OccursAt(a, sub, i)
    ensures OccursAt(a + b, sub, i)
  {
    assert (a + b)[i..i + |sub|] == a[i..i + |sub|];
  }

  /** What a text contains, a longer text that starts or ends with it contains too. */
  lemma ContainsInConcatenation(a: string, b: string, sub: string)
    ensures Contains(a, sub) ==> Contains(a + b, sub)
    ensures Contains(b, sub) ==> Contains(a + b, sub)
  {
    if Contains(a, sub) {
      var i :| 0 <= i <= |a| - |sub| && OccursAt(a, sub, i);
      OccursAtExtended(a, b, sub, i);
    }
    if Contains(b, sub) {
      var k :| 0 <= k <= |b| - |sub| && OccursAt(b, sub, k);
      OccursAtShifted(a, b, sub, k);
    }
  }

  /** A text in which the separator never occurs is a single component. */
  lemma {:induction false} SplitWithoutOccurrence(s: string, sep: string)
    requires sep != []
    requires !Contains(s, sep)
    ensures Split(s, sep) == [s]
    decreases |s|
  {
    if |s| >= |sep| {
      assert !OccursAt(s, sep, 0);
      assert s == [s[0]] + s[1..];
      forall i | 0 <= i <= |s[1..]| - |sep|
        ensures !OccursAt(s[1..], sep, i)
      {
        if OccursAt(s[1..], sep, i) {
          OccursAtShifted([s[0]], s[1..], sep, i);
        }
      }
      SplitWithoutOccurrence(s[1..], sep);
    }
  }

  /** Cutting `p + sep + rest` yields `p` followed by the components of
      `rest`, as long as the separator does not occur in `p` nor straddle the
      end of `p`. */
  lemma {:induction false} SplitAfterFirstOccurrence(p: string, sep: string, rest: string)
    requires sep != []
    requires !Contains(p + sep[..|sep| - 1], sep)
    ensures Split(p + sep + rest, sep) == [p] + Split(rest, sep)
    decreases |p|
  {
    var s := p + sep + rest;
    if p == [] {
      assert s[..|sep|] == sep;
      assert s[|sep|..] == rest;
    } else {
      var q := p + sep[..|sep| - 1];
      assert s[..|sep|] == q[..|sep|];
      assert !OccursAt(q, sep, 0);
      var q1 := p[1..] + sep[..|sep| - 1];
      assert q == [p[0]] + q1;
      forall i | 0 <= i <= |q1| - |sep|
        ensures !OccursAt(q1, sep, i)
      {
        if OccursAt(q1, sep, i) {
          OccursAtShifted([p[0]], q1, sep, i);
        }
      }
      SplitAfterFirstOccurrence(p[1..], sep, rest);
      assert s[1..] == p[1..] + sep + rest;
      assert [p[0]] + p[1..] == p;
    }
  }

  // ---------------------------------------------------------------------------
  // trimmingCharacters(in:)
  // ---------------------------------------------------------------------------

  /** Membership in `CharacterSet.punctuationCharacters` (Unicode general
      category P), for the scripts a plan is written in: the ASCII and
      Latin-1 marks, the General Punctuation block, the CJK Symbols and
      Punctuation block and the full-width forms. Punctuation of other
      scripts is not covered. */
  predicate IsPunctuation(c: char)
  {
    || c == '!' || c == '"' || c == '#' || c == '%' || c == '&' || c == '\''
    || c == '(' || c == ')' || c == '*' || c == ',' || c == '-' || c == '.'
    || c == '/' || c == ':' || c == ';' || c == '?' || c == '@' || c == '['
    || c == '\\' || c == ']' || c == '_' || c == '{' || c == '}'
    || c == '\U{A1}' || c == '\U{A7}' || c == '\U{AB}' || c == '\U{B6}'
    || c == '\U{B7}' || c == '\U{BB}' || c == '\U{BF}'
    || ('\U{2010}' <= c <= '\U{2027}') || ('\U{2030}' <= c <= '\U{2043}')
    || ('\U{2045}' <= c <= '\U{2051}') || ('\U{2053}' <= c <= '\U{205E}')
    || ('\U{3001}' <= c <= '\U{3003}') || ('\U{3008}' <= c <= '\U{3011}')
    || ('\U{3014}' <= c <= '\U{301F}') || c == '\U{3030}' || c == '\U{303D}'
    || c == '\U{30A0}' || c == '\U{30FB}'
    || ('\U{FF01}' <= c <= '\U{FF03}') || ('\U{FF05}' <= c <= '\U{FF0A}')
    || ('\U{FF0C}' <= c <= '\U{FF0F}') || c == '\U{FF1A}' || c == '\U{FF1B}'
    || c == '\U{FF1F}' || c == '\U{FF20}' || ('\U{FF3B}' <= c <= '\U{FF3D}')
    || c == '\U{FF3F}' || c == '\U{FF5B}' || c == '\U{FF5D}' || ('\U{FF5F}' <= c <= '\U{FF65}')
  }

  /** Membership in `CharacterSet.whitespaces`: tab and the Unicode space
      separators (general category Zs). */
  predicate IsWhitespace(c: char)
  {
    || c == ' ' || c == '\t' || c == '\U{A0}' || c == '\U{1680}'
    || ('\U{2000}' <= c <= '\U{200A}') || c == '\U{202F}' || c == '\U{205F}' || c == '\U{3000}'
  }

  /** Drop the leading characters in the set. */
  function TrimStart(s: string, drop: char -> bool): (r: string)
    ensures |r| <= |s| && r == s[|s| - |r|..]
    ensures forall k :: 0 <= k < |s| - |r| ==> drop(s[k])
    ensures r != [] ==> !drop(r[0])
    decreases |s|
  {
    if |s| > 0 && drop(s[0]) then
      var r := TrimStart(s[1..], drop);
      assert forall k :: 1 <= k < |s| - |r| ==> s[k] == s[1..][k - 1];
      r
    else s
  }

  /** Drop the trailing characters in the set. */
  function TrimEnd(s: string, drop: char -> bool): (r: string)
    ensures |r| <= |s| && r == s[..|r|]
    ensures forall k :: |r| <= k < |s| ==> drop(s[k])
    ensures r != [] ==> !drop(r[|r| - 1])
    decreases |s|
  {
    if |s| > 0 && drop(s[|s| - 1]) then
      var r := TrimEnd(s[..|s| - 1], drop);
      assert forall k :: |r| <= k < |s| - 1 ==> s[k] == s[..|s| - 1][k];
      r
    else s
  }

  /** `r` is the slice of `s` at index `i`, and everything around it is in the set. */
  predicate SliceWithDroppedEnds(s: string, r: string, i: int, drop: char -> bool)
  {
    && 0 <= i <= |s| - |r| && r == s[i..i + |r|]
    && (forall k :: 0 <= k < i ==> drop(s[k]))
    && (forall k :: i + |r| <= k < |s| ==> drop(s[k]))
  }

  /** Trimming both ends leaves the slice of `s` that starts where trimming
      the start stopped. */
  lemma TrimmedSlice(s: string, t: string, r: string, drop: char -> bool)
    requires |t| <= |s| && t == s[|s| - |t|..]
    requires forall k :: 0 <= k < |s| - |t| ==> drop(s[k])
    requires |r| <= |t| && r == t[..|r|]
    requires forall k :: |r| <= k < |t| ==> drop(t[k])
    ensures SliceWithDroppedEnds(s, r, |s| - |t|, drop)
  {
    var i := |s| - |t|;
    assert r == s[i..i + |r|];
    forall k | i + |r| <= k < |s|
      ensures drop(s[k])
    {
      assert s[k] == t[k - i];
    }
  }

  /** `s.trimmingCharacters(in: set)`: the longest middle slice of `s` that
      neither starts nor ends with a character of the set. */
  function Trim(s: string, drop: char -> bool): (r: string)
    ensures exists i :: SliceWithDroppedEnds(s, r, i, drop)
    ensures r != [] ==> !drop(r[0]) && !drop(r[|r| - 1])
  {
    var t := TrimStart(s, drop);
    var r := TrimEnd(t, drop);
    TrimmedSlice(s, t, r, drop);
    assert r != [] ==> r[0] == t[0];
    r
  }

  function TrimPunctuation(s: string): string
  {
    Trim(s, IsPunctuation)
  }

  /** A word whose own ends are kept, followed by characters that are all
      dropped, trims to the word. */
  lemma TrimTrailing(w: string, tail: string, drop: char -> bool)
    requires w != [] && !drop(w[0]) && !drop(w[|w| - 1])
    requires forall k | 0 <= k < |tail| :: drop(tail[k])
    ensures Trim(w + tail, drop) == w
  {
    var x := w + tail;
    var r := Trim(x, drop);
    var i :| SliceWithDroppedEnds(x, r, i, drop);
    assert x[0] == w[0] && x[|w| - 1] == w[|w| - 1];
    assert i == 0 && |r| >= |w|;
    assert r == x[..|w|];
  }

  /** Digits are never trimmed as punctuation. */
  lemma DigitKept(c: char)
    requires IsDigit(c)
    ensures !IsPunctuation(c)
  {
  }

  /** A non-negative number followed by punctuation, such as the "1："
      left of a day header written with a full-width colon, reads back as
      that number once the punctuation is trimmed. */
  lemma NumberBeforePunctuation(n: int, tail: string)
    requires 0 <= n <= INT_MAX
    requires forall k | 0 <= k < |tail| :: IsPunctuation(tail[k])
    ensures ParseInt(TrimPunctuation(IntToString(n) + tail)) == Some(n)
  {
    var d := IntToString(n);
    DigitKept(d[0]);
    DigitKept(d[|d| - 1]);
    TrimTrailing(d, tail, IsPunctuation);
    ParseIntToString(n);
  }

  function TrimWhitespace(s: string): string
  {
    Trim(s, IsWhitespace)
  }

  // ---------------------------------------------------------------------------
  // Int(_:) and integer interpolation
  // ---------------------------------------------------------------------------

  const INT_MIN: int := -0x8000_0000_0000_0000
  const INT_MAX: int := 0x7FFF_FFFF_FFFF_FFFF

  /** Swift's `Int` is 64 bits wide. */
  predicate IsInt(n: int)
  {
    INT_MIN <= n <= INT_MAX
  }

  predicate IsDigit(c: char)
  {
    '0' <= c <= '9'
  }

  predicate AllDigits(s: string)
  {
    forall k :: 0 <= k < |s| ==> IsDigit(s[k])
  }

  /** The value of a string of decimal digits, most significant first. */
  function DigitsValue(ds: string): nat
    requires AllDigits(ds)
  {
    if ds == [] then 0
    else DigitsValue(ds[..|ds| - 1]) * 10 + (ds[|ds| - 1] as int - '0' as int)
  }

  /** `Int(s)`: an optional sign, then one or more decimal digits and nothing
      else; a value outside the 64-bit range is rejected like a malformed one. */
  function ParseInt(s: string): (r: Option<int>)
    ensures r.Some? ==> IsInt(r.value)
    ensures r.Some? ==> |s| >= 1 && (AllDigits(s) || (|s| >= 2 && (s[0] == '-' || s[0] == '+') && AllDigits(s[1..])))
  {
    if |s| >= 2 && (s[0] == '-' || s[0] == '+') && AllDigits(s[1..]) then
      var magnitude: int := DigitsValue(s[1..]);
      var v := if s[0] == '-' then -magnitude else magnitude;
      if IsInt(v) then Some(v) else None
    else if |s| >= 1 && AllDigits(s) then
      var v := DigitsValue(s);
      if IsInt(v) then Some(v) else None
    else None
  }

  /** The decimal digits of `n`, without leading zeros. */
  function NatToString(n: nat): (r: string)
    ensures |r| >= 1 && AllDigits(r)
    ensures DigitsValue(r) == n
  {
    var last := ['0' + (n % 10) as char];
    if n < 10 then last
    else
      var r := NatToString(n / 10) + last;
      assert r[..|r| - 1] == NatToString(n / 10);
      r
  }

  /** `"\(n)"` for an `Int`. */
  function IntToString(n: int): string
  {
    if n < 0 then "-" + NatToString(-n) else NatToString(n)
  }

  /** Parsing reads back what interpolation writes. */
  lemma ParseIntToString(n: int)
    requires IsInt(n)
    ensures ParseInt(IntToString(n)) == Some(n)
  {
    var digits := NatToString(if n < 0 then -n else n);
    if n < 0 {
      assert IntToString(n)[1..] == digits;
    } else {
      assert digits[0] != '-' && digits[0] != '+';
    }
  }

  // ---------------------------------------------------------------------------
  // split(separator: " ") and lowercased()
  // ---------------------------------------------------------------------------

  function NonEmptyOnly(parts: seq<string>): (r: seq<string>)
    ensures forall i :: 0 <= i < |r| ==> r[i] != []
    ensures forall p :: p in r <==> p in parts && p != []
  {
    if parts == [] then []
    else if parts[0] == [] then NonEmptyOnly(parts[1..])
    else [parts[0]] + NonEmptyOnly(parts[1..])
  }

  /** `text.split(separator: " ")`: the maximal runs of non-space characters;
      empty runs are omitted. */
  function Words(text: string): (words: seq<string>)
    ensures forall i :: 0 <= i < |words| ==> words[i] != [] && ' ' !in words[i]
  {
    var parts := Split(text, " ");
    var words := NonEmptyOnly(parts);
    assert forall p :: p in parts ==> ' ' !in p by {
      forall p | p in parts ensures ' ' !in p {
        SplitPartsAvoidSeparator(text, ' ');
      }
    }
    words
  }

  /** No component of a cut at a one-character separator holds that character. */
  lemma {:induction false} SplitPartsAvoidSeparator(s: string, c: char)
    ensures forall p :: p in Split(s, [c]) ==> c !in p
    decreases |s|
  {
    if |s| >= 1 {
      SplitPartsAvoidSeparator(s[1..], c);
      var rest := Split(s[1..], [c]);
      if s[..1] == [c] {
        assert s[1..] == s[|[c]|..];
      } else {
        assert s[0] != c by { assert s[..1] == [s[0]]; }
        assert rest[0] in rest;
        forall p | p in Split(s, [c]) ensures c !in p {
          var parts := [[s[0]] + rest[0]] + rest[1..];
          assert Split(s, [c]) == parts;
          if p != parts[0] {
            var j :| 0 <= j < |parts| && parts[j] == p;
            assert p == rest[j];
            assert rest[j] in rest;
          }
        }
      }
    }
  }

  /** Words joined by single spaces split back into the same words. */
  lemma WordsOfJoin(words: seq<string>)
    requires forall i :: 0 <= i < |words| ==> words[i] != [] && ' ' !in words[i]
    ensures Words(Join(words, " ")) == words
  {
    if words == [] {
      assert Split([], " ") == [[]];
    } else {
      SplitJoin(words, ' ');
      NonEmptyOnlyKeeps(words);
    }
  }

  /** Text appended after a join lands on the last part. */
  lemma {:induction false} JoinExtendsLast(parts: seq<string>, sep: string, x: string)
    requires parts != []
    ensures Join(parts, sep) + x == Join(parts[..|parts| - 1] + [parts[|parts| - 1] + x], sep)
  {
    if |parts| > 1 {
      var n := |parts| - 1;
      var tail := parts[1..];
      JoinExtendsLast(tail, sep, x);
      var extended := parts[..n] + [parts[n] + x];
      assert extended[1..] == tail[..|tail| - 1] + [tail[|tail| - 1] + x];
    }
  }

  lemma {:induction false} NonEmptyOnlyKeeps(parts: seq<string>)
    requires forall i :: 0 <= i < |parts| ==> parts[i] != []
    ensures NonEmptyOnly(parts) == parts
  {
    if parts != [] {
      NonEmptyOnlyKeeps(parts[1..]);
      assert [parts[0]] + parts[1..] == parts;
    }
  }

  /** `lowercased()` on one character (ASCII letters). */
  function LowerChar(c: char): char
  {
    if 'A' <= c <= 'Z' then (c as int - 'A' as int + 'a' as int) as char else c
  }

  /** `s.lowercased()` for the ASCII letters: `A` to `Z` become `a` to `z`
      and every other character is kept. */
  function Lowercased(s: string): string
  {
    seq(|s|, k requires 0 <= k < |s| => LowerChar(s[k]))
  }

  /** The same character, or the same ASCII letter in the other case. */
  predicate SameIgnoringCase(c: char, d: char)
  {
    || c == d
    || ('A' <= c <= 'Z' && d as int == c as int + 32)
    || ('A' <= d <= 'Z' && c as int == d as int + 32)
  }

  lemma LowerCharEqual(c: char, d: char)
    ensures LowerChar(c) == LowerChar(d) <==> SameIgnoringCase(c, d)
  {
  }

  /** Lowering keeps the length, leaves no capital letter, changes each
      character only in its case, and a second lowering changes nothing. */
  lemma LowercasedMeans(s: string)
    ensures |Lowercased(s)| == |s|
    ensures forall k | 0 <= k < |s| :: !('A' <= Lowercased(s)[k] <= 'Z') && SameIgnoringCase(s[k], Lowercased(s)[k])
    ensures Lowercased(Lowercased(s)) == Lowercased(s)
  {
  }

  /** Two texts lower to the same text exactly when they agree character by
      character up to the case of letters. */
  lemma LowercasedEqual(a: string, b: string)
    ensures Lowercased(a) == Lowercased(b) <==>
      |a| == |b| && forall k | 0 <= k < |a| :: SameIgnoringCase(a[k], b[k])
  {
    if Lowercased(a) == Lowercased(b) {
      forall k | 0 <= k < |a| ensures SameIgnoringCase(a[k], b[k]) {
        assert Lowercased(a)[k] == Lowercased(b)[k];
        LowerCharEqual(a[k], b[k]);
      }
    }
    if |a| == |b| && forall k | 0 <= k < |a| :: SameIgnoringCase(a[k], b[k]) {
      forall k | 0 <= k < |a| ensures Lowercased(a)[k] == Lowercased(b)[k] {
        LowerCharEqual(a[k], b[k]);
      }
    }
  }
}
