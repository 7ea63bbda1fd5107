/**
 * The string operations the system relies on from Rust's `str`: trimming,
 * prefix and substring tests, splitting on a character, joining with a
 * separator, lower-casing and decimal rendering of indices.  Text is
 * modelled as a sequence of characters, and positions in it are character
 * positions; on ASCII text they agree with the byte offsets Rust slices at.
 */
module Strings {

  /**
   * `char::is_whitespace`, the Unicode White_Space property: tab through
   * carriage return, space, next line, no-break space, the Ogham space mark,
   * the en quad through the hair space, the line and paragraph separators,
   * the narrow no-break space, the medium mathematical space and the
   * ideographic space.
   */
  predicate IsSpace(c: char)
  {
    '\t' <= c <= '\r' || c == ' ' || c == '\U{85}' || c == '\U{A0}' || c == '\U{1680}'
    || '\U{2000}' <= c <= '\U{200A}' || c == '\U{2028}' || c == '\U{2029}'
    || c == '\U{202F}' || c == '\U{205F}' || c == '\U{3000}'
  }

  /** The first position at or after `i` that does not hold white space. */
  function SkipSpaces(s: string, i: nat): (j: nat)
    requires i <= |s|
    ensures i <= j <= |s| && (j == |s| || !IsSpace(s[j]))
    ensures forall k :: i <= k < j ==> IsSpace(s[k])
    decreases |s| - i
  {
    if i < |s| && IsSpace(s[i]) then SkipSpaces(s, i + 1) else i
  }

  /** The end of `s[..j]` once trailing white space is dropped. */
  function SkipSpacesBack(s: string, j: nat): (i: nat)
    requires j <= |s|
    ensures i <= j && (i == 0 || !IsSpace(s[i - 1]))
    ensures forall k :: i <= k < j ==> IsSpace(s[k])
  {
    if j > 0 && IsSpace(s[j - 1]) then SkipSpacesBack(s, j - 1) else j
  }

  /** `str::trim`: drops leading and trailing white space. */
  function Trim(s: string): (r: string)
    ensures |r| <= |s|
    ensures r == [] || (!IsSpace(r[0]) && !IsSpace(r[|r| - 1]))
    ensures r == [] <==> forall k :: 0 <= k < |s| ==> IsSpace(s[k])
  {
    var start := SkipSpaces(s, 0);
    var end := SkipSpacesBack(s, |s|);
    if start < end then s[start..end] else []
  }

  /** A string that neither starts nor ends with white space is its own trim. */
  lemma TrimOfTrimmed(s: string)
    requires s == [] || (!IsSpace(s[0]) && !IsSpace(s[|s| - 1]))
    ensures Trim(s) == s
  {
  }

  /** White space of any kind on either side of a trimmed text is exactly what `Trim` drops. */
  lemma TrimAround(a: string, t: string, b: string)
    requires forall k :: 0 <= k < |a| ==> IsSpace(a[k])
    requires forall k :: 0 <= k < |b| ==> IsSpace(b[k])
    requires t == [] || (!IsSpace(t[0]) && !IsSpace(t[|t| - 1]))
    ensures Trim(a + t + b) == t
  {
    var s := a + t + b;
    if t != [] {
      assert s[|a|] == t[0] && s[|a| + |t| - 1] == t[|t| - 1];
      assert SkipSpaces(s, 0) == |a|;
      assert SkipSpacesBack(s, |s|) == |a| + |t|;
      assert s[|a|..|a| + |t|] == t;
    } else {
      assert forall k :: 0 <= k < |s| ==> IsSpace(s[k]) by {
        forall k | 0 <= k < |s|
          ensures IsSpace(s[k])
        {
          if k < |a| {
            assert s[k] == a[k];
          } else {
            assert s[k] == b[k - |a|];
          }
        }
      }
    }
  }

  lemma TrimIdempotent(s: string)
    ensures Trim(Trim(s)) == Trim(s)
  {
    TrimOfTrimmed(Trim(s));
  }

  predicate StartsWith(s: string, prefix: string)
  {
    |prefix| <= |s| && s[..|prefix|] == prefix
  }

  predicate EndsWith(s: string, suffix: string)
  {
    |suffix| <= |s| && s[|s| - |suffix|..] == suffix
  }

  /** `sub` occurs in `s` starting at index `i`. */
  predicate OccursAt(s: string, sub: string, i: int)
  {
    0 <= i && i + |sub| <= |s| && s[i..i + |sub|] == sub
  }

  /** `str::contains` for a string pattern, by a left-to-right search. */
  function ContainsFrom(s: string, sub: string, i: nat): (r: bool)
    requires i <= |s|
    ensures r <==> exists j :: i <= j <= |s| && OccursAt(s, sub, j)
    decreases |s| - i
  {
    if OccursAt(s, sub, i) then true
    else if i == |s| then false
    else ContainsFrom(s, sub, i + 1)
  }

  predicate Contains(s: string, sub: string)
  {
    ContainsFrom(s, sub, 0)
  }

  /** `str::split(sep)` for a single-character separator: never empty. */
  function Split(s: string, sep: char): (parts: seq<string>)
    ensures |parts| >= 1
    ensures forall k :: 0 <= k < |parts| ==> sep !in parts[k]
    decreases |s|
  {
    if sep !in s then [s]
    else
      var i := IndexOf(s, sep);
      [s[..i]] + Split(s[i + 1..], sep)
  }

  /** The first position of `c` in `s`. */
  function IndexOf(s: string, c: char): (i: nat)
    requires c in s
    ensures i < |s| && s[i] == c && c !in s[..i]
  {
    if s[0] == c then 0 else 1 + IndexOf(s[1..], c)
  }

  /** `[T]::join(sep)` for strings. */
  function Join(parts: seq<string>, sep: string): string
  {
    if |parts| == 0 then ""
    else if |parts| == 1 then parts[0]
    else parts[0] + sep + Join(parts[1..], sep)
  }

  /** Splitting on a character and joining the pieces with it again gives back the text. */
  lemma {:induction false} JoinSplit(s: string, sep: char)
    ensures Join(Split(s, sep), [sep]) == s
    decreases |s|
  {
    if sep in s {
      var i := IndexOf(s, sep);
      var rest := Split(s[i + 1..], sep);
      var parts := [s[..i]] + rest;
      assert Split(s, sep) == parts;
      assert parts[0] == s[..i] && parts[1..] == rest;
      JoinSplit(s[i + 1..], sep);
      assert Join(parts, [sep]) == s[..i] + [sep] + s[i + 1..];
      assert s == s[..i] + [sep] + s[i + 1..];
    }
  }

  /** Joining with a separator and splitting on it again gives back the pieces. */
  lemma {:induction false} SplitJoin(parts: seq<string>, sep: char)
    requires |parts| >= 1
    requires forall k :: 0 <= k < |parts| ==> sep !in parts[k]
    ensures Split(Join(parts, [sep]), sep) == parts
  {
    if |parts| == 1 {
    } else {
      var s := Join(parts, [sep]);
      var rest := Join(parts[1..], [sep]);
      assert s == parts[0] + [sep] + rest;
      assert s[|parts[0]|] == sep;
      assert sep in s;
      IndexOfPrefix(parts[0], [sep] + rest, sep);
      assert s[..|parts[0]|] == parts[0];
      assert s[|parts[0]| + 1..] == rest;
      SplitJoin(parts[1..], sep);
    }
  }

  lemma IndexOfPrefix(a: string, b: string, c: char)
    requires c !in a && b != [] && b[0] == c
    ensures c in a + b && IndexOf(a + b, c) == |a|
  {
    var s := a + b;
    assert s[|a|] == c;
  }

  /**
   * The lower-case form of one character, for the characters whose lower case
   * is an ASCII letter: `A` to `Z`, and the Kelvin sign, which becomes `k`.
   * Every other character is kept as it is.
   */
  function LowerChar(c: char): char
  {
    if 'A' <= c <= 'Z' then (c as int + 32) as char
    else if c == '\U{212A}' then 'k'
    else c
  }

  /** `str::to_lowercase`, as far as `LowerChar` goes. */
  function ToLower(s: string): (r: string)
    ensures |r| == |s| && forall i :: 0 <= i < |s| ==> r[i] == LowerChar(s[i])
  {
    if s == [] then [] else [LowerChar(s[0])] + ToLower(s[1..])
  }

  function DigitChar(d: nat): char
    requires d < 10
  {
    "0123456789"[d]
  }

  /** The decimal rendering `format!("{}", n)` of a natural number. */
  function NatToString(n: nat): (r: string)
    ensures |r| >= 1 && forall i :: 0 <= i < |r| ==> '0' <= r[i] <= '9'
  {
    if n < 10 then [DigitChar(n)] else NatToString(n / 10) + [DigitChar(n % 10)]
  }

  lemma {:induction false} NatToStringInjective(m: nat, n: nat)
    requires NatToString(m) == NatToString(n)
    ensures m == n
  {
    if m < 10 && n < 10 {
      assert DigitChar(m) == NatToString(m)[0];
    } else if m >= 10 && n >= 10 {
      var a, b := NatToString(m / 10), NatToString(n / 10);
      assert a + [DigitChar(m % 10)] == b + [DigitChar(n % 10)];
      assert a == (a + [DigitChar(m % 10)])[..|a|];
      assert b == (b + [DigitChar(n % 10)])[..|b|];
      assert DigitChar(m % 10) == DigitChar(n % 10);
      NatToStringInjective(m / 10, n / 10);
    }
  }

  /** Strict lexicographic order on strings, the order of a `BTreeMap<String, _>`. */
  predicate Less(a: string, b: string)
  {
    if a == [] then b != []
    else if b == [] then false
    else a[0] < b[0] || (a[0] == b[0] && Less(a[1..], b[1..]))
  }

  lemma {:induction false} LessIrreflexive(a: string)
    ensures !Less(a, a)
  {
    if a != [] {
      LessIrreflexive(a[1..]);
    }
  }

  lemma {:induction false} LessTotal(a: string, b: string)
    requires a != b
    ensures Less(a, b) || Less(b, a)
  {
    if a != [] && b != [] && a[0] == b[0] {
      assert a == [a[0]] + a[1..] && b == [b[0]] + b[1..];
      LessTotal(a[1..], b[1..]);
    }
  }

  lemma {:induction false} LessTransitive(a: string, b: string, c: string)
    requires Less(a, b) && Less(b, c)
    ensures Less(a, c)
  {
    if a != [] && b != [] && c != [] && a[0] == b[0] == c[0] {
      LessTransitive(a[1..], b[1..], c[1..]);
    }
  }

  /** Ascending in the lexicographic order, hence without repetitions. */
  predicate StrictlySorted(ks: seq<string>)
  {
    forall i, j :: 0 <= i < j < |ks| ==> Less(ks[i], ks[j])
  }

  /** The keys of a map in the iteration order of a `BTreeMap`. */
  function SortedKeys(keys: set<string>): (ks: seq<string>)
    ensures |ks| == |keys|
    ensures forall k :: k in keys <==> k in ks
    ensures StrictlySorted(ks)
    decreases keys
  {
    if keys == {} then []
    else
      LeastExists(keys);
      LeastUnique(keys);
      var m :| IsLeast(keys, m);
      [m] + SortedKeys(keys - {m})
  }

  predicate IsLeast(keys: set<string>, m: string)
  {
    m in keys && forall k :: k in keys && k != m ==> Less(m, k)
  }

  lemma LeastUnique(keys: set<string>)
    ensures forall m, m' :: IsLeast(keys, m) && IsLeast(keys, m') ==> m == m'
  {
    forall m, m' | IsLeast(keys, m) && IsLeast(keys, m')
      ensures m == m'
    {
      if m != m' {
        LessTransitive(m, m', m);
        LessIrreflexive(m);
      }
    }
  }

  lemma LeastExists(keys: set<string>)
    requires keys != {}
    ensures exists m :: IsLeast(keys, m)
    decreases keys
  {
    var x :| x in keys;
    if keys == {x} {
      assert IsLeast(keys, x);
    } else {
      LeastExists(keys - {x});
      var m :| IsLeast(keys - {x}, m);
      if Less(m, x) {
        forall k | k in keys && k != m
          ensures Less(m, k)
        {
        }
        assert IsLeast(keys, m);
      } else {
        LessTotal(m, x);
        forall k | k in keys && k != x
          ensures Less(x, k)
        {
          if k != m {
            LessTransitive(x, m, k);
          }
        }
        assert IsLeast(keys, x);
      }
    }
  }
}
