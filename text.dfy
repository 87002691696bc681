/** The Python string operations the tool relies on: `in`, `str.find`,
    `str.split(sep)`, `sep.join(parts)`, `str.strip()`, `str.rsplit(c, 1)`
    and `str(n)` for a non-negative integer. Strings are sequences of
    Unicode scalar values, as Python 3 `str` values are. */
module Text {
  import opened Wrappers

  /** `pat` occurs in `s` starting at index `i`. */
  predicate OccursAt(s: string, pat: string, i: int)
  {
    0 <= i && i + |pat| <= |s| && s[i..i + |pat|] == pat
  }

  /** Python's `pat in s`. */
  predicate Contains(s: string, pat: string)
  {
    exists i | 0 <= i <= |s| :: OccursAt(s, pat, i)
  }

  /** Python's `s.find(pat, start)`, with `None` for -1. */
  function FindFrom(s: string, pat: string, start: nat): (r: Option<nat>)
    ensures r.Some? ==> start <= r.value && OccursAt(s, pat, r.value)
    ensures forall j :: start <= j && (r.None? || j < r.value) ==> !OccursAt(s, pat, j)
    decreases |s| - start
  {
    if start + |pat| > |s| then None
    else if s[start..start + |pat|] == pat then Some(start)
    else FindFrom(s, pat, start + 1)
  }

  lemma OccursInPrefix(s: string, pat: string, i: nat, j: int)
    requires i <= |s| && OccursAt(s[..i], pat, j)
    ensures OccursAt(s, pat, j) && j + |pat| <= i
  {
    assert s[..i][j..j + |pat|] == s[j..j + |pat|];
  }

  lemma OccursInSuffix(s: string, pat: string, i: nat, j: int)
    requires i <= |s| && OccursAt(s[i..], pat, j)
    ensures OccursAt(s, pat, i + j)
  {
    assert s[i..][j..j + |pat|] == s[i + j..i + j + |pat|];
  }

  function Last<T>(xs: seq<T>): T
    requires |xs| > 0
  {
    xs[|xs| - 1]
  }

  /** Python's `s.split(sep)` for a non-empty separator: the text between
      the non-overlapping occurrences of `sep` found scanning left to right. */
  function Split(s: string, sep: string): (parts: seq<string>)
    requires sep != []
    ensures |parts| >= 1
    ensures forall k :: 0 <= k < |parts| ==> !Contains(parts[k], sep)
    decreases |s|
  {
    match FindFrom(s, sep, 0)
    case None => [s]
    case Some(i) =>
      var rest := Split(s[i + |sep|..], sep);
      assert !Contains(s[..i], sep) by {
        forall j | OccursAt(s[..i], sep, j) ensures false {
          OccursInPrefix(s, sep, i, j);
        }
      }
      [s[..i]] + rest
  }

  /** The first piece is the text before the first separator, or all of
      `s` when the separator does not occur. */
  lemma SplitFirst(s: string, sep: string)
    requires sep != []
    ensures var parts := Split(s, sep);
      |parts[0]| <= |s| && s[..|parts[0]|] == parts[0]
      && (|parts| == 1 <==> !Contains(s, sep))
      && (|parts| == 1 ==> parts[0] == s)
      && (|parts| > 1 ==> OccursAt(s, sep, |parts[0]|))
  {
    var f := FindFrom(s, sep, 0);
    if f.Some? {
      assert OccursAt(s, sep, f.value);
    }
  }

  /** A character occurs in `s` exactly when the one-character string does. */
  lemma CharContains(s: string, c: char)
    ensures c in s <==> Contains(s, [c])
  {
    if c in s {
      var j :| 0 <= j < |s| && s[j] == c;
      assert s[j..j + 1] == [c];
      assert OccursAt(s, [c], j);
    }
    if Contains(s, [c]) {
      var j :| 0 <= j <= |s| && OccursAt(s, [c], j);
      assert s[j..j + 1][0] == s[j];
    }
  }

  /** A character absent from `s` is absent from every piece of its split. */
  lemma {:induction false} SplitKeepsAbsentChar(s: string, sep: string, c: char)
    requires sep != [] && c !in s
    ensures forall k :: 0 <= k < |Split(s, sep)| ==> c !in Split(s, sep)[k]
    decreases |s|
  {
    var f := FindFrom(s, sep, 0);
    if f.Some? {
      var i := f.value;
      var tail := s[i + |sep|..];
      assert c !in tail by {
        forall j | 0 <= j < |tail| ensures tail[j] != c {
          assert tail[j] == s[i + |sep| + j];
        }
      }
      assert c !in s[..i] by {
        forall j | 0 <= j < i ensures s[..i][j] != c {
          assert s[..i][j] == s[j];
        }
      }
      SplitKeepsAbsentChar(tail, sep, c);
      assert Split(s, sep) == [s[..i]] + Split(tail, sep);
    }
  }

  /** Python's `sep.join(parts)`. */
  function Join(parts: seq<string>, sep: string): string
  {
    if |parts| == 0 then ""
    else if |parts| == 1 then parts[0]
    else parts[0] + sep + Join(parts[1..], sep)
  }

  /** Splitting and joining again gives back the original text. */
  lemma {:induction false} JoinSplit(s: string, sep: string)
    requires sep != []
    ensures Join(Split(s, sep), sep) == s
    decreases |s|
  {
    var f := FindFrom(s, sep, 0);
    if f.Some? {
      var i := f.value;
      var tail := s[i + |sep|..];
      var rest := Split(tail, sep);
      assert Split(s, sep) == [s[..i]] + rest;
      JoinSplit(tail, sep);
      assert Join([s[..i]] + rest, sep) == s[..i] + sep + Join(rest, sep);
      assert OccursAt(s, sep, i);
      assert s == s[..i] + s[i..i + |sep|] + tail;
    }
  }

  /** Joining several parts is joining all but the last, the separator,
      and the last part. */
  lemma {:induction false} JoinLast(parts: seq<string>, sep: string)
    requires |parts| > 1
    ensures Join(parts, sep) == Join(parts[..|parts| - 1], sep) + sep + Last(parts)
    decreases |parts|
  {
    if |parts| > 2 {
      var rest := parts[1..];
      JoinLast(rest, sep);
      assert rest[..|rest| - 1] == parts[..|parts| - 1][1..];
      assert Last(rest) == Last(parts);
    }
  }

  /** The last piece is a suffix of `s`; when there are several pieces,
      it is preceded by an occurrence of the separator, and otherwise it is
      all of `s`. */
  lemma SplitLast(s: string, sep: string)
    requires sep != []
    ensures var parts := Split(s, sep);
      |Last(parts)| <= |s| && s[|s| - |Last(parts)|..] == Last(parts)
      && (|parts| > 1 ==> OccursAt(s, sep, |s| - |Last(parts)| - |sep|))
      && (|parts| == 1 ==> Last(parts) == s)
  {
    var parts := Split(s, sep);
    var last := Last(parts);
    JoinSplit(s, sep);
    if |parts| > 1 {
      JoinLast(parts, sep);
      var before := Join(parts[..|parts| - 1], sep);
      assert s == before + sep + last;
      assert s[|before|..|before| + |sep|] == sep;
      assert s[|before| + |sep|..] == last;
    } else {
      assert s[0..] == s;
    }
  }

  /** `c` occurs in `sep` exactly once, at index `a`. */
  predicate AnchoredAt(sep: string, c: char, a: int)
  {
    0 <= a < |sep| && sep[a] == c && forall k :: 0 <= k < |sep| && k != a ==> sep[k] != c
  }

  lemma NoAnchorNoOccurrence(f: string, sep: string, c: char, a: int)
    requires AnchoredAt(sep, c, a) && c !in f
    ensures !Contains(f, sep)
  {
    forall j ensures !OccursAt(f, sep, j) {
      if 0 <= j && j + |sep| <= |f| {
        assert f[j..j + |sep|][a] == f[j + a];
        assert f[j + a] != c;
      }
    }
  }

  lemma AbsentNotFound(s: string, pat: string)
    requires !Contains(s, pat)
    ensures FindFrom(s, pat, 0).None?
  {
  }

  /** In `f + sep + rest`, where `f` lacks the anchor character of `sep`,
      the first occurrence of `sep` is the one right after `f`. */
  lemma FirstOccurrenceAfterField(f: string, sep: string, rest: string, c: char, a: int)
    requires AnchoredAt(sep, c, a) && c !in f
    ensures FindFrom(f + sep + rest, sep, 0) == Some(|f|)
  {
    var s := f + sep + rest;
    assert s[|f|..|f| + |sep|] == sep;
    assert OccursAt(s, sep, |f|);
    forall j | 0 <= j < |f| ensures !OccursAt(s, sep, j) {
      if j + a < |f| {
        assert s[j + a] == f[j + a];
      } else {
        assert s[j + a] == sep[j + a - |f|];
      }
      assert s[j + a] != c;
      assert s[j..j + |sep|][a] == s[j + a];
    }
    var r := FindFrom(s, sep, 0);
    if r.None? || r.value != |f| {
      assert false;
    }
  }

  /** Joining fields that lack the anchor character of the separator and
      splitting again gives back exactly those fields. */
  lemma {:induction false} SplitJoin(fields: seq<string>, sep: string, c: char, a: int)
    requires |fields| >= 1 && AnchoredAt(sep, c, a)
    requires forall k :: 0 <= k < |fields| ==> c !in fields[k]
    ensures Split(Join(fields, sep), sep) == fields
  {
    if |fields| == 1 {
      var only := fields[0];
      assert Join(fields, sep) == only;
      NoAnchorNoOccurrence(only, sep, c, a);
      AbsentNotFound(only, sep);
      assert Split(only, sep) == [only];
      assert fields == [only];
    } else {
      var rest := Join(fields[1..], sep);
      assert Join(fields, sep) == fields[0] + sep + rest;
      SplitJoin(fields[1..], sep, c, a);
      SplitAfterField(fields[0], sep, rest, c, a);
      assert fields == [fields[0]] + fields[1..];
    }
  }

  /** Splitting `f + sep + rest`, where `f` lacks the anchor character,
      gives `f` followed by the split of `rest`. */
  lemma SplitAfterField(f: string, sep: string, rest: string, c: char, a: int)
    requires AnchoredAt(sep, c, a) && c !in f
    ensures Split(f + sep + rest, sep) == [f] + Split(rest, sep)
  {
    FirstOccurrenceAfterField(f, sep, rest, c, a);
    var s := f + sep + rest;
    assert s[|f| + |sep|..] == rest;
    assert s[..|f|] == f;
  }

  /** Python's `str.isspace()` for one character. */
  predicate IsSpace(c: char)
  {
    c == '\t' || c == '\n' || c == '\U{0B}' || c == '\U{0C}' || c == '\r'
    || ('\U{1C}' <= c <= '\U{1F}') || c == ' ' || c == '\U{85}' || c == '\U{A0}'
    || c == '\U{1680}' || ('\U{2000}' <= c <= '\U{200A}') || c == '\U{2028}'
    || c == '\U{2029}' || c == '\U{202F}' || c == '\U{205F}' || c == '\U{3000}'
  }

  /** Python's `s.lstrip()`. */
  function LStrip(s: string): (r: string)
    ensures |r| <= |s| && r == s[|s| - |r|..]
    ensures forall k :: 0 <= k < |s| - |r| ==> IsSpace(s[k])
    ensures r == [] || !IsSpace(r[0])
  {
    if |s| > 0 && IsSpace(s[0]) then LStrip(s[1..]) else s
  }

  /** Python's `s.rstrip()`. */
  function RStrip(s: string): (r: string)
    ensures |r| <= |s| && r == s[..|r|]
    ensures forall k :: |r| <= k < |s| ==> IsSpace(s[k])
    ensures r == [] || !IsSpace(r[|r| - 1])
  {
    if |s| > 0 && IsSpace(s[|s| - 1]) then RStrip(s[..|s| - 1]) else s
  }

  /** `r` is the text of `s` from index `i` on, with only whitespace
      before and after it. */
  predicate StrippedAt(s: string, r: string, i: int)
  {
    0 <= i && i + |r| <= |s| && r == s[i..i + |r|]
    && (forall k :: 0 <= k < i ==> IsSpace(s[k]))
    && (forall k :: i + |r| <= k < |s| ==> IsSpace(s[k]))
  }

  lemma StripWindow(s: string)
    ensures StrippedAt(s, RStrip(LStrip(s)), |s| - |LStrip(s)|)
  {
    var left := LStrip(s);
    WindowFromStrips(s, left, RStrip(left));
  }

  /** A window cut from the left by `lstrip` and then from the right by
      `rstrip` has only whitespace on either side of it. */
  lemma WindowFromStrips(s: string, left: string, r: string)
    requires |left| <= |s| && left == s[|s| - |left|..]
    requires forall k :: 0 <= k < |s| - |left| ==> IsSpace(s[k])
    requires |r| <= |left| && r == left[..|r|]
    requires forall k :: |r| <= k < |left| ==> IsSpace(left[k])
    ensures StrippedAt(s, r, |s| - |left|)
  {
    var i := |s| - |left|;
    assert r == s[i..i + |r|] by {
      assert left[..|r|] == s[i..][..|r|] == s[i..i + |r|];
    }
    forall k | i + |r| <= k < |s| ensures IsSpace(s[k]) {
      assert s[k] == left[k - i];
    }
  }

  /** Python's `s.strip()`: the text between the leading and the trailing
      whitespace. */
  function Strip(s: string): (r: string)
    ensures exists i :: StrippedAt(s, r, i)
    ensures r == [] || (!IsSpace(r[0]) && !IsSpace(r[|r| - 1]))
  {
    StripWindow(s);
    RStrip(LStrip(s))
  }

  /** Python's `s.rsplit(c, maxsplit=1)[1]`: the text after the last `c`,
      or `None` where Python raises IndexError because `c` does not occur. */
  function AfterLast(s: string, c: char): (r: Option<string>)
    ensures r.None? <==> c !in s
    ensures r.Some? ==> c !in r.value && |r.value| < |s| && s[|s| - |r.value| - 1] == c
                        && r.value == s[|s| - |r.value|..]
  {
    if |s| == 0 then None
    else if s[|s| - 1] == c then Some([])
    else match AfterLast(s[..|s| - 1], c)
      case None => None
      case Some(t) => Some(t + [s[|s| - 1]])
  }

  function DigitChar(d: nat): (c: char)
    requires d < 10
    ensures '0' <= c <= '9'
  {
    "0123456789"[d]
  }

  function DigitValue(c: char): nat
  {
    if '0' <= c <= '9' then (c as int - '0' as int) as nat else 0
  }

  /** Python's `str(n)` for `n >= 0`: decimal digits, no sign, no padding. */
  function NatToString(n: nat): (r: string)
    ensures |r| >= 1 && forall k :: 0 <= k < |r| ==> '0' <= r[k] <= '9'
    decreases n
  {
    if n < 10 then [DigitChar(n)] else NatToString(n / 10) + [DigitChar(n % 10)]
  }

  /** Python's `int(s)` for a string of decimal digits. */
  function ParseDigits(s: string): nat
  {
    if |s| == 0 then 0 else ParseDigits(s[..|s| - 1]) * 10 + DigitValue(s[|s| - 1])
  }

  /** `int(str(n)) == n`: the decimal rendering is lossless. */
  lemma {:induction false} ParseNatToString(n: nat)
    ensures ParseDigits(NatToString(n)) == n
    decreases n
  {
    var r := NatToString(n);
    if n < 10 {
      assert r[..0] == [];
    } else {
      ParseNatToString(n / 10);
      assert r[..|r| - 1] == NatToString(n / 10);
      assert DigitValue(DigitChar(n % 10)) == n % 10;
    }
  }
}
