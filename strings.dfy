/** Text helpers shared by the other modules: Python's `str.join`, `in` on
    strings, `str.strip`, `str.split()`, ASCII `str.lower`, `str(int)` and the
    code-point ordering that `sorted` uses on strings. */
module Strings {

  /** `sep.join(xs)`. */
  function Join(sep: string, xs: seq<string>): string
  {
    if |xs| == 0 then ""
    else if |xs| == 1 then xs[0]
    else xs[0] + sep + Join(sep, xs[1..])
  }

  /** `p` starts `s`. */
  predicate IsPrefix(p: string, s: string)
  {
    |p| <= |s| && s[..|p|] == p
  }

  /** `sub` occurs in `s` starting at position `i`. */
  predicate OccursAt(s: string, sub: string, i: int)
  {
    0 <= i && i + |sub| <= |s| && s[i..i + |sub|] == sub
  }

  /** Python's `sub in s` for strings. */
  predicate Contains(s: string, sub: string)
  {
    exists i | 0 <= i <= |s| - |sub| :: OccursAt(s, sub, i)
  }

  lemma ContainsAt(s: string, sub: string, i: nat)
    requires OccursAt(s, sub, i)
    ensures Contains(s, sub)
  {
  }

  /** An occurrence in `a + b` that starts after `a` is an occurrence in `b`. */
  lemma OccursInSuffix(a: string, b: string, sub: string, i: int)
    requires OccursAt(a + b, sub, i) && i >= |a|
    ensures OccursAt(b, sub, i - |a|)
  {
    var j := i - |a|;
    forall m | 0 <= m < |sub| ensures b[j..j + |sub|][m] == sub[m] {
      assert (a + b)[i..i + |sub|][m] == (a + b)[i + m] == b[j + m];
    }
  }

  /** What a substring contains, the whole string contains. */
  lemma ContainsTransitive(s: string, mid: string, sub: string)
    requires Contains(s, mid) && Contains(mid, sub)
    ensures Contains(s, sub)
  {
    var i :| 0 <= i <= |s| - |mid| && OccursAt(s, mid, i);
    var j :| 0 <= j <= |mid| - |sub| && OccursAt(mid, sub, j);
    forall m | 0 <= m < |sub| ensures s[i + j + m] == sub[m] {
      assert s[i..i + |mid|][j + m] == mid[j + m];
      assert mid[j..j + |sub|][m] == sub[m];
    }
    assert s[i + j..i + j + |sub|] == sub;
    ContainsAt(s, sub, i + j);
  }

  /** A substring of the middle part is a substring of the whole. */
  lemma ContainsWithin(a: string, b: string, c: string, sub: string)
    requires Contains(b, sub)
    ensures Contains(a + b + c, sub)
  {
    var i :| 0 <= i <= |b| - |sub| && OccursAt(b, sub, i);
    var s := a + b + c;
    assert s[|a| + i..|a| + i + |sub|] == b[i..i + |sub|];
    ContainsAt(s, sub, |a| + i);
  }

  /** A string followed by more text starts with that string. */
  lemma ContainsFront(a: string, b: string)
    ensures Contains(a + b, a)
  {
    assert (a + b)[0..|a|] == a;
    ContainsAt(a + b, a, 0);
  }

  /** What the second part contains, the whole string contains. */
  lemma ContainsBack(a: string, b: string, sub: string)
    requires Contains(b, sub)
    ensures Contains(a + b, sub)
  {
    var i :| 0 <= i <= |b| - |sub| && OccursAt(b, sub, i);
    assert (a + b)[|a| + i..|a| + i + |sub|] == b[i..i + |sub|];
    ContainsAt(a + b, sub, |a| + i);
  }

  lemma ContainsSelf(s: string)
    ensures Contains(s, s)
  {
    assert s[0..|s|] == s;
    ContainsAt(s, s, 0);
  }

  /** The join contains every joined string. */
  lemma {:induction false} JoinContains(sep: string, xs: seq<string>, k: nat)
    requires k < |xs|
    ensures Contains(Join(sep, xs), xs[k])
  {
    if |xs| == 1 {
      ContainsSelf(xs[0]);
    } else if k == 0 {
      ContainsSelf(xs[0]);
      ContainsWithin("", xs[0], sep + Join(sep, xs[1..]), xs[0]);
      assert "" + xs[0] + (sep + Join(sep, xs[1..])) == Join(sep, xs);
    } else {
      JoinContains(sep, xs[1..], k - 1);
      ContainsWithin(xs[0] + sep, Join(sep, xs[1..]), "", xs[k]);
      assert xs[0] + sep + Join(sep, xs[1..]) + "" == Join(sep, xs);
    }
  }

  /** Joining a non-empty list then one more element. */
  lemma {:induction false} JoinSnoc(sep: string, xs: seq<string>, x: string)
    requires |xs| > 0
    ensures Join(sep, xs + [x]) == Join(sep, xs) + sep + x
  {
    if |xs| == 1 {
      assert xs + [x] == [xs[0], x];
    } else {
      assert (xs + [x])[1..] == xs[1..] + [x];
      JoinSnoc(sep, xs[1..], x);
    }
  }

  /** The join of a prefix is a prefix of the join. */
  lemma {:induction false} JoinPrefixLength(sep: string, xs: seq<string>, k: nat)
    requires k < |xs|
    ensures |Join(sep, xs[..k + 1])| == |Join(sep, xs[..k])| + (if k == 0 then 0 else |sep|) + |xs[k]|
  {
    if k == 0 {
      assert xs[..1] == [xs[0]];
    } else {
      assert xs[..k + 1] == xs[..k] + [xs[k]];
      JoinSnoc(sep, xs[..k], xs[k]);
    }
  }

  /** Cutting a join between two elements: the join of a proper prefix,
      then the separator, then the join of the rest. */
  lemma {:induction false} JoinSplit(sep: string, xs: seq<string>, k: nat)
    requires 0 < k < |xs|
    ensures Join(sep, xs) == Join(sep, xs[..k]) + sep + Join(sep, xs[k..])
  {
    if k == 1 {
      assert xs[..1] == [xs[0]];
      assert xs[1..] == xs[k..];
    } else {
      JoinSplit(sep, xs[1..], k - 1);
      assert xs[..k][1..] == xs[1..][..k - 1];
      assert xs[1..][k - 1..] == xs[k..];
    }
  }

  /** The join of a proper, non-empty prefix, followed by the separator,
      starts the join of the whole list. */
  lemma JoinPrefix(sep: string, xs: seq<string>, n: nat)
    requires 0 < n < |xs|
    ensures IsPrefix(Join(sep, xs[..n]) + sep, Join(sep, xs))
  {
    JoinSplit(sep, xs, n);
    var a := Join(sep, xs[..n]) + sep;
    assert Join(sep, xs) == a + Join(sep, xs[n..]);
    assert Join(sep, xs)[..|a|] == a;
  }

  // ----- whitespace, as Python's str.isspace defines it -----

  /** The characters Python's `str.isspace` accepts (the Unicode
      separators and the ASCII and C1 control characters it adds). */
  predicate IsSpace(c: char)
  {
    ('\t' <= c <= '\r') || ('\U{1c}' <= c <= ' ') || c == '\U{85}' || c == '\U{a0}'
    || c == '\U{1680}' || ('\U{2000}' <= c <= '\U{200a}') || c == '\U{2028}' || c == '\U{2029}'
    || c == '\U{202f}' || c == '\U{205f}' || c == '\U{3000}'
  }

  /** No whitespace at either end: what `str.strip()` returns. */
  predicate IsStripped(s: string)
  {
    s == [] || (!IsSpace(s[0]) && !IsSpace(s[|s| - 1]))
  }

  /** `s.lstrip()`. */
  function TrimLeft(s: string): (r: string)
    ensures |r| <= |s| && r == s[|s| - |r|..]
    ensures r == [] || !IsSpace(r[0])
  {
    if s == [] || !IsSpace(s[0]) then s else TrimLeft(s[1..])
  }

  /** What `lstrip` removes is whitespace. */
  lemma {:induction false} TrimLeftRemovesSpace(s: string)
    ensures forall k | 0 <= k < |s| - |TrimLeft(s)| :: IsSpace(s[k])
  {
    if s != [] && IsSpace(s[0]) {
      var t := s[1..];
      assert TrimLeft(s) == TrimLeft(t);
      assert forall k | 0 <= k < |t| - |TrimLeft(t)| :: IsSpace(t[k]) by {
        TrimLeftRemovesSpace(t);
      }
      forall k | 0 < k < |s| - |TrimLeft(s)| ensures IsSpace(s[k]) {
        assert s[k] == t[k - 1];
      }
    }
  }

  /** `s.rstrip()`. */
  function TrimRight(s: string): (r: string)
    ensures |r| <= |s| && r == s[..|r|]
    ensures r == [] || !IsSpace(r[|r| - 1])
  {
    if s == [] || !IsSpace(s[|s| - 1]) then s else TrimRight(s[..|s| - 1])
  }

  /** What `rstrip` removes is whitespace. */
  lemma {:induction false} TrimRightRemovesSpace(s: string)
    ensures forall k | |TrimRight(s)| <= k < |s| :: IsSpace(s[k])
  {
    if s != [] && IsSpace(s[|s| - 1]) {
      TrimRightRemovesSpace(s[..|s| - 1]);
      forall k | |TrimRight(s)| <= k < |s| ensures IsSpace(s[k]) {
        if k < |s| - 1 { assert s[k] == s[..|s| - 1][k]; }
      }
    }
  }

  /** `t` is the slice `s[i..j]` and everything outside it is whitespace. */
  predicate SpaceAround(s: string, t: string, i: nat, j: nat)
  {
    i <= j <= |s| && t == s[i..j]
    && (forall k | 0 <= k < i :: IsSpace(s[k])) && (forall k | j <= k < |s| :: IsSpace(s[k]))
  }

  /** `s.strip()`: `s` with its leading and trailing whitespace removed, so
      a slice of `s` with whitespace only outside it and none at either of
      its ends; it is empty exactly when `s` is all whitespace, and it is
      `s` itself when `s` is already stripped. */
  function Strip(s: string): (r: string)
    ensures IsStripped(r)
    ensures exists i: nat, j: nat :: SpaceAround(s, r, i, j)
    ensures Contains(s, r)
    ensures r == [] <==> forall k | 0 <= k < |s| :: IsSpace(s[k])
    ensures IsStripped(s) ==> r == s
  {
    var l := TrimLeft(s);
    var r := TrimRight(l);
    assert IsStripped(r) by {
      if r != [] { assert r[0] == l[0]; }
    }
    assert SpaceAround(s, r, |s| - |l|, |s| - |l| + |r|) by {
      TrimLeftRemovesSpace(s);
      TrimRightRemovesSpace(l);
      AroundTrims(s, l, r);
    }
    assert Contains(s, r) by {
      StripOccurs(s);
    }
    assert r == [] <==> forall k | 0 <= k < |s| :: IsSpace(s[k]) by {
      StripEmpty(s);
    }
    r
  }

  /** A prefix `r` of a suffix `l` of `s`, with whitespace only before `l`
      and after `r`, has whitespace only around it. */
  lemma AroundTrims(s: string, l: string, r: string)
    requires |l| <= |s| && l == s[|s| - |l|..] && |r| <= |l| && r == l[..|r|]
    requires forall k | 0 <= k < |s| - |l| :: IsSpace(s[k])
    requires forall k | |r| <= k < |l| :: IsSpace(l[k])
    ensures SpaceAround(s, r, |s| - |l|, |s| - |l| + |r|)
  {
    SuffixSpaces(s, l, r, |s| - |l|);
  }

  /** Whitespace after a prefix `r` of the suffix `l == s[i..]` is
      whitespace of `s` after `i + |r|`. */
  lemma SuffixSpaces(s: string, l: string, r: string, i: nat)
    requires i <= |s| && l == s[i..] && |r| <= |l| && r == l[..|r|]
    requires forall k | |r| <= k < |l| :: IsSpace(l[k])
    ensures r == s[i..i + |r|]
    ensures forall k | i + |r| <= k < |s| :: IsSpace(s[k])
  {
    forall k | i + |r| <= k < |s| ensures IsSpace(s[k]) {
      assert s[k] == l[k - i];
    }
  }

  /** Only one stripped slice of `s` has whitespace alone around it, so the
      contract of Strip determines its result. */
  lemma StripUnique(s: string, t: string, i: nat, j: nat)
    requires IsStripped(t) && SpaceAround(s, t, i, j)
    ensures t == Strip(s)
  {
    var r := Strip(s);
    var i': nat, j': nat :| SpaceAround(s, r, i', j');
    if t == [] {
      assert i == j;
    } else {
      assert !IsSpace(s[i]) && !IsSpace(s[j - 1]) by {
        assert t[0] == s[i] && t[|t| - 1] == s[j - 1];
      }
      assert r != [];
      assert !IsSpace(s[i']) && !IsSpace(s[j' - 1]) by {
        assert r[0] == s[i'] && r[|r| - 1] == s[j' - 1];
      }
      assert i == i';
      assert j == j';
    }
  }

  /** What the two trims leave is a substring of the original. */
  lemma StripOccurs(s: string)
    ensures Contains(s, TrimRight(TrimLeft(s)))
  {
    var l := TrimLeft(s);
    var r := TrimRight(l);
    var i := |s| - |l|;
    assert r == s[i..i + |r|];
    ContainsAt(s, r, i);
  }

  /** Trimming both ends leaves nothing exactly when every character is whitespace. */
  lemma StripEmpty(s: string)
    ensures TrimRight(TrimLeft(s)) == [] <==> forall k | 0 <= k < |s| :: IsSpace(s[k])
  {
    var l := TrimLeft(s);
    TrimLeftRemovesSpace(s);
    TrimRightRemovesSpace(l);
    assert TrimRight(l) == [] ==> |l| == 0;
  }

  /** A string without whitespace is a single "word" for `str.split()`. */
  predicate IsWord(w: string)
  {
    w != [] && forall k | 0 <= k < |w| :: !IsSpace(w[k])
  }

  /** Length of the leading run of non-whitespace characters. */
  function WordLength(s: string): (n: nat)
    ensures n <= |s|
    ensures forall k | 0 <= k < n :: !IsSpace(s[k])
    ensures n == |s| || IsSpace(s[n])
  {
    if s == [] || IsSpace(s[0]) then 0 else 1 + WordLength(s[1..])
  }

  /** The leading run of a string that starts with non-whitespace is a word. */
  lemma LeadingWord(t: string)
    requires t != [] && !IsSpace(t[0])
    ensures IsWord(t[..WordLength(t)])
  {
    var w := t[..WordLength(t)];
    forall k | 0 <= k < |w| ensures !IsSpace(w[k]) { assert w[k] == t[k]; }
  }

  /** `s.split()`: the maximal runs of non-whitespace characters, in order. */
  function Words(s: string): (ws: seq<string>)
    ensures forall k | 0 <= k < |ws| :: IsWord(ws[k])
    decreases |s|
  {
    var t := TrimLeft(s);
    if t == [] then []
    else
      var n := WordLength(t);
      var rest := Words(t[n..]);
      LeadingWord(t);
      ConsWords(t[..n], rest);
      [t[..n]] + rest
  }

  /** A word in front of a list of words gives a list of words. */
  lemma ConsWords(w: string, ws: seq<string>)
    requires IsWord(w) && forall k | 0 <= k < |ws| :: IsWord(ws[k])
    ensures forall k | 0 <= k < |[w] + ws| :: IsWord(([w] + ws)[k])
  {
    forall k | 0 <= k < |[w] + ws| ensures IsWord(([w] + ws)[k]) {
      if k > 0 { assert ([w] + ws)[k] == ws[k - 1]; }
    }
  }

  /** `" ".join(s.split())`: whitespace runs collapsed to one space, ends stripped. */
  function Collapse(s: string): string
  {
    Join(" ", Words(s))
  }

  // ----- case -----

  /** ASCII `c.lower()`. */
  function LowerChar(c: char): (d: char)
    ensures 'A' <= c <= 'Z' ==> 'a' <= d <= 'z'
    ensures !('A' <= c <= 'Z') ==> d == c
  {
    if 'A' <= c <= 'Z' then (c as int - 'A' as int + 'a' as int) as char else c
  }

  // ----- decimal numerals, as `str(n)` writes a non-negative int -----

  function DigitChar(d: nat): (c: char)
    requires d < 10
    ensures '0' <= c <= '9'
  {
    ('0' as int + d) as char
  }

  /** `str(n)` for `n >= 0`. */
  function NatToString(n: nat): (s: string)
    ensures |s| > 0
    ensures forall k | 0 <= k < |s| :: '0' <= s[k] <= '9'
    ensures s[0] == '0' ==> n == 0
  {
    if n < 10 then [DigitChar(n)] else NatToString(n / 10) + [DigitChar(n % 10)]
  }

  /** The value of a string of decimal digits (`int(s)`). */
  function DecimalValue(s: string): nat
    requires forall k | 0 <= k < |s| :: '0' <= s[k] <= '9'
  {
    if s == [] then 0
    else DecimalValue(s[..|s| - 1]) * 10 + (s[|s| - 1] as int - '0' as int)
  }

  /** `int(str(n)) == n`: the numeral denotes the count it was made from. */
  lemma {:induction false} DecimalRoundTrip(n: nat)
    ensures DecimalValue(NatToString(n)) == n
  {
    if n >= 10 {
      var s := NatToString(n);
      DecimalRoundTrip(n / 10);
      assert s[..|s| - 1] == NatToString(n / 10);
    }
  }

  // ----- the order `sorted` puts strings in -----

  /** Python's `a < b` on strings: lexicographic by code point. */
  predicate StrLess(a: string, b: string)
  {
    if a == [] then b != []
    else if b == [] then false
    else a[0] < b[0] || (a[0] == b[0] && StrLess(a[1..], b[1..]))
  }

  lemma {:induction false} StrLessIrreflexive(a: string)
    ensures !StrLess(a, a)
  {
    if a != [] {
      StrLessIrreflexive(a[1..]);
    }
  }

  lemma {:induction false} StrLessTransitive(a: string, b: string, c: string)
    requires StrLess(a, b) && StrLess(b, c)
    ensures StrLess(a, c)
  {
    if a != [] && b != [] && c != [] && a[0] == b[0] == c[0] {
      StrLessTransitive(a[1..], b[1..], c[1..]);
    }
  }

  lemma {:induction false} StrLessTotal(a: string, b: string)
    ensures StrLess(a, b) || a == b || StrLess(b, a)
  {
    if a != [] && b != [] && a[0] == b[0] {
      StrLessTotal(a[1..], b[1..]);
      if a[1..] == b[1..] {
        assert a == [a[0]] + a[1..] && b == [b[0]] + b[1..];
      }
    }
  }

  /** Sorted in strictly increasing order, hence without duplicates. */
  predicate StrictlySorted(s: seq<string>)
  {
    forall i, j | 0 <= i < j < |s| :: StrLess(s[i], s[j])
  }
}
