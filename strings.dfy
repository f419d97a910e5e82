/** Python `str` operations that the agent and its tools rely on, written out
    over `string` (a sequence of code points). */
module PyStr {

  datatype Option<T> = None | Some(value: T)

  /** The characters for which Python's `str.isspace()` holds; the `\s` class of a
      `str` regular expression and the argument-less `strip()` and `split()` use
      the same set. */
  predicate IsSpace(c: char) {
    var n := c as int;
    (9 <= n <= 13) || (28 <= n <= 32) || n == 0x85 || n == 0xA0 || n == 0x1680
    || (0x2000 <= n <= 0x200A) || n == 0x2028 || n == 0x2029 || n == 0x202F
    || n == 0x205F || n == 0x3000
  }

  predicate AllSpace(s: string) {
    forall i :: 0 <= i < |s| ==> IsSpace(s[i])
  }

  /** `s.lstrip()` */
  function LStrip(s: string): (r: string)
    ensures |r| <= |s| && r == s[|s| - |r|..]
    ensures forall i :: 0 <= i < |s| - |r| ==> IsSpace(s[i])
    ensures r == [] || !IsSpace(r[0])
  {
    if s != [] && IsSpace(s[0]) then LStrip(s[1..]) else s
  }

  /** `s.rstrip()` */
  function RStrip(s: string): (r: string)
    ensures |r| <= |s| && r == s[..|r|]
    ensures forall i :: |r| <= i < |s| ==> IsSpace(s[i])
    ensures r == [] || !IsSpace(r[|r| - 1])
  {
    if s != [] && IsSpace(s[|s| - 1]) then RStrip(s[..|s| - 1]) else s
  }

  /** `s.strip()` */
  function Strip(s: string): (r: string)
    ensures |r| <= |s|
    ensures r == [] || (!IsSpace(r[0]) && !IsSpace(r[|r| - 1]))
  {
    RStrip(LStrip(s))
  }

  /** What `strip()` removed is whitespace on both sides. */
  lemma StripDecomposition(s: string) returns (p: string, q: string)
    ensures AllSpace(p) && AllSpace(q) && s == p + Strip(s) + q
  {
    var l := LStrip(s);
    p := LStripped(s);
    var r := RStrip(l);
    q := RStripped(l);
  }

  lemma LStripped(s: string) returns (p: string)
    ensures AllSpace(p) && s == p + LStrip(s)
  {
    p := s[..|s| - |LStrip(s)|];
  }

  lemma RStripped(s: string) returns (q: string)
    ensures AllSpace(q) && s == RStrip(s) + q
  {
    q := s[|RStrip(s)|..];
  }

  lemma {:induction false} LStripUnique(p: string, u: string)
    requires AllSpace(p) && (u == [] || !IsSpace(u[0]))
    ensures LStrip(p + u) == u
  {
    if p != [] {
      assert (p + u)[1..] == p[1..] + u;
      LStripUnique(p[1..], u);
    }
  }

  lemma {:induction false} RStripUnique(u: string, q: string)
    requires AllSpace(q) && (u == [] || !IsSpace(u[|u| - 1]))
    ensures RStrip(u + q) == u
  {
    if q != [] {
      assert (u + q)[..|u + q| - 1] == u + q[..|q| - 1];
      RStripUnique(u, q[..|q| - 1]);
    }
  }

  /** A decomposition into surrounding whitespace and a core that neither starts
      nor ends with whitespace is unique: that core is what `strip()` returns. */
  lemma StripUnique(s: string, p: string, t: string, q: string)
    requires AllSpace(p) && AllSpace(q) && s == p + t + q
    requires t == [] || (!IsSpace(t[0]) && !IsSpace(t[|t| - 1]))
    ensures Strip(s) == t
  {
    if t == [] {
      assert s == (p + q) + [];
      LStripUnique(p + q, []);
    } else {
      assert s == p + (t + q);
      LStripUnique(p, t + q);
      RStripUnique(t, q);
    }
  }

  function LowerChar(c: char): char {
    if 'A' <= c <= 'Z' then (c as int - 'A' as int + 'a' as int) as char else c
  }

  /** `s.lower()`, for the ASCII letters. */
  function Lower(s: string): (r: string)
    ensures |r| == |s|
    ensures forall i :: 0 <= i < |s| ==> r[i] == LowerChar(s[i])
  {
    seq(|s|, i requires 0 <= i < |s| => LowerChar(s[i]))
  }

  /** Python's `sub in s`. */
  predicate Contains(s: string, sub: string) {
    sub <= s || (s != [] && Contains(s[1..], sub))
  }

  lemma {:induction false} ContainsAt(s: string, sub: string, i: nat)
    requires i + |sub| <= |s| && s[i..i + |sub|] == sub
    ensures Contains(s, sub)
  {
    if i > 0 {
      assert s[1..][i - 1..i - 1 + |sub|] == sub;
      ContainsAt(s[1..], sub, i - 1);
    }
  }

  lemma {:induction false} ContainsWitness(s: string, sub: string) returns (i: nat)
    requires Contains(s, sub)
    ensures i + |sub| <= |s| && s[i..i + |sub|] == sub
  {
    if sub <= s {
      i := 0;
    } else {
      var j := ContainsWitness(s[1..], sub);
      i := j + 1;
      assert s[i..i + |sub|] == s[1..][j..j + |sub|];
    }
  }

  /** A text that does not contain `sub` holds no occurrence of it. */
  lemma {:induction false} NotContainsNowhere(s: string, sub: string)
    requires !Contains(s, sub)
    ensures forall i: nat :: !OccursAt(s, sub, i)
    decreases |s|
  {
    if s != [] {
      NotContainsNowhere(s[1..], sub);
      OccursShift(s, sub);
    }
  }

  /** `sub` occurs in `s` starting at index `i`. */
  predicate OccursAt(s: string, sub: string, i: nat) {
    i + |sub| <= |s| && s[i..i + |sub|] == sub
  }

  /** The index of the first occurrence of `sub` in `s` (Python's `find`, with
      `None` for -1). */
  function Find(s: string, sub: string): (r: Option<nat>)
    ensures r.Some? ==> OccursAt(s, sub, r.value)
    ensures r.Some? ==> forall j :: 0 <= j < r.value ==> !OccursAt(s, sub, j)
    ensures r.None? ==> forall j :: 0 <= j ==> !OccursAt(s, sub, j)
  {
    if sub <= s then Some(0)
    else if |s| <= |sub| then None
    else
      match Find(s[1..], sub)
      case None => OccursShift(s, sub); None
      case Some(k) => OccursShift(s, sub); Some(k + 1)
  }

  /** `find` returns the first occurrence. */
  lemma FindFirst(s: string, sub: string, i: nat)
    requires OccursAt(s, sub, i) && forall j :: 0 <= j < i ==> !OccursAt(s, sub, j)
    ensures Find(s, sub) == Some(i)
  {
    var r := Find(s, sub);
    assert r.Some?;
    assert r.value >= i;
  }

  /** A separator whose first character does not come back later in it, and
      that does not occur in `name`, is first found where it is appended. */
  lemma FindAppended(name: string, sep: string)
    requires |sep| > 0 && !Contains(name, sep)
    requires forall k :: 0 < k < |sep| ==> sep[k] != sep[0]
    ensures Find(name + sep, sep) == Some(|name|)
  {
    var s := name + sep;
    assert s[|name|..] == sep;
    NoEarlierOccurrence(name, sep);
    FindFirst(s, sep, |name|);
  }

  lemma NoEarlierOccurrence(name: string, sep: string)
    requires |sep| > 0 && !Contains(name, sep)
    requires forall k :: 0 < k < |sep| ==> sep[k] != sep[0]
    ensures forall j :: 0 <= j < |name| ==> !OccursAt(name + sep, sep, j)
  {
    NotContainsNowhere(name, sep);
    forall j | 0 <= j < |name| ensures !OccursAt(name + sep, sep, j) {
      if j + |sep| <= |name| {
        assert !OccursAt(name, sep, j);
        assert (name + sep)[j..j + |sep|] == name[j..j + |sep|];
      } else {
        OccursStraddling(name, sep, j);
      }
    }
  }

  lemma OccursStraddling(name: string, sep: string, j: nat)
    requires |sep| > 0 && forall k :: 0 < k < |sep| ==> sep[k] != sep[0]
    requires j < |name| < j + |sep|
    ensures !OccursAt(name + sep, sep, j)
  {
    var s := name + sep;
    assert s[j..j + |sep|][|name| - j] == s[|name|] == sep[0];
    assert sep[|name| - j] != sep[0];
  }

  lemma OccursShift(s: string, sub: string)
    requires s != []
    ensures forall j :: 1 <= j ==> OccursAt(s, sub, j) == OccursAt(s[1..], sub, j - 1)
  {
    forall j | 1 <= j ensures OccursAt(s, sub, j) == OccursAt(s[1..], sub, j - 1) {
      if j + |sub| <= |s| {
        assert s[j..j + |sub|] == s[1..][j - 1..j - 1 + |sub|];
      }
    }
  }

  /** `s.split(sep)` with an explicit, non-empty separator: every occurrence
      splits, empty fields are kept. */
  function Split(s: string, sep: string): (r: seq<string>)
    requires |sep| > 0
    ensures |r| >= 1
    decreases |s|
  {
    match Find(s, sep)
    case None => [s]
    case Some(i) => [s[..i]] + Split(s[i + |sep|..], sep)
  }

  /** `s.split()`: the maximal runs of non-whitespace characters. */
  function SplitWhitespace(s: string): seq<string>
    decreases |s|
  {
    if s == [] then []
    else if IsSpace(s[0]) then SplitWhitespace(s[1..])
    else
      var n := WordLength(s);
      [s[..n]] + SplitWhitespace(s[n..])
  }

  /** The length of the run of non-whitespace characters that starts `s`. */
  function WordLength(s: string): (n: nat)
    ensures n <= |s|
  {
    if s == [] || IsSpace(s[0]) then 0 else 1 + WordLength(s[1..])
  }

  /** The run of non-whitespace characters that starts `w + rest` is `w`. */
  lemma {:induction false} WordLengthPrefix(w: string, rest: string)
    requires forall i :: 0 <= i < |w| ==> !IsSpace(w[i])
    requires rest == [] || IsSpace(rest[0])
    ensures WordLength(w + rest) == |w|
    decreases |w|
  {
    if w == [] {
      assert w + rest == rest;
    } else {
      assert (w + rest)[0] == w[0];
      assert (w + rest)[1..] == w[1..] + rest;
      WordLengthPrefix(w[1..], rest);
    }
  }

  /** A word followed by whitespace, or by nothing, is the first word. */
  lemma WordsCons(w: string, rest: string)
    requires w != [] && forall i :: 0 <= i < |w| ==> !IsSpace(w[i])
    requires rest == [] || IsSpace(rest[0])
    ensures SplitWhitespace(w + rest) == [w] + SplitWhitespace(rest)
  {
    var s := w + rest;
    assert s[0] == w[0];
    WordLengthPrefix(w, rest);
    assert s[..|w|] == w && s[|w|..] == rest;
  }

  /** A string without whitespace is one word. */
  lemma WordsOne(w: string)
    requires w != [] && forall i :: 0 <= i < |w| ==> !IsSpace(w[i])
    ensures SplitWhitespace(w) == [w]
  {
    WordLengthPrefix(w, []);
    assert w + [] == w;
    assert w[..|w|] == w && w[|w|..] == [];
  }

  /** Leading whitespace does not change the words. */
  lemma WordsSpace(c: char, rest: string)
    requires IsSpace(c)
    ensures SplitWhitespace([c] + rest) == SplitWhitespace(rest)
  {
    assert ([c] + rest)[1..] == rest;
  }

  /** `sep.join(parts)` */
  function Join(sep: string, parts: seq<string>): string {
    if parts == [] then ""
    else if |parts| == 1 then parts[0]
    else parts[0] + sep + Join(sep, parts[1..])
  }

  lemma {:induction false} JoinSnoc(sep: string, parts: seq<string>, x: string)
    ensures Join(sep, parts + [x]) == if parts == [] then x else Join(sep, parts) + sep + x
  {
    if |parts| >= 2 {
      assert (parts + [x])[1..] == parts[1..] + [x];
      JoinSnoc(sep, parts[1..], x);
    } else if |parts| == 1 {
      assert (parts + [x])[1..] == [x];
    }
  }

  /** `s.replace(pat, rep)`: leftmost, non-overlapping occurrences. */
  function Replace(s: string, pat: string, rep: string): (r: string)
    requires |pat| > 0
    ensures !Contains(s, pat) ==> r == s
    decreases |s|
  {
    if s == [] then s
    else if pat <= s then rep + Replace(s[|pat|..], pat, rep)
    else [s[0]] + Replace(s[1..], pat, rep)
  }

  /** A text that lacks the first character of `sub` does not contain `sub`. */
  lemma {:induction false} NotContains(s: string, sub: string)
    requires sub != [] && sub[0] !in s
    ensures !Contains(s, sub)
  {
    if s != [] {
      assert s[0] != sub[0];
      assert forall c :: c in s[1..] ==> c in s;
      NotContains(s[1..], sub);
    }
  }

  /** `replace` introduces no character that is neither in the text nor in the
      replacement. */
  lemma {:induction false} ReplaceKeepsOut(s: string, pat: string, rep: string, c: char)
    requires |pat| > 0 && c !in s && c !in rep
    ensures c !in Replace(s, pat, rep)
    decreases |s|
  {
    if s != [] {
      if pat <= s {
        assert forall x :: x in s[|pat|..] ==> x in s;
        ReplaceKeepsOut(s[|pat|..], pat, rep, c);
      } else {
        assert forall x :: x in s[1..] ==> x in s;
        ReplaceKeepsOut(s[1..], pat, rep, c);
      }
    }
  }

  /** Replacing a character by a text without it removes every occurrence of
      it. */
  lemma {:induction false} ReplaceRemoves(s: string, c: char, rep: string)
    requires c !in rep
    ensures c !in Replace(s, [c], rep)
    decreases |s|
  {
    if s != [] {
      if [c] <= s {
        ReplaceRemoves(s[1..], c, rep);
      } else {
        assert s[0] != c;
        ReplaceRemoves(s[1..], c, rep);
      }
    }
  }

  /** The characters at which Python's `str.splitlines()` ends a line. */
  predicate IsLineBoundary(c: char) {
    var n := c as int;
    (10 <= n <= 13) || (28 <= n <= 30) || n == 0x85 || n == 0x2028 || n == 0x2029
  }

  /** The index of the first line boundary of `s`, or `|s|` when there is none. */
  function LineEnd(s: string): (n: nat)
    ensures n <= |s| && (n < |s| ==> IsLineBoundary(s[n]))
    ensures forall i :: 0 <= i < n ==> !IsLineBoundary(s[i])
  {
    if s == [] || IsLineBoundary(s[0]) then 0 else 1 + LineEnd(s[1..])
  }

  /** `s.splitlines()`: "\r\n" is one boundary, and a final boundary does not open
      an empty last line. */
  function SplitLines(s: string): (r: seq<string>)
    ensures forall k :: 0 <= k < |r| ==> forall i :: 0 <= i < |r[k]| ==> !IsLineBoundary(r[k][i])
    decreases |s|
  {
    if s == [] then []
    else
      var n := LineEnd(s);
      if n == |s| then [s]
      else
        var width := if s[n] == '\r' && n + 1 < |s| && s[n + 1] == '\n' then 2 else 1;
        [s[..n]] + SplitLines(s[n + width..])
  }

  function DigitChar(d: nat): char
    requires d < 10
  {
    ('0' as int + d) as char
  }

  /** `str(n)` for a natural number. */
  function NatToString(n: nat): (r: string)
    ensures |r| >= 1
    ensures forall i :: 0 <= i < |r| ==> '0' <= r[i] <= '9'
  {
    if n < 10 then [DigitChar(n)] else NatToString(n / 10) + [DigitChar(n % 10)]
  }

  /** `str(n)` for an integer. */
  function IntToString(n: int): (r: string)
    ensures |r| >= 1
  {
    if n < 0 then "-" + NatToString(-n) else NatToString(n)
  }

  /** The value of the decimal digits `s`. */
  function DigitsValue(s: string): nat
    requires forall i :: 0 <= i < |s| ==> '0' <= s[i] <= '9'
  {
    if s == [] then 0 else 10 * DigitsValue(s[..|s| - 1]) + (s[|s| - 1] as int - '0' as int)
  }

  /** `str(n)` is read back as `n`: the rendering loses nothing. */
  lemma {:induction false} NatToStringValue(n: nat)
    ensures DigitsValue(NatToString(n)) == n
  {
    if n >= 10 {
      var r := NatToString(n);
      assert r[..|r| - 1] == NatToString(n / 10);
      NatToStringValue(n / 10);
    }
  }

  /** `repr(s)` for a string without quotes or escapes in it. */
  function StrRepr(s: string): string {
    "'" + s + "'"
  }

  /** `str(xs)` for a list of strings. */
  function StrListRepr(xs: seq<string>): string {
    "[" + Join(", ", seq(|xs|, i requires 0 <= i < |xs| => StrRepr(xs[i]))) + "]"
  }

  /** Concatenation of a list of strings (`"".join(xs)`). */
  function Concat(xs: seq<string>): string {
    if xs == [] then "" else xs[0] + Concat(xs[1..])
  }

  lemma {:induction false} ConcatAppend(xs: seq<string>, ys: seq<string>)
    ensures Concat(xs + ys) == Concat(xs) + Concat(ys)
  {
    if xs != [] {
      assert (xs + ys)[0] == xs[0] && (xs + ys)[1..] == xs[1..] + ys;
      ConcatAppend(xs[1..], ys);
    } else {
      assert xs + ys == ys;
    }
  }
  /** Each part preceded by the separator. */
  function Prefixed(sep: string, parts: seq<string>): (r: seq<string>)
    ensures |r| == |parts|
  {
    if parts == [] then [] else [sep + parts[0]] + Prefixed(sep, parts[1..])
  }

  /** Joining a head and a list is the head followed by every part with the
      separator in front of it. */
  lemma {:induction false} JoinAsPrefixed(sep: string, head: string, parts: seq<string>)
    ensures Join(sep, [head] + parts) == head + Concat(Prefixed(sep, parts))
    decreases |parts|
  {
    if parts != [] {
      var all := [head] + parts;
      var tail := Concat(Prefixed(sep, parts[1..]));
      assert all[0] == head && all[1..] == [parts[0]] + parts[1..];
      JoinAsPrefixed(sep, parts[0], parts[1..]);
      var pre := Prefixed(sep, parts);
      assert pre[0] == sep + parts[0] && pre[1..] == Prefixed(sep, parts[1..]);
      AppendAssoc(head, sep, parts[0] + tail);
      AppendAssoc(sep, parts[0], tail);
    }
  }

  /** `s.split(c)` for a one-character separator: every occurrence splits and
      empty fields are kept. */
  function SplitChar(s: string, c: char): (r: seq<string>)
    ensures |r| >= 1
    ensures forall k :: 0 <= k < |r| ==> c !in r[k]
  {
    if s == [] then [""]
    else
      var rest := SplitChar(s[1..], c);
      if s[0] == c then [""] + rest else [[s[0]] + rest[0]] + rest[1..]
  }

  /** Splitting at a separator between two texts splits each of them. */
  lemma {:induction false} SplitCharAppend(a: string, c: char, b: string)
    ensures SplitChar(a + [c] + b, c) == SplitChar(a, c) + SplitChar(b, c)
    decreases |a|
  {
    if a == [] {
      assert a + [c] + b == [c] + b && ([c] + b)[1..] == b;
    } else {
      assert (a + [c] + b)[1..] == a[1..] + [c] + b;
      SplitCharAppend(a[1..], c, b);
    }
  }

  /** A text without the separator is one field. */
  lemma {:induction false} SplitCharNone(s: string, c: char)
    requires c !in s
    ensures SplitChar(s, c) == [s]
    decreases |s|
  {
    if s != [] {
      assert c !in s[1..];
      SplitCharNone(s[1..], c);
      assert [s[0]] + s[1..] == s;
    }
  }

  lemma {:induction false} JoinAppend(sep: string, a: seq<string>, b: seq<string>)
    requires a != [] && b != []
    ensures Join(sep, a + b) == Join(sep, a) + sep + Join(sep, b)
    decreases |a|
  {
    if |a| == 1 {
      assert (a + b)[1..] == b;
    } else {
      assert (a + b)[1..] == a[1..] + b;
      JoinAppend(sep, a[1..], b);
    }
  }

  /** Splitting a join at its separator gives the parts back, when no part
      holds the separator. */
  lemma {:induction false} SplitCharJoin(xs: seq<string>, c: char)
    requires xs != [] && forall k :: 0 <= k < |xs| ==> c !in xs[k]
    ensures SplitChar(Join([c], xs), c) == xs
    decreases |xs|
  {
    SplitCharNone(xs[0], c);
    if |xs| > 1 {
      SplitCharJoin(xs[1..], c);
      SplitCharAppend(xs[0], c, Join([c], xs[1..]));
      assert xs == [xs[0]] + xs[1..];
    }
  }

  /** Joining the fields of a split at the separator gives the text back. */
  lemma {:induction false} JoinSplitChar(s: string, c: char)
    ensures Join([c], SplitChar(s, c)) == s
    decreases |s|
  {
    if s != [] {
      var rest := SplitChar(s[1..], c);
      JoinSplitChar(s[1..], c);
      if s[0] == c {
        assert ([""] + rest)[1..] == rest;
      } else {
        JoinGrowFirst(s[0], [c], rest);
      }
    }
  }

  /** Joining after a character is put in front of the first part. */
  lemma JoinGrowFirst(x: char, sep: string, parts: seq<string>)
    requires parts != []
    ensures Join(sep, [[x] + parts[0]] + parts[1..]) == [x] + Join(sep, parts)
  {
    var r := [[x] + parts[0]] + parts[1..];
    assert r[0] == [x] + parts[0] && r[1..] == parts[1..];
    if |parts| > 1 {
      AppendAssoc([x] + parts[0], sep, Join(sep, parts[1..]));
      AppendAssoc([x], parts[0], sep + Join(sep, parts[1..]));
      AppendAssoc(parts[0], sep, Join(sep, parts[1..]));
    }
  }

  lemma AppendAssoc<T>(a: seq<T>, b: seq<T>, c: seq<T>)
    ensures (a + b) + c == a + (b + c)
  {
  }
}
