/**
 * The string operations the configuration script relies on: Python's decimal
 * formatting (`%d`, `{n:04d}`), `os.path.join` and `os.path.dirname` for the
 * paths it builds, the `in` substring test and `", ".join(sorted(...))`.
 */
module Strings {

  // ---------------------------------------------------------------------------
  // Decimal digits
  // ---------------------------------------------------------------------------

  predicate IsDigit(c: char) { '0' <= c <= '9' }

  predicate AllDigits(s: string) { forall i :: 0 <= i < |s| ==> IsDigit(s[i]) }

  function DigitChar(d: nat): (c: char)
    requires d < 10
    ensures IsDigit(c) && (c as int) - ('0' as int) == d
  {
    ['0', '1', '2', '3', '4', '5', '6', '7', '8', '9'][d]
  }

  function DigitValue(c: char): nat
    requires IsDigit(c)
  {
    (c as int) - ('0' as int)
  }

  /** Python's `str(n)` for a non-negative integer: no leading zeros, "0" for zero. */
  function Digits(n: nat): (s: string)
    ensures |s| >= 1 && AllDigits(s)
    ensures |s| > 1 ==> s[0] != '0'
    decreases n
  {
    if n < 10 then [DigitChar(n)] else Digits(n / 10) + [DigitChar(n % 10)]
  }

  /** The value of a string of decimal digits; leading zeros contribute nothing. */
  function ParseDigits(s: string): nat
    requires AllDigits(s)
    decreases |s|
  {
    if s == [] then 0 else ParseDigits(s[..|s| - 1]) * 10 + DigitValue(s[|s| - 1])
  }

  lemma {:induction false} ParseDigitsOfDigits(n: nat)
    ensures ParseDigits(Digits(n)) == n
    decreases n
  {
    var s := Digits(n);
    if n >= 10 {
      ParseDigitsOfDigits(n / 10);
      assert s[..|s| - 1] == Digits(n / 10);
    }
  }

  function Zeros(k: nat): (s: string)
    ensures |s| == k && AllDigits(s)
    ensures forall i :: 0 <= i < k ==> s[i] == '0'
  {
    seq(k, _ => '0')
  }

  lemma {:induction false} ParseDigitsIgnoresLeadingZeros(k: nat, s: string)
    requires AllDigits(s)
    ensures ParseDigits(Zeros(k) + s) == ParseDigits(s)
    decreases |s|
  {
    if s == [] {
      ParseZeros(k);
      assert Zeros(k) + s == Zeros(k);
    } else {
      var t := Zeros(k) + s;
      assert t[..|t| - 1] == Zeros(k) + s[..|s| - 1];
      ParseDigitsIgnoresLeadingZeros(k, s[..|s| - 1]);
    }
  }

  lemma {:induction false} ParseZeros(k: nat)
    ensures ParseDigits(Zeros(k)) == 0
    decreases k
  {
    if k > 0 {
      assert Zeros(k)[..k - 1] == Zeros(k - 1);
      ParseZeros(k - 1);
    }
  }

  /** Left-pads a digit string with '0' up to `width` characters; never truncates. */
  function ZeroPad(s: string, width: nat): string
  {
    if |s| >= width then s else Zeros(width - |s|) + s
  }

  /** Python's `f"{n:04d}"`: sign first, then zero-padded to a total width of four. */
  function FormatD04(n: int): string
  {
    if n >= 0 then ZeroPad(Digits(n), 4) else "-" + ZeroPad(Digits(-n), 3)
  }

  /** Python's `"%d" % n` and `f"{n}"` for an integer. */
  function FormatInt(n: int): string
  {
    if n >= 0 then Digits(n) else "-" + Digits(-n)
  }

  /**
   * `{n:04d}` of a non-negative index is at least four digits long, ends with the
   * index's own decimal digits (it is never truncated) and reads back as `n`.
   */
  lemma FormatD04Properties(n: nat)
    ensures |FormatD04(n)| >= 4 && |FormatD04(n)| == if |Digits(n)| >= 4 then |Digits(n)| else 4
    ensures AllDigits(FormatD04(n))
    ensures FormatD04(n)[|FormatD04(n)| - |Digits(n)|..] == Digits(n)
    ensures ParseDigits(FormatD04(n)) == n
  {
    ParseDigitsOfDigits(n);
    if |Digits(n)| < 4 {
      ParseDigitsIgnoresLeadingZeros(4 - |Digits(n)|, Digits(n));
    }
  }

  lemma FormatD04Injective(a: nat, b: nat)
    requires FormatD04(a) == FormatD04(b)
    ensures a == b
  {
    FormatD04Properties(a);
    FormatD04Properties(b);
  }

  // ---------------------------------------------------------------------------
  // Paths
  // ---------------------------------------------------------------------------

  predicate NoSlash(s: string) { forall i :: 0 <= i < |s| ==> s[i] != '/' }

  /** `os.path.join(base, leaf)` for a leaf that is not absolute. */
  function Join(base: string, leaf: string): string
  {
    if base == [] || base[|base| - 1] == '/' then base + leaf else base + "/" + leaf
  }

  /** The path component that starts at index `i` of `p` is "." or "..". */
  predicate DotComponent(p: string, i: nat)
  {
    i < |p| && p[i] == '.' &&
    (i + 1 == |p| || p[i + 1] == '/' || (p[i + 1] == '.' && (i + 2 == |p| || p[i + 2] == '/')))
  }

  /** An absolute path that `posixpath.normpath` leaves as it is, hence one that
      `os.path.abspath(os.path.normpath(...))` can return: it starts with "/", it
      has no empty component except a leading "//", no "." or ".." component, and
      no trailing "/" unless it is the root "/" or "//". */
  predicate NormalAbsolute(p: string)
  {
    |p| > 0 && p[0] == '/' && (p == "/" || p == "//" || p[|p| - 1] != '/') &&
    (forall i :: 1 <= i < |p| - 1 && p[i] == '/' ==> p[i + 1] != '/') &&
    (forall i :: 0 <= i < |p| && p[i] == '/' ==> !DotComponent(p, i + 1))
  }

  /** Paths with a "." or ".." component or a doubled "/" inside are not in
      normal form; the default checkpoint directory's shape is. */
  lemma NormalAbsoluteExamples()
    ensures !NormalAbsolute("/a/./b") && !NormalAbsolute("/a//b") && !NormalAbsolute("/a/x/../b")
    ensures !NormalAbsolute("/a/b/") && !NormalAbsolute("a/b")
    ensures NormalAbsolute("/out/ckpts") && NormalAbsolute("//a") && NormalAbsolute("/")
  {
    var p1: string, p2: string, p3: string := "/a/./b", "/a//b", "/a/x/../b";
    assert p1[2] == '/' && DotComponent(p1, 3);
    assert p2[2] == '/' && p2[3] == '/';
    assert p3[4] == '/' && DotComponent(p3, 5);
  }

  /** Joining a plain leaf other than "." and ".." to a path in normal form gives
      a path in normal form, which `os.path.abspath` returns unchanged. */
  lemma JoinNormal(base: string, leaf: string)
    requires NormalAbsolute(base) && NoSlash(leaf)
    requires leaf != [] && leaf != "." && leaf != ".."
    ensures NormalAbsolute(Join(base, leaf))
  {
    var p := Join(base, leaf);
    var b := if base[|base| - 1] == '/' then base else base + "/";
    assert p == b + leaf;
    assert |b| >= 1 && b[|b| - 1] == '/';
    assert b == "/" || b == "//" || b[|b| - 2] != '/';
    forall i | 1 <= i < |p| - 1 && p[i] == '/' ensures p[i + 1] != '/' {
      if i + 1 >= |b| {
        assert p[i + 1] == leaf[i + 1 - |b|];
      } else {
        assert p[i] == base[i] && p[i + 1] == b[i + 1];
      }
    }
    forall i | 0 <= i < |p| && p[i] == '/' ensures !DotComponent(p, i + 1) {
      if i + 1 == |b| {
        assert p[i + 1..] == leaf;
      } else if i + 1 < |b| && b != base {
        DotComponentPrefix(base, "/" + leaf, i + 1);
      }
    }
  }

  /** Whether a "." or ".." component starts at `j` is not changed by appending a
      part that starts a new component. */
  lemma DotComponentPrefix(base: string, rest: string, j: nat)
    requires j <= |base| && rest != [] && rest[0] == '/'
    ensures DotComponent(base + rest, j) == DotComponent(base, j)
  {
    var p := base + rest;
    if j + 2 < |base| {
      assert p[j..j + 3] == base[j..j + 3];
    }
  }

  /** Index one past the last '/' in `s`, 0 if there is none (`s.rfind('/') + 1`). */
  function AfterLastSlash(s: string): (i: nat)
    ensures i <= |s|
    ensures i > 0 ==> s[i - 1] == '/'
    ensures forall j :: i <= j < |s| ==> s[j] != '/'
    decreases |s|
  {
    if s == [] then 0
    else if s[|s| - 1] == '/' then |s|
    else AfterLastSlash(s[..|s| - 1])
  }

  predicate AllSlashes(s: string) { forall i :: 0 <= i < |s| ==> s[i] == '/' }

  function RStripSlashes(s: string): string
    decreases |s|
  {
    if s != [] && s[|s| - 1] == '/' then RStripSlashes(s[..|s| - 1]) else s
  }

  /** `os.path.dirname(p)` (POSIX). */
  function Dirname(p: string): string
  {
    var head := p[..AfterLastSlash(p)];
    if head != [] && !AllSlashes(head) then RStripSlashes(head) else head
  }

  lemma AfterLastSlashOfJoin(base: string, leaf: string)
    requires NoSlash(leaf)
    requires base != [] && base[|base| - 1] == '/'
    ensures AfterLastSlash(base + leaf) == |base|
    decreases |leaf|
  {
    if leaf != [] {
      assert (base + leaf)[..|base + leaf| - 1] == base + leaf[..|leaf| - 1];
      AfterLastSlashOfJoin(base, leaf[..|leaf| - 1]);
    } else {
      assert base + leaf == base;
    }
  }

  /** The parent of a directory built by `Join` from a normalised absolute base
      and a plain leaf is that base again. */
  lemma DirnameOfJoin(base: string, leaf: string)
    requires NormalAbsolute(base) && NoSlash(leaf)
    ensures Dirname(Join(base, leaf)) == base
  {
    if base == "/" {
      AfterLastSlashOfJoin(base, leaf);
      assert (base + leaf)[..1] == "/";
    } else if base == "//" {
      AfterLastSlashOfJoin(base, leaf);
      assert (base + leaf)[..2] == "//";
    } else {
      var b' := base + "/";
      assert Join(base, leaf) == b' + leaf;
      AfterLastSlashOfJoin(b', leaf);
      assert (b' + leaf)[..|b'|] == b';
      assert b'[..|b'| - 1] == base;
      assert !AllSlashes(b') by { assert b'[|base| - 1] != '/'; }
      assert RStripSlashes(b') == RStripSlashes(base) == base;
    }
  }

  // ---------------------------------------------------------------------------
  // Substrings, joining, sorting
  // ---------------------------------------------------------------------------

  /** Python's `sub in s` for strings. */
  predicate Contains(s: string, sub: string)
    decreases |s|
  {
    sub <= s || (s != [] && Contains(s[1..], sub))
  }

  predicate OccursAt(s: string, sub: string, i: int)
  {
    0 <= i && i + |sub| <= |s| && s[i..i + |sub|] == sub
  }

  /** `Contains` agrees with the positional definition of a substring. */
  lemma {:induction false} ContainsAt(s: string, sub: string)
    ensures Contains(s, sub) <==> exists i :: OccursAt(s, sub, i)
    decreases |s|
  {
    if sub <= s {
      assert OccursAt(s, sub, 0);
    }
    if s != [] {
      ContainsAt(s[1..], sub);
      if Contains(s[1..], sub) {
        var i :| OccursAt(s[1..], sub, i);
        DropSlice(s, i, |sub|);
        assert OccursAt(s, sub, i + 1);
      }
      if exists i :: OccursAt(s, sub, i) {
        var i :| OccursAt(s, sub, i);
        if i > 0 {
          DropSlice(s, i - 1, |sub|);
          assert OccursAt(s[1..], sub, i - 1);
        } else {
          assert sub <= s;
        }
      }
    } else {
      if exists i :: OccursAt(s, sub, i) {
        var i :| OccursAt(s, sub, i);
        assert sub == [];
      }
    }
  }

  lemma DropSlice(s: string, i: nat, n: nat)
    requires i + 1 + n <= |s|
    ensures s[1..][i..i + n] == s[i + 1..i + 1 + n]
  {
    var t1, t2 := s[1..][i..i + n], s[i + 1..i + 1 + n];
    forall k | 0 <= k < n ensures t1[k] == t2[k] {
    }
  }

  /** Python's `sep.join(xs)`. */
  function JoinWith(sep: string, xs: seq<string>): string
    decreases |xs|
  {
    if xs == [] then "" else if |xs| == 1 then xs[0] else xs[0] + sep + JoinWith(sep, xs[1..])
  }

  /** Python's `a <= b` on strings: lexicographic order on code points. */
  predicate LexLe(a: string, b: string)
    decreases |a|
  {
    a == [] || (b != [] && (a[0] < b[0] || (a[0] == b[0] && LexLe(a[1..], b[1..]))))
  }

  lemma {:induction false} LexLeTotal(a: string, b: string)
    ensures LexLe(a, b) || LexLe(b, a)
    decreases |a|
  {
    if a != [] && b != [] && a[0] == b[0] {
      LexLeTotal(a[1..], b[1..]);
    }
  }

  lemma {:induction false} LexLeTransitive(a: string, b: string, c: string)
    requires LexLe(a, b) && LexLe(b, c)
    ensures LexLe(a, c)
    decreases |a|
  {
    if a != [] && b != [] && c != [] && a[0] == b[0] == c[0] {
      LexLeTransitive(a[1..], b[1..], c[1..]);
    }
  }

  predicate SortedStrings(xs: seq<string>)
  {
    forall i, j :: 0 <= i < j < |xs| ==> LexLe(xs[i], xs[j])
  }

  function Insert(x: string, xs: seq<string>): (r: seq<string>)
    requires SortedStrings(xs)
    ensures SortedStrings(r) && multiset(r) == multiset(xs) + multiset{x}
    decreases |xs|
  {
    if xs == [] then [x]
    else if LexLe(x, xs[0]) then
      LexLeFirstIsLeAll(x, xs);
      [x] + xs
    else
      LexLeTotal(x, xs[0]);
      var rest := Insert(x, xs[1..]);
      InsertKeepsFirst(xs[0], x, xs[1..], rest);
      assert xs == [xs[0]] + xs[1..];
      [xs[0]] + rest
  }

  lemma LexLeFirstIsLeAll(x: string, xs: seq<string>)
    requires SortedStrings(xs) && xs != [] && LexLe(x, xs[0])
    ensures SortedStrings([x] + xs)
  {
    forall j | 0 < j < |xs| ensures LexLe(x, xs[j]) {
      LexLeTransitive(x, xs[0], xs[j]);
    }
  }

  lemma InsertKeepsFirst(h: string, x: string, t: seq<string>, r: seq<string>)
    requires SortedStrings([h] + t) && LexLe(h, x)
    requires SortedStrings(r) && multiset(r) == multiset(t) + multiset{x}
    ensures SortedStrings([h] + r)
    ensures multiset([h] + r) == multiset([h] + t) + multiset{x}
  {
    assert multiset([h] + r) == multiset([h]) + multiset(r);
    assert multiset([h] + t) == multiset([h]) + multiset(t);
    forall j | 0 <= j < |r| ensures LexLe(h, r[j]) {
      assert r[j] in multiset(r);
      if r[j] == x {
      } else {
        assert r[j] in multiset(t);
        var k :| 0 <= k < |t| && t[k] == r[j];
        assert ([h] + t)[0] == h && ([h] + t)[k + 1] == t[k];
      }
    }
  }

  /** Python's `sorted(xs)` for a list of strings. */
  function SortStrings(xs: seq<string>): (r: seq<string>)
    ensures SortedStrings(r) && multiset(r) == multiset(xs)
    decreases |xs|
  {
    if xs == [] then []
    else
      assert xs == [xs[0]] + xs[1..];
      Insert(xs[0], SortStrings(xs[1..]))
  }
}
