/** Python strings: code-point order, prefixes and suffixes, substring search, decimal numerals. */
module Text {

  datatype Option<+T> = None | Some(value: T)

  /** `a <= b` on Python strings: first differing character decides, a proper prefix comes first. */
  predicate Le(a: string, b: string) {
    a == "" || (b != "" && (a[0] < b[0] || (a[0] == b[0] && Le(a[1..], b[1..]))))
  }

  predicate Lt(a: string, b: string) {
    Le(a, b) && a != b
  }

  lemma {:induction false} LeReflexive(a: string)
    ensures Le(a, a)
  {
    if a != "" { LeReflexive(a[1..]); }
  }

  /** The order is total: of two strings one is at most the other, and both only when they are equal. */
  lemma {:induction false} LeTotal(a: string, b: string)
    ensures Le(a, b) || Le(b, a)
    ensures Le(a, b) && Le(b, a) ==> a == b
  {
    if a != "" && b != "" && a[0] == b[0] {
      LeTotal(a[1..], b[1..]);
      assert a == [a[0]] + a[1..] && b == [b[0]] + b[1..];
    }
  }

  lemma {:induction false} LeTransitive(a: string, b: string, c: string)
    requires Le(a, b) && Le(b, c)
    ensures Le(a, c)
  {
    if a != "" && a[0] == b[0] == c[0] {
      LeTransitive(a[1..], b[1..], c[1..]);
    }
  }

  /** The order by positions: a prefix comes first, otherwise the character at the first difference decides. */
  ghost predicate Precedes(a: string, b: string) {
    a <= b || exists i: nat :: Differ(a, b, i) && a[i] < b[i]
  }

  predicate Differ(a: string, b: string, i: nat) {
    i < |a| && i < |b| && a[..i] == b[..i] && a[i] != b[i]
  }

  /** Comparing character by character is the order of code points: "1" comes before "2", "a" before "ab". */
  lemma {:induction false} LeIsCodePointOrder(a: string, b: string)
    ensures Le(a, b) <==> Precedes(a, b)
  {
    if a == "" {
      assert a <= b;
    } else if b != "" && a[0] == b[0] {
      LeIsCodePointOrder(a[1..], b[1..]);
      FirstCharacterShared(a, b);
    } else if b != "" {
      assert Differ(a, b, 0);
      assert forall i: nat | Differ(a, b, i) && i > 0 :: a[..i][0] == b[..i][0];
    }
  }

  lemma FirstCharacterShared(a: string, b: string)
    requires a != "" && b != "" && a[0] == b[0]
    ensures Precedes(a, b) <==> Precedes(a[1..], b[1..])
  {
    var s, t := a[1..], b[1..];
    assert a == [a[0]] + s && b == [a[0]] + t;
    if i: nat :| Differ(a, b, i) && a[i] < b[i] {
      DifferShifts(a, b, i - 1);
      assert s[i - 1] < t[i - 1];
    }
    if i: nat :| Differ(s, t, i) && s[i] < t[i] {
      DifferShifts(a, b, i);
    }
  }

  lemma DifferShifts(a: string, b: string, i: nat)
    requires a != "" && b != "" && a[0] == b[0]
    ensures Differ(a, b, i + 1) <==> Differ(a[1..], b[1..], i)
  {
    if i < |a| - 1 && i < |b| - 1 {
      assert a[..i + 1] == [a[0]] + a[1..][..i] && b[..i + 1] == [b[0]] + b[1..][..i];
    }
  }

  predicate EndsWith(s: string, suffix: string) {
    |suffix| <= |s| && s[|s| - |suffix|..] == suffix
  }

  lemma LastCharacter(s: string, suffix: string)
    requires suffix != ""
    ensures EndsWith(s, suffix) ==> s != "" && s[|s| - 1] == suffix[|suffix| - 1]
  {}

  /** A slash in `s` lies before any slash-free suffix of `s`. */
  lemma SlashBeforeSuffix(s: string, suffix: string, i: nat)
    requires EndsWith(s, suffix) && '/' !in suffix
    requires i < |s| && s[i] == '/'
    ensures i < |s| - |suffix|
  {
    var k := |s| - |suffix|;
    assert forall j | k <= j < |s| :: s[j] == s[k..][j - k];
  }

  /** Two strings between the same prefix and the same suffix are equal when the wholes are. */
  lemma Between(prefix: string, a: string, b: string, suffix: string)
    requires prefix + a + suffix == prefix + b + suffix
    ensures a == b
  {
    var s, t := prefix + a + suffix, prefix + b + suffix;
    assert |a| == |b|;
    assert a == s[|prefix|..|prefix| + |a|] == t[|prefix|..|prefix| + |b|] == b;
  }

  lemma DropBothEnds(s: string, n: nat, suffix: string)
    requires EndsWith(s, suffix) && n <= |s| - |suffix|
    ensures EndsWith(s[n..], suffix)
    ensures s[n..][..|s[n..]| - |suffix|] == s[n..|s| - |suffix|]
  {
    assert s[n..][|s[n..]| - |suffix|..] == s[|s| - |suffix|..];
  }

  predicate OccursAt(s: string, pattern: string, i: nat) {
    i <= |s| && pattern <= s[i..]
  }

  /** Where `pattern` first occurs in `s`, if it does (`pattern in s`, `s.split(pattern, 1)`). */
  function Find(s: string, pattern: string): (found: Option<nat>)
    ensures found.Some? ==> OccursAt(s, pattern, found.value)
    ensures forall j | OccursAt(s, pattern, j) :: found.Some? && found.value <= j
    decreases |s|
  {
    if pattern <= s then Some(0)
    else if s == "" then None
    else
      assert forall j: nat | 0 < j && OccursAt(s, pattern, j) :: OccursAt(s[1..], pattern, j - 1) by {
        forall j: nat | 0 < j && OccursAt(s, pattern, j) ensures OccursAt(s[1..], pattern, j - 1) {
          assert s[1..][j - 1..] == s[j..];
        }
      }
      match Find(s[1..], pattern)
      case None => None
      case Some(i) =>
        assert s[1..][i..] == s[i + 1..];
        Some(i + 1)
  }

  /** The part after the last '/', `path.rsplit("/", 1)[-1]`. */
  function Basename(path: string): (name: string)
    ensures '/' !in name
    ensures EndsWith(path, name)
    ensures '/' !in path ==> name == path
  {
    if '/' !in path then path
    else
      var name := Basename(path[1..]);
      assert path[|path| - |name|..] == path[1..][|path| - 1 - |name|..];
      name
  }

  lemma {:induction false} BasenameOfJoin(dir: string, name: string)
    requires '/' !in name
    ensures Basename(dir + "/" + name) == name
  {
    var path := dir + "/" + name;
    assert path[|dir|] == '/';
    if dir == "" {
      assert path[1..] == name;
    } else {
      assert path[1..] == dir[1..] + "/" + name;
      BasenameOfJoin(dir[1..], name);
    }
  }

  function Digit(d: nat): (c: char)
    requires d < 10
    ensures '0' <= c <= '9'
  {
    ('0' as int + d) as char
  }

  /** The decimal numeral of `n`, zero-padded on the left to at least `width` digits (`f"{n:0{width}d}"`). */
  function Decimal(n: nat, width: nat): (s: string)
    ensures |s| >= width && |s| >= 1
    ensures forall i | 0 <= i < |s| :: '0' <= s[i] <= '9'
    decreases n, width
  {
    if n < 10 && width <= 1 then [Digit(n)]
    else Decimal(n / 10, if width == 0 then 0 else width - 1) + [Digit(n % 10)]
  }

  /** The number a string of decimal digits denotes. */
  function Value(s: string): nat
    requires forall i | 0 <= i < |s| :: '0' <= s[i] <= '9'
  {
    if s == "" then 0
    else 10 * Value(s[..|s| - 1]) + (s[|s| - 1] as int - '0' as int)
  }

  /** Reading a padded numeral gives back the number, whatever the padding, so numerals never collide. */
  lemma {:induction false} DecimalRoundTrip(n: nat, width: nat)
    ensures Value(Decimal(n, width)) == n
    decreases n, width
  {
    var s := Decimal(n, width);
    if n < 10 && width <= 1 {
      assert s[..0] == "";
    } else {
      var w := if width == 0 then 0 else width - 1;
      DecimalRoundTrip(n / 10, w);
      assert s[..|s| - 1] == Decimal(n / 10, w);
    }
  }

  /** A numeral is longer than the width asked for only when the number is, so no zero too many is put in front. */
  lemma {:induction false} DecimalIsShortest(n: nat, width: nat)
    ensures |Decimal(n, width)| > width && |Decimal(n, width)| > 1 ==> Decimal(n, width)[0] != '0'
    decreases n, width
  {
    if !(n < 10 && width <= 1) {
      var w := if width == 0 then 0 else width - 1;
      DecimalIsShortest(n / 10, w);
      if |Decimal(n / 10, w)| == 1 && n / 10 > 0 { OneDigit(n / 10, w); }
    }
  }

  lemma OneDigit(n: nat, width: nat)
    requires |Decimal(n, width)| == 1 && n > 0
    ensures Decimal(n, width)[0] != '0'
  {}
}
