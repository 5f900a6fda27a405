/** The string operations of Go's strings, strconv and fmt packages that the models use. */
module Text {
  import opened Options

  function Find(s: string, c: char): (r: Option<nat>)
    ensures r.None? <==> c !in s
    ensures r.Some? ==> r.value < |s| && s[r.value] == c && c !in s[..r.value]
  {
    if s == "" then None
    else if s[0] == c then Some(0)
    else
      match Find(s[1..], c)
      case None => None
      case Some(i) => assert s[..i + 1] == [s[0]] + s[1..][..i]; Some(i + 1)
  }

  lemma FindIs(s: string, c: char, i: nat)
    requires i < |s| && s[i] == c && c !in s[..i]
    ensures Find(s, c) == Some(i)
  {
  }

  lemma FindSkips(head: string, s: string, c: char)
    requires c !in head
    ensures Find(head + s, c) == match Find(s, c) case None => None case Some(i) => Some(|head| + i)
  {
    hide Find;
    match Find(s, c)
    case None =>
      assert c !in head + s;
    case Some(i) =>
      assert (head + s)[..|head| + i] == head + s[..i];
      FindIs(head + s, c, |head| + i);
  }

  predicate HasSuffix(s: string, suffix: string) {
    |suffix| <= |s| && s[|s| - |suffix|..] == suffix
  }

  /** strings.Split on a one-character separator. */
  function Split(s: string, sep: char): (r: seq<string>)
    ensures |r| > 0
    ensures forall part :: part in r ==> sep !in part
    decreases |s|
  {
    match Find(s, sep)
    case None => [s]
    case Some(i) => [s[..i]] + Split(s[i + 1..], sep)
  }

  function Join(parts: seq<string>, sep: string): string {
    if parts == [] then ""
    else if |parts| == 1 then parts[0]
    else parts[0] + sep + Join(parts[1..], sep)
  }

  lemma {:induction false} JoinAppend(parts: seq<string>, part: string, sep: string)
    ensures Join(parts + [part], sep) == if parts == [] then part else Join(parts, sep) + sep + part
  {
    if |parts| > 1 {
      JoinAppend(parts[1..], part, sep);
      assert (parts + [part])[1..] == parts[1..] + [part];
    }
  }

  /** Splitting loses nothing: joining the parts gives the string back. */
  lemma {:induction false} SplitJoin(s: string, sep: char)
    ensures Join(Split(s, sep), [sep]) == s
    decreases |s|
  {
    match Find(s, sep)
    case None =>
    case Some(i) =>
      SplitJoin(s[i + 1..], sep);
      assert s == s[..i] + [sep] + s[i + 1..];
      assert Split(s, sep)[1..] == Split(s[i + 1..], sep);
  }

  lemma SplitFirst(s: string, i: nat, sep: char)
    requires i < |s| && s[i] == sep && sep !in s[..i]
    ensures Split(s, sep) == [s[..i]] + Split(s[i + 1..], sep)
  {
    FindIs(s, sep, i);
    hide Find;
  }

  lemma SplitNone(s: string, sep: char)
    requires sep !in s
    ensures Split(s, sep) == [s]
  {
  }

  lemma SplitAround(a: string, b: string, sep: char)
    requires sep !in a
    ensures Split(a + [sep] + b, sep) == [a] + Split(b, sep)
  {
    hide Split;
    var s := a + [sep] + b;
    assert s[..|a|] == a && s[|a| + 1..] == b;
    SplitFirst(s, |a|, sep);
  }

  /** Splitting at a separator splits what stands on either side of it. */
  lemma {:induction false} SplitBoth(a: string, sep: char, b: string)
    ensures Split(a + [sep] + b, sep) == Split(a, sep) + Split(b, sep)
    decreases |a|
  {
    hide Find, Split;
    match Find(a, sep)
    case None =>
      SplitNone(a, sep);
      SplitAround(a, b, sep);
    case Some(i) =>
      var rest := a[i + 1..];
      SplitBoth(rest, sep, b);
      SplitAround(a[..i], rest, sep);
      SplitAround(a[..i], rest + [sep] + b, sep);
      assert a == a[..i] + [sep] + rest;
      assert a + [sep] + b == a[..i] + [sep] + (rest + [sep] + b);
  }

  ghost predicate Between(s: string, sep: char, x: string, a: string, b: string) {
    s == a + [sep] + x + b && (b == "" || b[0] == sep)
  }

  /** A part after the first is what stands between two separators, or after the last. */
  lemma {:induction false} PartAfter(s: string, sep: char, x: string)
    requires sep !in x
    ensures x in Split(s, sep)[1..] <==> exists a, b :: Between(s, sep, x, a, b)
    decreases |s|
  {
    if a, b :| Between(s, sep, x, a, b) { SeparatedIn(a, b, sep, x); }
    match Find(s, sep)
    case None =>
    case Some(i) =>
      var rest := s[i + 1..];
      SplitFirst(s, i, sep);
      PartAfter(rest, sep, x);
      assert Split(s, sep)[1..] == Split(rest, sep);
      if x in Split(rest, sep) {
        hide Find;
        InRest(s, i, rest, sep, x);
      }
  }

  lemma SeparatedIn(a: string, b: string, sep: char, x: string)
    requires sep !in x && (b == "" || b[0] == sep)
    ensures x in Split(a + [sep] + x + b, sep)[1..]
  {
    hide Split;
    assert a + [sep] + x + b == a + [sep] + (x + b);
    SplitBoth(a, sep, x + b);
    if b == "" {
      assert x + b == x;
      SplitNone(x, sep);
    } else {
      assert x + b == x + [sep] + b[1..];
      SplitAround(x, b[1..], sep);
    }
    var parts := Split(a, sep) + Split(x + b, sep);
    assert parts[|Split(a, sep)|] == x && |Split(a, sep)| >= 1;
    assert parts[1..][|Split(a, sep)| - 1] == x;
  }

  lemma InRest(s: string, i: nat, rest: string, sep: char, x: string)
    requires i < |s| && s[i] == sep && rest == s[i + 1..] && sep !in x && x in Split(rest, sep)
    requires x in Split(rest, sep)[1..] ==> exists a, b :: Between(rest, sep, x, a, b)
    ensures exists a, b :: Between(s, sep, x, a, b)
  {
    hide Split;
    assert s == s[..i] + [sep] + rest;
    if x in Split(rest, sep)[1..] {
      var a, b :| Between(rest, sep, x, a, b);
      assert s[..i] + [sep] + (a + [sep] + x + b) == s[..i] + [sep] + a + [sep] + x + b;
      assert Between(s, sep, x, s[..i] + [sep] + a, b);
    } else {
      FirstPart(rest, sep);
      assert rest == x + rest[|x|..];
      assert Between(s, sep, x, s[..i], rest[|x|..]);
    }
  }

  lemma FirstPart(s: string, sep: char)
    ensures var x := Split(s, sep)[0];
      x <= s && (|x| == |s| || s[|x|] == sep)
  {
  }

  // ----- decimal numbers -----------------------------------------------------------------

  function Digit(n: nat): char
    requires n < 10
  {
    '0' + n as char
  }

  function Decimal(n: nat): (r: string)
    ensures if n < 10 then |r| == 1 else |r| >= 2
  {
    if n < 10 then [Digit(n)] else Decimal(n / 10) + [Digit(n % 10)]
  }

  /** The number that digits stand for. */
  function ValueOf(digits: string): int {
    if digits == "" then 0
    else 10 * ValueOf(digits[..|digits| - 1]) + (digits[|digits| - 1] as int - '0' as int)
  }

  /** A number is written in decimal digits, without a zero in front. */
  lemma {:induction false} DecimalExact(n: nat)
    ensures ValueOf(Decimal(n)) == n && forall c :: c in Decimal(n) ==> '0' <= c <= '9'
    ensures n > 0 ==> Decimal(n)[0] != '0'
  {
    var s := Decimal(n);
    if n >= 10 {
      DecimalExact(n / 10);
      assert s[..|s| - 1] == Decimal(n / 10);
    } else {
      assert s[..0] == "";
    }
  }

  lemma {:induction false} DecimalInjective(m: nat, n: nat)
    requires Decimal(m) == Decimal(n)
    ensures m == n
    decreases m
  {
    var a, b := Decimal(m), Decimal(n);
    assert a[|a| - 1] == Digit(m % 10) && b[|b| - 1] == Digit(n % 10);
    assert m % 10 == n % 10;
    if m >= 10 {
      assert a[..|a| - 1] == Decimal(m / 10) && b[..|b| - 1] == Decimal(n / 10);
      DecimalInjective(m / 10, n / 10);
    }
  }
}
