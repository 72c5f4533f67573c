/** The string operations of Go's standard library that names and key ids go through. */
module Text {
  import opened Wrappers

  /** `strings.Split` for a one-character separator: never empty. */
  function Split(s: string, sep: char): (parts: seq<string>)
    ensures |parts| >= 1
    ensures sep !in s ==> parts == [s]
  {
    if s == [] then [[]]
    else
      var rest := Split(s[1..], sep);
      assert s == [s[0]] + s[1..];
      if s[0] == sep then [[]] + rest else [[s[0]] + rest[0]] + rest[1..]
  }

  function LastPart(s: string, sep: char): string {
    var parts := Split(s, sep);
    parts[|parts| - 1]
  }

  /** Cutting at the last separator gives back what stands behind it, whatever stands in front. */
  lemma {:induction false} LastPartOfJoin(front: string, sep: char, back: string)
    requires sep !in back
    ensures LastPart(front + [sep] + back, sep) == back
  {
    var s := front + [sep] + back;
    if front == [] {
      assert s[1..] == back;
    } else {
      assert s[1..] == front[1..] + [sep] + back;
      LastPartOfJoin(front[1..], sep, back);
      MorePartsThanOne(front[1..], sep, back);
    }
  }

  lemma {:induction false} MorePartsThanOne(front: string, sep: char, back: string)
    ensures |Split(front + [sep] + back, sep)| >= 2
  {
    var s := front + [sep] + back;
    if front == [] {
      assert s[1..] == back;
    } else {
      assert s[1..] == front[1..] + [sep] + back;
      MorePartsThanOne(front[1..], sep, back);
    }
  }

  /** The part behind the first separator ends at the second one. */
  lemma {:induction false} SecondPart(front: string, sep: char, back: string)
    requires sep !in front
    ensures Split(front + [sep] + back, sep) == [front] + Split(back, sep)
  {
    var s := front + [sep] + back;
    if front == [] {
      assert s[1..] == back;
    } else {
      assert s[1..] == front[1..] + [sep] + back;
      SecondPart(front[1..], sep, back);
      assert front == [front[0]] + front[1..];
    }
  }

  lemma {:induction false} FirstPartHasNoSeparator(s: string, sep: char)
    ensures sep !in Split(s, sep)[0]
    ensures sep in s ==> |Split(s, sep)[0]| < |s|
  {
    if s != [] {
      FirstPartHasNoSeparator(s[1..], sep);
    }
  }

  predicate HasPrefix(s: string, prefix: string) {
    |prefix| <= |s| && s[..|prefix|] == prefix
  }

  /** `strings.TrimPrefix` */
  function TrimPrefix(s: string, prefix: string): string {
    if HasPrefix(s, prefix) then s[|prefix|..] else s
  }

  const MIN_INT64: int := -0x8000_0000_0000_0000
  const MAX_INT64: int := 0x7fff_ffff_ffff_ffff

  predicate IsInt64(i: int) { MIN_INT64 <= i <= MAX_INT64 }

  /** Adding one to a 64-bit signed integer, which wraps around at the top. */
  function Increment64(i: int): (r: int)
    ensures IsInt64(i) ==> IsInt64(r)
    ensures r == i + 1 || r == i + 1 - 0x1_0000_0000_0000_0000
  {
    if i == MAX_INT64 then MIN_INT64 else i + 1
  }

  predicate IsDigit(c: char) { '0' <= c <= '9' }

  function PrintNat(n: nat): (s: string)
    ensures |s| >= 1 && forall i :: 0 <= i < |s| ==> IsDigit(s[i])
  {
    var last := (n % 10 + '0' as int) as char;
    if n < 10 then [last] else PrintNat(n / 10) + [last]
  }

  /** `%d` of `fmt.Sprintf` */
  function Itoa(i: int): string {
    if i < 0 then "-" + PrintNat(-i) else PrintNat(i)
  }

  /** The number a string of decimal digits denotes; nothing for any other string. */
  function ParseNat(s: string): Option<nat> {
    if s == [] || !IsDigit(s[|s| - 1]) then None
    else
      var digit := s[|s| - 1] as int - '0' as int;
      if |s| == 1 then Some(digit)
      else
        match ParseNat(s[..|s| - 1])
        case None => None
        case Some(n) => Some(10 * n + digit)
  }

  /** `strconv.Atoi`: an optional sign, at least one digit, and a value that fits 64 bits. */
  function Atoi(s: string): (r: Option<int>)
    ensures r.Some? ==> IsInt64(r.value)
  {
    var negative := s != [] && s[0] == '-';
    var digits := if s != [] && (s[0] == '-' || s[0] == '+') then s[1..] else s;
    match ParseNat(digits)
    case None => None
    case Some(n) =>
      var magnitude: int := n;
      var i := if negative then -magnitude else magnitude;
      if IsInt64(i) then Some(i) else None
  }

  lemma {:induction false} ParsePrintedNat(n: nat)
    ensures ParseNat(PrintNat(n)) == Some(n)
  {
    var s := PrintNat(n);
    if n >= 10 {
      ParsePrintedNat(n / 10);
      assert s[..|s| - 1] == PrintNat(n / 10);
    }
  }

  /** Printing and parsing a 64-bit integer is the identity. */
  lemma AtoiOfItoa(i: int)
    requires IsInt64(i)
    ensures Atoi(Itoa(i)) == Some(i)
    ensures '.' !in Itoa(i)
  {
    if i < 0 {
      ParsePrintedNat(-i);
      assert Itoa(i)[1..] == PrintNat(-i);
    } else {
      ParsePrintedNat(i);
    }
  }

  /** The value of digits, counted from the front. */
  function DecimalValue(s: string): int {
    if s == [] then 0 else (s[0] as int - '0' as int) * PowerOfTen(|s| - 1) + DecimalValue(s[1..])
  }

  function PowerOfTen(n: nat): nat { if n == 0 then 1 else 10 * PowerOfTen(n - 1) }

  lemma {:induction false} DecimalValueFromBehind(s: string, c: char)
    ensures DecimalValue(s + [c]) == 10 * DecimalValue(s) + (c as int - '0' as int)
  {
    if s == [] {
      assert [c][1..] == [];
    } else {
      assert (s + [c])[1..] == s[1..] + [c];
      DecimalValueFromBehind(s[1..], c);
      var d, p := s[0] as int - '0' as int, PowerOfTen(|s| - 1);
      assert d * (10 * p) == 10 * (d * p);
    }
  }

  lemma {:induction false} ParseNatMeaning(s: string)
    ensures ParseNat(s).Some? <==> s != [] && forall c :: c in s ==> '0' <= c <= '9'
    ensures ParseNat(s).Some? ==> ParseNat(s).value == DecimalValue(s)
  {
    if s != [] {
      var front, last := s[..|s| - 1], s[|s| - 1];
      assert s == front + [last];
      DecimalValueFromBehind(front, last);
      ParseNatMeaning(front);
      assert ParseNat(s).Some? <==> IsDigit(last) && (front == [] || ParseNat(front).Some?);
      assert forall c :: c in s ==> c in front || c == last;
      assert forall c :: c in front ==> c in s;
      assert last in s;
    }
  }

  /** `strconv.Atoi` by what it accepts and the value it gives. */
  lemma AtoiMeaning(s: string)
    ensures var digits := if s != [] && s[0] in "+-" then s[1..] else s;
            && (Atoi(s).Some? <==>
                && digits != [] && (forall c :: c in digits ==> '0' <= c <= '9')
                && IsInt64(if s[0] == '-' then -DecimalValue(digits) else DecimalValue(digits)))
            && (Atoi(s).Some? ==> Atoi(s).value == if s[0] == '-' then -DecimalValue(digits) else DecimalValue(digits))
  {
    var digits := if s != [] && s[0] in "+-" then s[1..] else s;
    ParseNatMeaning(digits);
  }

  /** No sign but the minus of a negative number, and no leading zero. */
  lemma {:induction false} PrintedPlainly(n: nat)
    ensures PrintNat(n)[0] == '0' <==> n == 0
    ensures n == 0 ==> PrintNat(n) == "0"
  {
    if n >= 10 { PrintedPlainly(n / 10); }
  }

  lemma ItoaIsCanonical(i: int)
    ensures var s := Itoa(i);
            var digits := if i < 0 then s[1..] else s;
            && s != [] && (i < 0 ==> s[0] == '-') && digits != []
            && (forall c :: c in digits ==> '0' <= c <= '9')
            && (digits[0] == '0' <==> i == 0) && (i == 0 ==> s == "0")
  {
    PrintedPlainly(if i < 0 then -i else i);
    if i < 0 { assert Itoa(i)[1..] == PrintNat(-i); }
  }

  /** Without the separator there is one part, with it at least two. */
  lemma {:induction false} PartsCount(s: string, sep: char)
    ensures |Split(s, sep)| >= 2 <==> sep in s
  {
    if s != [] { PartsCount(s[1..], sep); }
  }

  /** The first part is what stands before the first separator. */
  lemma FirstPart(front: string, sep: char, back: string)
    requires sep !in front
    ensures Split(front + [sep] + back, sep)[0] == front
  {
    SecondPart(front, sep, back);
  }

  lemma FourParts(a: string, b: string, c: string, d: string, sep: char)
    requires sep !in a && sep !in b && sep !in c
    ensures Split(a + [sep] + (b + [sep] + (c + [sep] + d)), sep) == [a] + ([b] + ([c] + Split(d, sep)))
  {
    SecondPart(a, sep, b + [sep] + (c + [sep] + d));
    SecondPart(b, sep, c + [sep] + d);
    SecondPart(c, sep, d);
  }

  /** What three separators hold apart can be told from the whole. */
  lemma FourPartsDetermined(
    a: string, b: string, c: string, d: string, b': string, c': string, d': string, sep: char)
    requires sep !in a && sep !in b && sep !in c && sep !in b' && sep !in c'
    ensures a + [sep] + (b + [sep] + (c + [sep] + d)) == a + [sep] + (b' + [sep] + (c' + [sep] + d'))
       <==> b == b' && c == c' && d == d'
  {
    var s, s' := a + [sep] + (b + [sep] + (c + [sep] + d)), a + [sep] + (b' + [sep] + (c' + [sep] + d'));
    FourParts(a, b, c, d, sep);
    FourParts(a, b', c', d', sep);
    if s == s' {
      var parts := Split(s, sep);
      assert parts[1] == b && parts[1] == b' && parts[2] == c && parts[2] == c';
      var n := |a| + |b| + |c| + 3;
      assert s[n..] == d && s'[n..] == d';
    }
  }
}
