/** The text of one history entry: a timestamp, a rail and a decimal amount, printed and parsed. */
module AmlEntry {
  import opened Contracts

  // ----- Digits -----

  predicate IsDigit(c: char) {
    '0' <= c <= '9'
  }

  predicate AllDigits(s: string) {
    var n := |s|;
    n == 0 || (IsDigit(s[n - 1]) && AllDigits(s[..n - 1]))
  }

  lemma {:induction false} DigitsJoin(a: string, b: string)
    ensures AllDigits(a + b) <==> AllDigits(a) && AllDigits(b)
  {
    var n := |b|;
    if n > 0 {
      DigitsJoin(a, b[..n - 1]);
      assert (a + b)[..|a| + n - 1] == a + b[..n - 1];
    } else {
      assert a + b == a;
    }
  }

  lemma {:induction false} EachIsDigit(s: string, i: nat)
    requires AllDigits(s) && i < |s|
    ensures IsDigit(s[i])
  {
    if i < |s| - 1 {
      EachIsDigit(s[..|s| - 1], i);
    }
  }

  function DigitOf(n: nat): char
    requires n < 10
  {
    '0' + n as char
  }

  function Digits(n: nat): string {
    if n < 10 then [DigitOf(n)] else Digits(n / 10) + [DigitOf(n % 10)]
  }

  function ValueOf(c: char): nat {
    if IsDigit(c) then c as int - '0' as int else 0
  }

  function NatOf(s: string): nat {
    var n := |s|;
    if n == 0 then 0 else NatOf(s[..n - 1]) * 10 + ValueOf(s[n - 1])
  }

  lemma {:induction false} DigitsRoundTrip(n: nat)
    ensures AllDigits(Digits(n)) && |Digits(n)| >= 1 && NatOf(Digits(n)) == n
  {
    if n < 10 {
      assert [DigitOf(n)][..0] == [];
    } else {
      DigitsRoundTrip(n / 10);
      var s := Digits(n / 10);
      assert Digits(n)[..|s|] == s;
    }
  }

  function Zeros(n: nat): string {
    if n == 0 then [] else Zeros(n - 1) + ['0']
  }

  lemma {:induction false} ZerosAreDigits(n: nat)
    ensures |Zeros(n)| == n && AllDigits(Zeros(n)) && NatOf(Zeros(n)) == 0
  {
    if n > 0 {
      ZerosAreDigits(n - 1);
      assert Zeros(n)[..n - 1] == Zeros(n - 1);
    }
  }

  lemma {:induction false} LeadingZeros(n: nat, s: string)
    requires AllDigits(s)
    ensures AllDigits(Zeros(n) + s) && NatOf(Zeros(n) + s) == NatOf(s)
  {
    ZerosAreDigits(n);
    DigitsJoin(Zeros(n), s);
    var k := |s| - 1;
    if k >= 0 {
      LeadingZeros(n, s[..k]);
      assert (Zeros(n) + s)[..n + k] == Zeros(n) + s[..k];
    } else {
      assert Zeros(n) + s == Zeros(n);
    }
  }

  // ----- Splitting -----

  // The digits a text begins with.
  function Span(s: string): string {
    if |s| > 0 && IsDigit(s[0]) then [s[0]] + Span(s[1..]) else []
  }

  lemma {:induction false} SpanIsPrefix(s: string)
    ensures Span(s) <= s && AllDigits(Span(s))
  {
    if |s| > 0 && IsDigit(s[0]) {
      SpanIsPrefix(s[1..]);
      DigitsJoin([s[0]], Span(s[1..]));
      assert s == [s[0]] + s[1..];
    }
  }

  lemma {:induction false} SpanStops(d: string, rest: string)
    requires AllDigits(d) && (|rest| > 0 ==> !IsDigit(rest[0]))
    ensures Span(d + rest) == d
  {
    if |d| > 0 {
      DigitsJoin([d[0]], d[1..]);
      assert [d[0]] + d[1..] == d;
      SpanStops(d[1..], rest);
      assert (d + rest)[0] == d[0] && (d + rest)[1..] == d[1..] + rest;
    } else {
      assert d + rest == rest;
    }
  }

  // The text up to the first `c`, and the text behind it.
  function Cut(s: string, c: char): Option<(string, string)> {
    if |s| == 0 then None
    else if s[0] == c then Some(([], s[1..]))
    else match Cut(s[1..], c)
         case None => None
         case Some(parts) => Some(([s[0]] + parts.0, parts.1))
  }

  lemma {:induction false} CutAtFirst(a: string, c: char, b: string)
    requires c !in a
    ensures Cut(a + [c] + b, c) == Some((a, b))
  {
    if |a| > 0 {
      CutAtFirst(a[1..], c, b);
      var s := a + [c] + b;
      assert s[0] == a[0] && a[0] in a && s[1..] == a[1..] + [c] + b;
      assert [a[0]] + a[1..] == a;
    } else {
      assert (a + [c] + b)[1..] == b;
    }
  }

  // ----- Integers -----

  predicate Signed(s: string) {
    |s| > 0 && (s[0] == '+' || s[0] == '-')
  }

  function Unsigned(s: string): string {
    if Signed(s) then s[1..] else s
  }

  function ParseInt(s: string): Option<int> {
    var d := Unsigned(s);
    if |d| > 0 && AllDigits(d) then
      var n: int := NatOf(d);
      Some(if s[0] == '-' then -n else n)
    else None
  }

  // ----- Decimals -----

  // A finite decimal: (-1)^negative * coefficient * 10^exponent.
  datatype Decimal = Decimal(negative: bool, coefficient: nat, exponent: int)

  // The integer part of a number and, behind a point, its fraction digits.
  datatype Split = Split(whole: string, fraction: Option<string>)

  function Fraction(p: Split): string {
    if p.fraction.Some? then p.fraction.value else ""
  }

  // The digits with the point after the first `dot` of them.
  function PointAt(ds: string, dot: int): Split {
    if dot <= 0 then Split("0", Some(Zeros(-dot) + ds))
    else if dot >= |ds| then Split(ds + Zeros(dot - |ds|), None)
    else Split(ds[..dot], Some(ds[dot..]))
  }

  function ExponentText(k: int): string {
    if k == 0 then "" else "E" + (if k < 0 then "-" + Digits(-k) else "+" + Digits(k))
  }

  function Text(p: Split, tail: string): string {
    p.whole + (if p.fraction.Some? then ['.'] + (p.fraction.value + tail) else tail)
  }

  // Plain notation for moderate exponents, scientific notation otherwise.
  function Number(ds: string, exponent: int): string {
    var left := exponent + |ds|;
    var dot := if exponent <= 0 && left > -6 then left else 1;
    Text(PointAt(ds, dot), ExponentText(left - dot))
  }

  function Print(d: Decimal): string {
    var ds := Digits(d.coefficient);
    if d.negative then ['-'] + Number(ds, d.exponent) else Number(ds, d.exponent)
  }

  function AfterPoint(s: string): string {
    if |s| > 0 && s[0] == '.' then s[1..] else []
  }

  function ParseExponent(s: string): Option<int> {
    if |s| == 0 then Some(0)
    else if s[0] == 'E' || s[0] == 'e' then ParseInt(s[1..])
    else None
  }

  // An unsigned text as its integer digits, its fraction digits, and what is left behind them.
  datatype Scanned = Scanned(whole: string, fraction: string, rest: string)

  function Scan(u: string): Scanned {
    var whole := Span(u);
    SpanIsPrefix(u);
    var t := u[|whole|..];
    var fraction := Span(AfterPoint(t));
    SpanIsPrefix(AfterPoint(t));
    Scanned(whole, fraction, if |t| > 0 && t[0] == '.' then t[1..][|fraction|..] else t)
  }

  // The digits of the coefficient and the exponent, if there is a digit and the rest is an exponent.
  function Assemble(r: Scanned): Option<(string, int)> {
    var e := ParseExponent(r.rest);
    if |r.whole| + |r.fraction| == 0 || e.None? then None
    else Some((r.whole + r.fraction, e.value - |r.fraction|))
  }

  function Parse(s: string): Option<Decimal> {
    match Assemble(Scan(Unsigned(s)))
    case None => None
    case Some(n) => Some(Decimal(|s| > 0 && s[0] == '-', NatOf(n.0), n.1))
  }

  // ----- Printing and parsing undo each other -----

  lemma SignedDigits(sign: char, k: int)
    requires k >= 0 && (sign == '+' || sign == '-')
    ensures ParseInt([sign] + Digits(k)) == Some(if sign == '-' then -k else k)
  {
    var s := [sign] + Digits(k);
    DigitsRoundTrip(k);
    assert s[0] == sign && s[1..] == Digits(k);
  }

  lemma PlainDigits(k: nat)
    ensures ParseInt(Digits(k)) == Some(k)
  {
    DigitsRoundTrip(k);
    EachIsDigit(Digits(k), 0);
  }

  lemma ExponentRoundTrip(k: int)
    ensures ParseExponent(ExponentText(k)) == Some(k)
    ensures |ExponentText(k)| > 0 ==> ExponentText(k)[0] == 'E'
  {
    if k != 0 {
      var sign := if k < 0 then '-' else '+';
      var m: nat := if k < 0 then -k else k;
      SignedDigits(sign, m);
      assert ExponentText(k) == ['E'] + ([sign] + Digits(m));
      assert ExponentText(k)[1..] == [sign] + Digits(m);
    }
  }

  predicate Good(p: Split) {
    AllDigits(p.whole) && |p.whole| >= 1 && AllDigits(Fraction(p))
  }

  // The parser finds the parts of such a number in front of an exponent.
  lemma ScanPlain(whole: string, tail: string)
    requires AllDigits(whole) && (|tail| > 0 ==> tail[0] == 'E')
    ensures Scan(whole + tail) == Scanned(whole, [], tail)
  {
    SpanStops(whole, tail);
    assert (whole + tail)[|whole|..] == tail && AfterPoint(tail) == [];
  }

  lemma ScanPoint(whole: string, fraction: string, tail: string)
    requires AllDigits(whole) && AllDigits(fraction) && (|tail| > 0 ==> tail[0] == 'E')
    ensures Scan(whole + (['.'] + (fraction + tail))) == Scanned(whole, fraction, tail)
  {
    var behind := ['.'] + (fraction + tail);
    SpanStops(whole, behind);
    assert (whole + behind)[|whole|..] == behind && behind[1..] == fraction + tail;
    SpanStops(fraction, tail);
    assert (fraction + tail)[|fraction|..] == tail;
  }

  // The parts hold the digits of the coefficient, and |ds| - dot of them are the fraction.
  predicate Holds(p: Split, ds: string, fraction: int) {
    Good(p) && NatOf(p.whole + Fraction(p)) == NatOf(ds) && |Fraction(p)| == fraction
  }

  lemma PartsBelowOne(ds: string, zeros: nat)
    requires AllDigits(ds)
    ensures Holds(Split("0", Some(Zeros(zeros) + ds)), ds, |ds| + zeros)
  {
    ZerosAreDigits(zeros);
    LeadingZeros(zeros, ds);
    assert Zeros(1) == "0" by {
      assert Zeros(0) == "";
    }
    LeadingZeros(1, Zeros(zeros) + ds);
    ZerosAreDigits(1);
  }

  lemma PartsInside(ds: string, dot: nat)
    requires AllDigits(ds) && 0 < dot < |ds|
    ensures Holds(Split(ds[..dot], Some(ds[dot..])), ds, |ds| - dot)
  {
    DigitsJoin(ds[..dot], ds[dot..]);
    assert ds[..dot] + ds[dot..] == ds;
  }

  lemma PartsWhole(ds: string)
    requires AllDigits(ds) && |ds| >= 1
    ensures Holds(Split(ds + Zeros(0), None), ds, 0)
  {
    assert ds + Zeros(0) == ds && ds + "" == ds;
  }

  lemma PartsOfNumber(ds: string, dot: int)
    requires AllDigits(ds) && |ds| >= 1 && dot <= |ds|
    ensures Holds(PointAt(ds, dot), ds, |ds| - dot)
  {
    if dot <= 0 {
      PartsBelowOne(ds, -dot);
    } else if dot < |ds| {
      PartsInside(ds, dot);
    } else {
      PartsWhole(ds);
    }
  }

  predicate Reads(u: string, digits: string, exponent: int) {
    Assemble(Scan(u)) == Some((digits, exponent)) && |u| > 0 && IsDigit(u[0])
  }

  lemma ReadScanned(u: string, r: Scanned, k: int, digits: string, e: int)
    requires Scan(u) == r && |r.whole| >= 1 && ParseExponent(r.rest) == Some(k)
    requires digits == r.whole + r.fraction && e == k - |r.fraction|
    requires |u| > 0 && IsDigit(u[0])
    ensures Reads(u, digits, e)
  {
  }

  // `digits` are those of the parts, and `e` is the exponent `k` less the fraction digits.
  predicate Adds(p: Split, k: int, digits: string, e: int) {
    Good(p) && digits == p.whole + Fraction(p) && e == k - |Fraction(p)|
  }

  lemma ReadText(u: string, p: Split, tail: string, k: int, digits: string, e: int)
    requires Adds(p, k, digits, e) && u == Text(p, tail)
    requires ParseExponent(tail) == Some(k) && (|tail| > 0 ==> tail[0] == 'E')
    ensures Reads(u, digits, e)
  {
    match p.fraction {
      case None => ScanPlain(p.whole, tail);
      case Some(f) => ScanPoint(p.whole, f, tail);
    }
    EachIsDigit(p.whole, 0);
    ReadScanned(u, Scanned(p.whole, Fraction(p), tail), k, digits, e);
  }

  lemma ReadNumber(u: string, p: Split, k: int, digits: string, e: int)
    requires Adds(p, k, digits, e) && u == Text(p, ExponentText(k))
    ensures Reads(u, digits, e)
  {
    ExponentRoundTrip(k);
    ReadText(u, p, ExponentText(k), k, digits, e);
  }

  lemma NumberRoundTrip(ds: string, exponent: int) returns (digits: string)
    requires AllDigits(ds) && |ds| >= 1
    ensures NatOf(digits) == NatOf(ds) && Reads(Number(ds, exponent), digits, exponent)
  {
    var left := exponent + |ds|;
    var dot := if exponent <= 0 && left > -6 then left else 1;
    PartsOfNumber(ds, dot);
    var p := PointAt(ds, dot);
    digits := p.whole + Fraction(p);
    ReadNumber(Number(ds, exponent), p, left - dot, digits, exponent);
  }

  lemma SignIsSplit(u: string)
    requires |u| > 0 && IsDigit(u[0])
    ensures Unsigned(u) == u && Unsigned(['-'] + u) == u
  {
    assert (['-'] + u)[1..] == u;
  }

  lemma DecimalRoundTrip(d: Decimal)
    ensures Parse(Print(d)) == Some(d)
  {
    var ds := Digits(d.coefficient);
    DigitsRoundTrip(d.coefficient);
    var digits := NumberRoundTrip(ds, d.exponent);
    SignIsSplit(Number(ds, d.exponent));
  }

  // ----- Entries -----

  datatype Entry = Entry(timestamp: int, rail: string, amount: Decimal)

  const BAR := '|'

  function Write(timestamp: nat, rail: string, amount: Decimal): string {
    Digits(timestamp) + [BAR] + (rail + [BAR] + Print(amount))
  }

  // At most two separators split the text; the third part keeps any further ones.
  function TryParse(s: string): Option<Entry> {
    match Cut(s, BAR)
    case None => None
    case Some(first) =>
      match Cut(first.1, BAR)
      case None => None
      case Some(second) =>
        var timestamp := ParseInt(first.0);
        var amount := Parse(second.1);
        if timestamp.None? || amount.None? then None
        else Some(Entry(timestamp.value, second.0, amount.value))
  }

  lemma NoBarInDigits(s: string)
    requires AllDigits(s)
    ensures BAR !in s
  {
    forall i | 0 <= i < |s| ensures s[i] != BAR {
      EachIsDigit(s, i);
    }
  }

  // What is written is read back exactly.
  lemma EntryRoundTrip(timestamp: nat, rail: string, amount: Decimal)
    requires BAR !in rail
    ensures TryParse(Write(timestamp, rail, amount)) == Some(Entry(timestamp, rail, amount))
  {
    DigitsRoundTrip(timestamp);
    PlainDigits(timestamp);
    NoBarInDigits(Digits(timestamp));
    CutAtFirst(Digits(timestamp), BAR, rail + [BAR] + Print(amount));
    CutAtFirst(rail, BAR, Print(amount));
    DecimalRoundTrip(amount);
  }

  // What an entry looks like.
  lemma WrittenEntry()
    ensures Write(17, "PIX", Decimal(false, 1250, -2)) == "17|PIX|12.50"
  {
    assert Digits(17) == "17";
    assert Digits(1250) == "1250" by {
      assert Digits(125) == "125" by {
        assert Digits(12) == "12";
      }
    }
    assert Print(Decimal(false, 1250, -2)) == "12.50";
  }
}
