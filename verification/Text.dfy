/** Strings as the controllers use them: decimal numbers, their parsing, and the names
    and tags built from them (pkg/controllers/utils/controllers.go, strconv.ParseInt). */
module Text {

  datatype Option<+T> = None | Some(value: T)

  const MAX_UINT64: int := 0xFFFF_FFFF_FFFF_FFFF
  const MAX_INT64: int := 0x7FFF_FFFF_FFFF_FFFF
  const MIN_INT64: int := -0x8000_0000_0000_0000

  predicate IsInt64(v: int) {
    MIN_INT64 <= v <= MAX_INT64
  }

  /** Signed 64-bit overflow, for results at most one wrap away. */
  function Wrap64(v: int): int {
    if v > MAX_INT64 then v - MAX_UINT64 - 1
    else if v < MIN_INT64 then v + MAX_UINT64 + 1
    else v
  }

  // ---------------------------------------------------------------- decimals

  predicate IsDigit(c: char) {
    '0' <= c <= '9'
  }

  function DigitValue(c: char): nat
    requires IsDigit(c)
  {
    c as int - '0' as int
  }

  function Digit(d: nat): (c: char)
    requires d < 10
    ensures IsDigit(c) && DigitValue(c) == d
  {
    ('0' as int + d) as char
  }

  /** A natural number printed in base ten, as fmt.Sprint does. */
  function Decimal(n: nat): string {
    if n < 10 then [Digit(n)] else Decimal(n / 10) + [Digit(n % 10)]
  }

  /** A signed number printed in base ten. */
  function Sprint(v: int): string {
    if v < 0 then "-" + Decimal(-v) else Decimal(v)
  }

  predicate AllDigits(s: string) {
    forall i :: 0 <= i < |s| ==> IsDigit(s[i])
  }

  /** The number a string of digits denotes; leading zeros do not matter. */
  function Natural(s: string): nat
    requires AllDigits(s)
  {
    if s == "" then 0 else 10 * Natural(s[..|s| - 1]) + DigitValue(s[|s| - 1])
  }

  lemma {:induction false} DecimalDenotes(n: nat)
    ensures Decimal(n) != "" && AllDigits(Decimal(n)) && Natural(Decimal(n)) == n
  {
    if n >= 10 {
      DecimalDenotes(n / 10);
      assert Decimal(n)[..|Decimal(n)| - 1] == Decimal(n / 10);
    } else {
      assert Decimal(n)[..0] == "";
    }
  }

  /** Printing is in base ten: the last digit stands for the units, what precedes it for the tens. */
  lemma PrintsInBaseTen(q: nat, d: nat)
    requires d < 10
    ensures Sprint(10 * q + d) == (if q == 0 then "" else Sprint(q)) + ["0123456789"[d]]
    ensures q > 0 ==> Sprint(0 - q) == "-" + Sprint(q)
  {
    assert (10 * q + d) / 10 == q && (10 * q + d) % 10 == d;
    assert forall i :: 0 <= i < 10 ==> "0123456789"[i] as int == '0' as int + i;
  }

  // ---------------------------------------------------------------- strconv.ParseInt(s, 10, 64)

  /** A Go (value, err) pair: the value is meaningful even when err is not nil. */
  datatype Parsed = Parsed(value: int, failed: bool)

  datatype Scan = Value(n: nat) | Syntax | Range

  /** The digit loop of ParseUint, which stops at the first bad character or overflow. */
  function ScanDigits(s: string, acc: nat): Scan {
    if s == "" then Value(acc)
    else if !IsDigit(s[0]) then Syntax
    else
      var n := 10 * acc + DigitValue(s[0]);
      if n > MAX_UINT64 then Range else ScanDigits(s[1..], n)
  }

  function ParseMagnitude(s: string, negative: bool): Parsed {
    if s == "" then Parsed(0, true)
    else match ScanDigits(s, 0)
      case Syntax => Parsed(0, true)
      case Range => Parsed(if negative then MIN_INT64 else MAX_INT64, true)
      case Value(n) =>
        if !negative && n > MAX_INT64 then Parsed(MAX_INT64, true)
        else if negative && n > -MIN_INT64 then Parsed(MIN_INT64, true)
        else Parsed((if negative then -1 else 1) * n, false)
  }

  function ParseInt(s: string): Parsed {
    if s != "" && s[0] == '-' then ParseMagnitude(s[1..], true)
    else if s != "" && s[0] == '+' then ParseMagnitude(s[1..], false)
    else ParseMagnitude(s, false)
  }

  /** The loop goes on behind a prefix where it left off, unless it has stopped there. */
  lemma {:induction false} ScanConcat(s: string, t: string, acc: nat)
    ensures ScanDigits(s + t, acc) ==
            match ScanDigits(s, acc)
            case Value(n) => ScanDigits(t, n)
            case stopped => stopped
  {
    if s == "" {
      assert s + t == t;
    } else if IsDigit(s[0]) && 10 * acc + DigitValue(s[0]) <= MAX_UINT64 {
      ScanConcat(s[1..], t, 10 * acc + DigitValue(s[0]));
      assert (s + t)[1..] == s[1..] + t;
    }
  }

  lemma ScanOne(c: char, acc: nat)
    ensures ScanDigits([c], acc) ==
            if !IsDigit(c) then Syntax
            else if 10 * acc + DigitValue(c) > MAX_UINT64 then Range else Value(10 * acc + DigitValue(c))
  {
    assert [c][1..] == "";
  }

  /** A run of digits at the start of s does not fit into 64 bits; whatever follows it. */
  predicate Overflows(s: string) {
    exists k :: 0 <= k <= |s| && AllDigits(s[..k]) && Natural(s[..k]) > MAX_UINT64
  }

  lemma OverflowsBy(s: string, c: char)
    ensures Overflows(s + [c]) <==> Overflows(s) || (AllDigits(s + [c]) && Natural(s + [c]) > MAX_UINT64)
  {
    var t := s + [c];
    forall k | 0 <= k <= |s| ensures t[..k] == s[..k] {}
    assert t[..|t|] == t;
  }

  /** What the digit loop finds out: the number, if s consists of digits and fits; an overflow, if it
      meets one before anything that is not a digit. */
  lemma {:induction false} ScanMeans(s: string)
    ensures ScanDigits(s, 0).Value? <==> AllDigits(s) && Natural(s) <= MAX_UINT64
    ensures ScanDigits(s, 0).Value? ==> ScanDigits(s, 0).n == Natural(s)
    ensures ScanDigits(s, 0).Range? <==> Overflows(s)
    ensures ScanDigits(s, 0).Syntax? ==> !AllDigits(s)
  {
    if s == "" {
      assert forall k :: 0 <= k <= |s| ==> s[..k] == "";
    } else {
      var r, c := s[..|s| - 1], s[|s| - 1];
      assert s == r + [c];
      assert AllDigits(s) <==> AllDigits(r) && IsDigit(c);
      ScanMeans(r);
      ScanConcat(r, [c], 0);
      OverflowsBy(r, c);
      if ScanDigits(r, 0).Value? {
        ScanOne(c, ScanDigits(r, 0).n);
      }
    }
  }

  lemma {:induction false} ScanDecimal(n: nat)
    requires n <= MAX_UINT64
    ensures ScanDigits(Decimal(n), 0) == Value(n)
  {
    if n < 10 {
      assert Decimal(n)[1..] == "";
    } else {
      ScanDecimal(n / 10);
      DecimalDenotes(n / 10);
      ScanConcat(Decimal(n / 10), [Digit(n % 10)], 0);
      ScanOne(Digit(n % 10), n / 10);
    }
  }

  /** Parsing inverts printing on every 64-bit integer. */
  lemma PrintParse(v: int)
    requires IsInt64(v)
    ensures ParseInt(Sprint(v)) == Parsed(v, false)
  {
    var n := if v < 0 then -v else v;
    ScanDecimal(n);
    DecimalDenotes(n);
    assert v < 0 ==> Sprint(v)[1..] == Decimal(n);
    assert v >= 0 ==> IsDigit(Sprint(v)[0]);
  }

  /** What the controllers recover from the annotation that holds the last traffic split: the
      parsed value is used if there was an error, and only then. */
  function Recovered(annotation: string): int {
    var previous := ParseInt(annotation);
    if previous.failed then previous.value else 0
  }

  /** A split that was written down is lost: the recovery is right exactly for split 0. */
  lemma RecoveryForgets(split: int)
    requires IsInt64(split)
    ensures Recovered(Sprint(split)) == split <==> split == 0
    ensures Recovered(Sprint(split)) == 0
  {
    PrintParse(split);
  }

  predicate IsNegative(s: string) {
    s != "" && s[0] == '-'
  }

  /** The text without its sign. */
  function Unsigned(s: string): string {
    if s != "" && (s[0] == '-' || s[0] == '+') then s[1..] else s
  }

  /** The text starts like a number that is out of the signed 64-bit range: its digits overflow 64
      bits, even if something else follows, or it is a number beyond the limit for its sign. */
  predicate OutOfRange(s: string) {
    var digits := Unsigned(s);
    || Overflows(digits)
    || (AllDigits(digits) && Natural(digits) > if IsNegative(s) then -MIN_INT64 else MAX_INT64)
  }

  /** An optional sign and digits, within the signed 64-bit range. */
  predicate IsNumber(s: string) {
    Unsigned(s) != "" && AllDigits(Unsigned(s)) && !OutOfRange(s)
  }

  /** Exactly these texts are parsed without an error, as the numbers they denote. */
  lemma ParseMeans(s: string)
    ensures !ParseInt(s).failed <==> IsNumber(s)
    ensures IsNumber(s) ==>
              var n := Natural(Unsigned(s)); ParseInt(s).value == if IsNegative(s) then 0 - n else n
    ensures forall v :: IsInt64(v) && s == Sprint(v) ==> IsNumber(s) && ParseInt(s).value == v
  {
    ScanMeans(Unsigned(s));
    forall v | IsInt64(v) && s == Sprint(v) ensures ParseInt(s) == Parsed(v, false) {
      PrintParse(v);
    }
  }

  /** What is recovered is 0, and so a percentage, exactly if the annotation is not out of the
      64-bit range; otherwise it is the extreme value on its side. */
  lemma RecoveredRange(annotation: string)
    ensures Recovered(annotation) ==
            if !OutOfRange(annotation) then 0 else if IsNegative(annotation) then MIN_INT64 else MAX_INT64
    ensures 0 <= Recovered(annotation) <= 100 <==> !OutOfRange(annotation)
  {
    ScanMeans(Unsigned(annotation));
  }

  /** A printed number is out of range exactly if it is not a 64-bit integer; what is then recovered
      is the extreme value on its side. The first such annotation is "9223372036854775808". */
  lemma PrintedOutOfRange(v: int)
    ensures OutOfRange(Sprint(v)) <==> !IsInt64(v)
    ensures Recovered(Sprint(v)) == if IsInt64(v) then 0 else if v < 0 then MIN_INT64 else MAX_INT64
  {
    RecoveredRange(Sprint(v));
    var digits := Decimal(if v < 0 then -v else v);
    DecimalDenotes(if v < 0 then -v else v);
    assert v < 0 ==> Sprint(v)[1..] == digits;
    assert v >= 0 ==> IsDigit(Sprint(v)[0]);
    assert Unsigned(Sprint(v)) == digits;
    if Overflows(digits) {
      ScanMeans(digits);
    }
  }

  // ---------------------------------------------------------------- resource versions

  /** The version string of an object; an object that was never stored has none. */
  function VersionString(rv: nat): string {
    if rv == 0 then "" else Decimal(rv)
  }

  /** The number behind a version string, 0 for anything else. */
  function VersionNumber(s: string): nat {
    if AllDigits(s) then Natural(s) else 0
  }

  lemma VersionRoundTrip(rv: nat)
    ensures VersionNumber(VersionString(rv)) == rv
    ensures VersionString(rv) == "" <==> rv == 0
    ensures VersionString(rv) != "0"
  {
    DecimalDenotes(rv);
    assert Decimal(0) == "0";
    DecimalDenotes(0);
  }

  // ---------------------------------------------------------------- prefixes and suffixes

  predicate HasPrefix(s: string, p: string) {
    p <= s
  }

  predicate HasSuffix(s: string, p: string) {
    |p| <= |s| && s[|s| - |p|..] == p
  }

  function ToLower(s: string): string {
    if s == "" then "" else
    [if 'A' <= s[0] <= 'Z' then (s[0] as int + 32) as char else s[0]] + ToLower(s[1..])
  }

  /** Upper-case letters become lower-case ones, and nothing else changes. */
  lemma {:induction false} LowerCase(s: string)
    ensures |ToLower(s)| == |s|
    ensures forall i :: 0 <= i < |s| ==>
              ToLower(s)[i] as int == if 'A' <= s[i] <= 'Z' then s[i] as int + 32 else s[i] as int
  {
    if s != "" {
      LowerCase(s[1..]);
      assert forall i :: 0 < i < |s| ==> ToLower(s)[i] == ToLower(s[1..])[i - 1] && s[i] == s[1..][i - 1];
    }
  }

  const EDGE_PROXY_SUFFIX := "-edge-proxy"
  const EDGE_PROXY_PREFIX := "edge-proxy-"

  function ConfigurationName(service: string): string {
    service + EDGE_PROXY_SUFFIX
  }

  predicate IsEdgeProxyConfiguration(name: string) {
    HasSuffix(name, EDGE_PROXY_SUFFIX)
  }

  function ServiceNameFromConfiguration(name: string): string {
    if !HasSuffix(name, EDGE_PROXY_SUFFIX) then "" else name[..|name| - |EDGE_PROXY_SUFFIX|]
  }

  /** The service named in a watch event is the one whose reconcile reads the configuration,
      and two services never share a configuration. */
  lemma ConfigurationNameRoundTrip(service: string, name: string)
    ensures IsEdgeProxyConfiguration(ConfigurationName(service))
    ensures ServiceNameFromConfiguration(ConfigurationName(service)) == service
    ensures IsEdgeProxyConfiguration(name) <==> ConfigurationName(ServiceNameFromConfiguration(name)) == name
  {
    var c := ConfigurationName(service);
    assert c[|service|..] == EDGE_PROXY_SUFFIX;
    assert c[..|service|] == service;
    if IsEdgeProxyConfiguration(name) {
      var k := |name| - |EDGE_PROXY_SUFFIX|;
      assert name == name[..k] + name[k..];
    }
  }

  function Zeros(k: nat): string {
    if k == 0 then "" else "0" + Zeros(k - 1)
  }

  function ZeroPad(s: string, width: nat): string {
    if |s| < width then Zeros(width - |s|) + s else s
  }

  /** fmt.Sprintf("%s%05d", ...): the sign, if any, takes one of the five places. */
  function TargetTag(generation: int): string {
    EDGE_PROXY_PREFIX +
    if generation < 0 then "-" + ZeroPad(Decimal(-generation), 4) else ZeroPad(Decimal(generation), 5)
  }

  lemma {:induction false} ZerosDenoteNothing(k: nat, s: string)
    requires AllDigits(s)
    ensures |Zeros(k)| == k && AllDigits(Zeros(k) + s) && Natural(Zeros(k) + s) == Natural(s)
    decreases k + |s|
  {
    if s != "" {
      ZerosDenoteNothing(k, s[..|s| - 1]);
      assert (Zeros(k) + s)[..k + |s| - 1] == Zeros(k) + s[..|s| - 1];
    } else if k > 0 {
      ZerosDenoteNothing(k - 1, "");
      assert Zeros(k) + s == Zeros(k);
      ZeroRun(k);
      assert Zeros(k)[..k - 1] == Zeros(k - 1);
      assert Zeros(k - 1) + "" == Zeros(k - 1);
    }
  }

  lemma {:induction false} ZeroRun(k: nat)
    ensures |Zeros(k)| == k && forall i :: 0 <= i < k ==> Zeros(k)[i] == '0'
    ensures k > 0 ==> Zeros(k)[..k - 1] == Zeros(k - 1)
  {
    if k > 0 {
      ZeroRun(k - 1);
    }
  }

  lemma PaddingDenotesNothing(n: nat, width: nat)
    ensures AllDigits(ZeroPad(Decimal(n), width)) && Natural(ZeroPad(Decimal(n), width)) == n
  {
    DecimalDenotes(n);
    if |Decimal(n)| < width {
      ZerosDenoteNothing(width - |Decimal(n)|, Decimal(n));
    }
  }

  lemma CutPrefix(p: string, s: string)
    ensures HasPrefix(p + s, p) && (p + s)[|p|..] == s
  {
  }

  /** Different generations of the proxy configuration get different tags, and every tag is
      recognised as a proxy tag. */
  lemma TagsAreDistinct(g: nat, h: nat)
    ensures HasPrefix(TargetTag(g), EDGE_PROXY_PREFIX)
    ensures TargetTag(g) == TargetTag(h) <==> g == h
  {
    var a, b := ZeroPad(Decimal(g), 5), ZeroPad(Decimal(h), 5);
    CutPrefix(EDGE_PROXY_PREFIX, a);
    CutPrefix(EDGE_PROXY_PREFIX, b);
    PaddingDenotesNothing(g, 5);
    PaddingDenotesNothing(h, 5);
  }

  /** A tag is "edge-proxy-" and the generation in at least five digits; more than five only if needed. */
  lemma TagText(g: nat)
    ensures HasPrefix(TargetTag(g), "edge-proxy-")
    ensures var digits := TargetTag(g)[11..];
            && |digits| >= 5 && AllDigits(digits) && Natural(digits) == g
            && (|digits| > 5 ==> digits == Sprint(g))
  {
    var padded := ZeroPad(Decimal(g), 5);
    PaddingDenotesNothing(g, 5);
    CutPrefix(EDGE_PROXY_PREFIX, padded);
    if |Decimal(g)| < 5 {
      ZeroRun(5 - |Decimal(g)|);
    }
  }
}
