/** Object handles as ptpip:// URLs, from internal/canon/client.go. */
module HandleUrl {
  import opened Bytes

  const DIGITS: string := "0123456789"

  /** `n` in decimal, as the verb %d prints it. */
  function Decimal(n: nat): (s: string)
    ensures s != [] && AllDigits(s)
  {
    if n < 10 then [DIGITS[n]] else Decimal(n / 10) + [DIGITS[n % 10]]
  }

  function SignedDecimal(n: int): string {
    if n < 0 then "-" + Decimal(-n) else Decimal(n)
  }

  predicate AllDigits(s: string) {
    forall i :: 0 <= i < |s| ==> '0' <= s[i] <= '9'
  }

  function DigitsValue(s: string): nat
    requires AllDigits(s)
  {
    if s == [] then 0
    else 10 * DigitsValue(s[..|s| - 1]) + (s[|s| - 1] as int - '0' as int)
  }

  /** strconv.ParseUint(s, 10, 32): digits only, at least one, and in range. */
  function ParseUint32(s: string): Option<uint32> {
    if s != [] && AllDigits(s) && DigitsValue(s) < 0x1_0000_0000 then Some(DigitsValue(s)) else None
  }

  function LastIndex(s: string, c: char): (i: int)
    ensures -1 <= i < |s|
  {
    if s == [] then -1
    else if s[|s| - 1] == c then |s| - 1
    else LastIndex(s[..|s| - 1], c)
  }

  function HandleURL(host: string, port: int, handle: uint32): string {
    "ptpip://" + host + ":" + SignedDecimal(port) + "/" + Decimal(handle)
  }

  function ParseHandle(url: string): Option<uint32> {
    var i := LastIndex(url, '/');
    if i < 0 then None else ParseUint32(url[i + 1..])
  }

  lemma {:induction false} DecimalRoundTrip(n: nat)
    ensures DigitsValue(Decimal(n)) == n
  {
    if n >= 10 {
      DecimalRoundTrip(n / 10);
      var s := Decimal(n);
      assert s[..|s| - 1] == Decimal(n / 10);
    }
  }

  lemma {:induction false} LastIndexOf(pre: string, c: char, post: string)
    requires c !in post
    ensures LastIndex(pre + [c] + post, c) == |pre|
  {
    var s := pre + [c] + post;
    if post != [] {
      assert s[..|s| - 1] == pre + [c] + post[..|post| - 1];
      LastIndexOf(pre, c, post[..|post| - 1]);
    }
  }

  /** Every handle is read back from its URL, whatever the host name contains. */
  lemma HandleRoundTrip(host: string, port: int, handle: uint32)
    ensures ParseHandle(HandleURL(host, port, handle)) == Some(handle)
  {
    hide Decimal, SignedDecimal, LastIndex, DigitsValue;
    var pre := "ptpip://" + host + ":" + SignedDecimal(port);
    var url := HandleURL(host, port, handle);
    assert url == pre + ['/'] + Decimal(handle);
    LastIndexOf(pre, '/', Decimal(handle));
    assert url[|pre| + 1..] == Decimal(handle);
    DecimalRoundTrip(handle);
  }

  lemma NextDigit(n: nat, digit: nat)
    requires n > 0 && digit < 10
    ensures Decimal(10 * n + digit) == Decimal(n) + [DIGITS[digit]]
  {
    assert (10 * n + digit) / 10 == n && (10 * n + digit) % 10 == digit;
  }

  lemma DefaultPort()
    ensures Decimal(15740) == "15740" && Decimal(5) == "5"
  {
    assert Decimal(1) == "1" && Decimal(5) == "5";
    hide Decimal;
    NextDigit(1, 5);
    NextDigit(15, 7);
    NextDigit(157, 4);
    NextDigit(1574, 0);
  }

  /** How a URL looks. */
  lemma UrlOfHandleFive()
    ensures HandleURL("cam", 15740, 5) == "ptpip://cam:15740/5"
  {
    DefaultPort();
    hide Decimal;
    assert SignedDecimal(15740) == "15740";
  }

  /** A negative number has its sign in front. */
  lemma NegativeSign(n: int)
    ensures n > 0 ==> SignedDecimal(-n) == ['-'] + SignedDecimal(n)
  {
    hide Decimal;
  }

  lemma NoSlash(s: string)
    requires AllDigits(s)
    ensures '/' !in s
  {
  }

  lemma ParseAfter(url: string, i: nat, h: uint32)
    requires i + 1 < |url| && url[i] == '/' && IsNumber(url[i + 1..], h)
    ensures ParseHandle(url) == Some(h)
  {
    hide DigitsValue, LastIndex, AllDigits;
    var digits := url[i + 1..];
    NoSlash(digits);
    assert url == url[..i] + ['/'] + digits;
    LastIndexOf(url[..i], '/', digits);
  }

  lemma ParsedFrom(url: string, h: uint32) returns (i: nat)
    requires ParseHandle(url) == Some(h)
    ensures i + 1 < |url| && url[i] == '/' && IsNumber(url[i + 1..], h)
  {
    hide DigitsValue, LastIndex, AllDigits;
    i := LastIndex(url, '/');
    LastIndexIs(url, '/');
  }

  /** A handle is read exactly from what ends in a slash and the digits of a 32-bit number. */
  lemma ParseHandleIff(url: string, h: uint32)
    ensures ParseHandle(url) == Some(h) <==>
            exists i :: 0 <= i < |url| - 1 && url[i] == '/' && IsNumber(url[i + 1..], h)
  {
    hide DigitsValue, LastIndex, AllDigits, ParseHandle, IsNumber;
    if i :| 0 <= i < |url| - 1 && url[i] == '/' && IsNumber(url[i + 1..], h) {
      ParseAfter(url, i, h);
    }
    if ParseHandle(url) == Some(h) {
      var i := ParsedFrom(url, h);
    }
  }

  ghost predicate IsNumber(s: string, n: nat) {
    s != "" && AllDigits(s) && DigitsValue(s) == n
  }

  lemma {:induction false} LastIndexIs(s: string, c: char)
    ensures LastIndex(s, c) >= 0 ==> s[LastIndex(s, c)] == c
  {
    if s != [] {
      LastIndexIs(s[..|s| - 1], c);
    }
  }
}
