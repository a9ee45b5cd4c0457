/**
 * The errors the easylark client returns, and the text each one prints.
 *
 * Go errors are values whose only observable is their `Error()` string; the
 * model keeps the structure (`Error`) and gives the string by `Text`.
 * `Api` is the package's own `*Error{Code, Message}`; the others are the
 * `fmt.Errorf` wrappers of the transport, codec and multipart stages.
 */
module Errors {

  /** The stage at which a request failed; each wraps its cause as
      "<stage text>: <cause>". */
  datatype Stage =
    | CreateRequest
    | Send
    | ReadBody
    | Unmarshal
    | CreateFormFile
    | WriteFileContent
    | CloseWriter

  datatype Error =
    | Failed(stage: Stage, cause: string)
    | TokenRejected(msg: string)
    | UploadRejected(msg: string)
    | Api(code: int, message: string)
    | NoSheetId

  function StageText(s: Stage): (t: string)
    ensures t != [] && t[0] != ApiPrefix[0]
  {
    match s
    case CreateRequest => "create request failed"
    case Send => "send request failed"
    case ReadBody => "read response body failed"
    case Unmarshal => "unmarshal response body failed"
    case CreateFormFile => "create form file failed"
    case WriteFileContent => "write file content failed"
    case CloseWriter => "close multipart writer failed"
  }

  const ApiPrefix := "easylark API error: code="
  const ApiInfix := ", message="

  /** What `err.Error()` prints for each error. */
  function Text(e: Error): (t: string)
    ensures e.Api? <==> |ApiPrefix| <= |t| && t[..|ApiPrefix|] == ApiPrefix
  {
    match e
    case Failed(s, cause) => NotApiPrefixed(StageText(s), ": " + cause); StageText(s) + ": " + cause
    case TokenRejected(msg) => NotApiPrefixed("get tenant_access_token failed: ", msg); "get tenant_access_token failed: " + msg
    case UploadRejected(msg) => NotApiPrefixed("upload file failed: ", msg); "upload file failed: " + msg
    case Api(code, message) => ApiPrefix + Decimal(code) + ApiInfix + message
    case NoSheetId => NotApiPrefixed("failed to get sheet ID", ""); "failed to get sheet ID"
  }

  /** A text whose first character is not the one `ApiPrefix` starts with
      does not start with `ApiPrefix`, whatever follows it. */
  lemma NotApiPrefixed(head: string, rest: string)
    requires head != [] && head[0] != ApiPrefix[0]
    ensures var t := head + rest; !(|ApiPrefix| <= |t| && t[..|ApiPrefix|] == ApiPrefix)
  {
    var t := head + rest;
    assert t[0] == head[0];
  }

  predicate EndsWith(s: string, suffix: string)
  {
    |suffix| <= |s| && s[|s| - |suffix|..] == suffix
  }

  /** Every error that reports a message from a response envelope prints
      that message verbatim at its end. */
  lemma TextEndsWithMessage(e: Error)
    ensures e.TokenRejected? ==> EndsWith(Text(e), e.msg)
    ensures e.UploadRejected? ==> EndsWith(Text(e), e.msg)
    ensures e.Api? ==> EndsWith(Text(e), e.message)
    ensures e.Failed? ==> EndsWith(Text(e), e.cause)
  {
  }

  // ---------------------------------------------------------------------
  // Decimal rendering of an int, as Go's `%d` verb writes it.

  predicate IsDigit(c: char)
  {
    '0' <= c <= '9'
  }

  predicate AllDigits(s: string)
  {
    forall i :: 0 <= i < |s| ==> IsDigit(s[i])
  }

  function DigitChar(d: nat): (c: char)
    requires d < 10
    ensures IsDigit(c) && (c as int) - ('0' as int) == d
  {
    (('0' as int) + d) as char
  }

  function DigitValue(c: char): nat
    requires IsDigit(c)
  {
    (c as int) - ('0' as int)
  }

  /** The digits of `n`, most significant first, without leading zeros. */
  function Digits(n: nat): (s: string)
    ensures |s| > 0 && AllDigits(s)
    ensures |s| > 1 ==> s[0] != '0'
  {
    if n < 10 then [DigitChar(n)] else Digits(n / 10) + [DigitChar(n % 10)]
  }

  /** `fmt.Sprintf("%d", n)`: a minus sign for negative numbers, then the digits. */
  function Decimal(n: int): (s: string)
    ensures |s| > 0
    ensures (s[0] == '-') <==> n < 0
    ensures n >= 0 ==> AllDigits(s)
    ensures n < 0 ==> AllDigits(s[1..]) && |s| > 1
  {
    if n < 0 then "-" + Digits(-n) else Digits(n)
  }

  /** The value of a string of digits (the reading a decimal parser gives). */
  function ParseDigits(s: string): nat
    requires AllDigits(s)
  {
    if s == [] then 0 else ParseDigits(s[..|s| - 1]) * 10 + DigitValue(s[|s| - 1])
  }

  function ParseDecimal(s: string): int
    requires |s| > 0
    requires s[0] == '-' ==> AllDigits(s[1..])
    requires s[0] != '-' ==> AllDigits(s)
  {
    if s[0] == '-' then -(ParseDigits(s[1..]) as int) else ParseDigits(s)
  }

  lemma {:induction false} DigitsRoundTrip(n: nat)
    ensures ParseDigits(Digits(n)) == n
  {
    if n >= 10 {
      var s := Digits(n);
      assert s[..|s| - 1] == Digits(n / 10);
      DigitsRoundTrip(n / 10);
    }
  }

  /** Reading back what `%d` printed gives the number again. */
  lemma DecimalRoundTrip(n: int)
    ensures ParseDecimal(Decimal(n)) == n
  {
    if n < 0 {
      assert Decimal(n)[1..] == Digits(-n);
      DigitsRoundTrip(-n);
    } else {
      DigitsRoundTrip(n);
    }
  }

  /** A decimal rendering never contains the ',' that follows it in an
      `*Error` text. */
  lemma DecimalHasNoComma(n: int)
    ensures ',' !in Decimal(n)
  {
    var s := Decimal(n);
    forall i | 0 <= i < |s|
      ensures s[i] != ','
    {
      if n < 0 && i > 0 {
        assert s[i] == s[1..][i - 1];
      }
    }
  }

  /** The position of the first ',' in `s`, or `|s|` when there is none. */
  function IndexOfComma(s: string): (k: nat)
    ensures k <= |s|
    ensures forall i :: 0 <= i < k ==> s[i] != ','
    ensures k < |s| ==> s[k] == ','
  {
    if s == [] || s[0] == ',' then 0 else 1 + IndexOfComma(s[1..])
  }

  lemma SplitBeforeComma(d1: string, m1: string, d2: string, m2: string)
    requires ',' !in d1 && ',' !in d2
    requires d1 + ApiInfix + m1 == d2 + ApiInfix + m2
    ensures d1 == d2 && m1 == m2
  {
    var t := d1 + ApiInfix + m1;
    assert t[|d1|] == ',' && t[|d2|] == ',';
    var k := IndexOfComma(t);
    assert k <= |d1| && k <= |d2|;
    assert forall i :: 0 <= i < |d1| ==> t[i] == d1[i] && d1[i] in d1;
    assert forall i :: 0 <= i < |d2| ==> t[i] == d2[i] && d2[i] in d2;
    assert d1 == t[..|d1|] == d2;
    assert m1 == t[|d1| + |ApiInfix|..] == m2;
  }

  /** Two `*Error` values print the same text only when they carry the same
      code and message: the text loses nothing. */
  lemma ApiTextInjective(c1: int, m1: string, c2: int, m2: string)
    requires Text(Api(c1, m1)) == Text(Api(c2, m2))
    ensures c1 == c2 && m1 == m2
  {
    var t := Text(Api(c1, m1));
    assert t == ApiPrefix + (Decimal(c1) + ApiInfix + m1);
    assert t == ApiPrefix + (Decimal(c2) + ApiInfix + m2);
    assert Decimal(c1) + ApiInfix + m1 == t[|ApiPrefix|..] == Decimal(c2) + ApiInfix + m2;
    DecimalHasNoComma(c1);
    DecimalHasNoComma(c2);
    SplitBeforeComma(Decimal(c1), m1, Decimal(c2), m2);
    DecimalRoundTrip(c1);
    DecimalRoundTrip(c2);
  }

  lemma DecimalOf10002()
    ensures Decimal(10002) == "10002"
  {
    assert 10002 / 10 == 1000 && 10002 % 10 == 2;
    assert 1000 / 10 == 100 && 1000 % 10 == 0;
    assert 100 / 10 == 10 && 100 % 10 == 0;
    assert 10 / 10 == 1 && 10 % 10 == 0;
    assert Digits(10) == Digits(1) + "0" == "10";
    assert Digits(100) == Digits(10) + "0" == "100";
    assert Digits(1000) == Digits(100) + "0" == "1000";
    assert Digits(10002) == Digits(1000) + "2" == "10002";
  }

  /** The text of the error an invalid secret produces. */
  lemma InvalidSecretText()
    ensures Text(Api(10002, "invalid app_secret"))
         == "easylark API error: code=" + "10002" + ", message=" + "invalid app_secret"
  {
    DecimalOf10002();
  }
}
