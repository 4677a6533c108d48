/** `parseArrOfStrToInt` and the `parseInt(str, 10)` it relies on. */
module CommunFns {
  import opened Wrappers
  import opened ErrorSystem
  import opened Decimal

  /**
   * StrWhiteSpaceChar of section 7.2 and 7.3 of ECMA-262 (ECMAScript 2023):
   * WhiteSpace (TAB, VT, FF, ZWNBSP and every Zs character) and LineTerminator.
   */
  predicate IsStrWhiteSpaceChar(c: char)
  {
    || c == '\t' || c == '\U{0B}' || c == '\U{0C}' || c == '\U{FEFF}'
    || c == ' ' || c == '\U{A0}' || c == '\U{1680}' || ('\U{2000}' <= c <= '\U{200A}')
    || c == '\U{202F}' || c == '\U{205F}' || c == '\U{3000}'
    || c == '\n' || c == '\r' || c == '\U{2028}' || c == '\U{2029}'
  }

  /** The string with its leading white space removed. */
  function TrimStart(s: string): (r: string)
    ensures |r| <= |s| && r == s[|s| - |r|..]
    ensures r == [] || !IsStrWhiteSpaceChar(r[0])
    ensures forall i | 0 <= i < |s| - |r| :: IsStrWhiteSpaceChar(s[i])
    decreases |s|
  {
    if s != [] && IsStrWhiteSpaceChar(s[0]) then TrimStart(s[1..]) else s
  }

  /** The longest prefix made of decimal digits. */
  function DigitPrefix(s: string): (r: string)
    ensures r <= s && AllDigits(r)
    ensures |r| == |s| || !IsDigit(s[|r|])
    decreases |s|
  {
    if s != [] && IsDigit(s[0]) then [s[0]] + DigitPrefix(s[1..]) else []
  }

  /** The string after an optional leading `+` or `-`. */
  function Unsigned(s: string): string
  {
    if s != [] && (s[0] == '-' || s[0] == '+') then s[1..] else s
  }

  /**
   * `parseInt(s, 10)` of section 19.2.5 of ECMA-262: skip white space, read an
   * optional sign, then the longest run of decimal digits. `None` is NaN, the
   * result when there are no digits. Minus zero is the integer 0.
   */
  function ParseInt(s: string): Option<int>
  {
    ParseTrimmed(TrimStart(s))
  }

  /** The sign and digit steps of `parseInt`, once white space is gone. */
  function ParseTrimmed(trimmed: string): Option<int>
  {
    var sign := if trimmed != [] && trimmed[0] == '-' then -1 else 1;
    var digits := DigitPrefix(Unsigned(trimmed));
    if digits == [] then None else Some(sign * Value(digits))
  }

  lemma {:induction false} DigitPrefixOfDigits(s: string, rest: string)
    requires AllDigits(s)
    requires rest == [] || !IsDigit(rest[0])
    ensures DigitPrefix(s + rest) == s
    decreases |s|
  {
    if s != [] {
      assert (s + rest)[1..] == s[1..] + rest;
      DigitPrefixOfDigits(s[1..], rest);
    } else {
      assert s + rest == rest;
    }
  }

  lemma {:induction false} TrimStartSkipsWhiteSpace(ws: string, s: string)
    requires forall i | 0 <= i < |ws| :: IsStrWhiteSpaceChar(ws[i])
    ensures TrimStart(ws + s) == TrimStart(s)
    decreases |ws|
  {
    if ws != [] {
      assert (ws + s)[1..] == ws[1..] + s;
      TrimStartSkipsWhiteSpace(ws[1..], s);
    } else {
      assert ws + s == s;
    }
  }

  /** The printed text of a number, followed by anything but a digit, parses to that number. */
  lemma ParseIntReadsPrintedNumber(n: nat, rest: string)
    requires rest == [] || !IsDigit(rest[0])
    ensures ParseInt(FromNat(n) + rest) == Some(n)
  {
    var s := FromNat(n) + rest;
    assert s[0] == FromNat(n)[0];
    assert TrimStart(s) == s;
    DigitPrefixOfDigits(FromNat(n), rest);
    ValueOfFromNat(n);
  }

  /** A leading minus sign negates the number read. */
  lemma ParseIntReadsNegative(n: nat, rest: string)
    requires rest == [] || !IsDigit(rest[0])
    ensures ParseInt("-" + FromNat(n) + rest) == Some(-(n as int))
  {
    var s := "-" + FromNat(n) + rest;
    assert s[0] == '-';
    assert TrimStart(s) == s;
    assert Unsigned(s) == FromNat(n) + rest;
    DigitPrefixOfDigits(FromNat(n), rest);
    ValueOfFromNat(n);
  }

  /** Leading white space does not change the result. */
  lemma ParseIntSkipsWhiteSpace(ws: string, s: string)
    requires forall i | 0 <= i < |ws| :: IsStrWhiteSpaceChar(ws[i])
    ensures ParseInt(ws + s) == ParseInt(s)
  {
    TrimStartSkipsWhiteSpace(ws, s);
    assert ParseInt(ws + s) == ParseTrimmed(TrimStart(s));
  }

  /** A string whose first visible character (after a sign) is not a digit is NaN. */
  lemma ParseIntWithoutDigitsIsNaN(s: string)
    requires var u := Unsigned(TrimStart(s)); u == [] || !IsDigit(u[0])
    ensures ParseInt(s) == None
  {
  }

  /** The error thrown for an element that parses to NaN. */
  const NotNumbers: Thrown := GetNewResponseError("array must be an array of numbers", 400)

  /**
   * The `map` of `parseArrOfStrToInt` with the element parser as a parameter:
   * every string is parsed, in order; the first one that yields NaN makes the
   * whole call throw.
   */
  function ParseEach(arr: seq<string>, parse: string -> Option<int>): (r: Result<seq<int>, Thrown>)
    ensures r.Success? <==> forall i | 0 <= i < |arr| :: parse(arr[i]).Some?
    ensures r.Success? ==> |r.value| == |arr| && forall i | 0 <= i < |arr| :: Some(r.value[i]) == parse(arr[i])
    ensures r.Failure? ==> r.error == NotNumbers
    decreases |arr|
  {
    if arr == [] then Success([])
    else match parse(arr[0])
      case None => Failure(NotNumbers)
      case Some(n) =>
        match ParseEach(arr[1..], parse)
        case Failure(e) => Failure(e)
        case Success(rest) => Success([n] + rest)
  }

  /**
   * `parseArrOfStrToInt`: the strings parsed by `parseInt(s, 10)`, all or
   * nothing, with a 400 response error when one of them is NaN.
   */
  function ParseArrOfStrToInt(arr: seq<string>): (r: Result<seq<int>, Thrown>)
    ensures r.Success? <==> forall i | 0 <= i < |arr| :: ParseInt(arr[i]).Some?
    ensures r.Success? ==> |r.value| == |arr| && forall i | 0 <= i < |arr| :: Some(r.value[i]) == ParseInt(arr[i])
    ensures r.Failure? ==> r.error == NotNumbers
  {
    ParseEach(arr, ParseInt)
  }
}
