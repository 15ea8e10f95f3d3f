/** Phone numbers: cleaning, country-code decoding, validation and display forms. */
module Phone {
  import opened Wrappers

  datatype Lengths = Lengths(min: nat, max: nat)

  datatype PhoneError = EmptyPhone | InvalidCharacters | InvalidIndianMobile | InvalidFormat
                      | InvalidCountryCode | InvalidLength | InternationalNotAllowed

  datatype Number = Number(international: bool, countryCode: nat, national: string,
                           formatted: string, normalized: string)

  datatype Verdict = Valid(number: Number) | Invalid(error: PhoneError)

  datatype Options = Options(allowInternational: bool, requireIndian: bool)

  /** National number lengths of the supported countries. */
  function Country(code: nat): Option<Lengths> {
    match code
    case 1 => Some(Lengths(10, 10))
    case 7 => Some(Lengths(11, 11))
    case 20 => Some(Lengths(11, 11))
    case 27 => Some(Lengths(10, 10))
    case 30 => Some(Lengths(11, 11))
    case 31 => Some(Lengths(10, 10))
    case 32 => Some(Lengths(9, 9))
    case 33 => Some(Lengths(10, 10))
    case 34 => Some(Lengths(9, 9))
    case 36 => Some(Lengths(9, 9))
    case 39 => Some(Lengths(10, 11))
    case 40 => Some(Lengths(9, 9))
    case 41 => Some(Lengths(9, 9))
    case 43 => Some(Lengths(10, 13))
    case 44 => Some(Lengths(10, 10))
    case 45 => Some(Lengths(8, 8))
    case 46 => Some(Lengths(9, 9))
    case 47 => Some(Lengths(8, 8))
    case 48 => Some(Lengths(9, 9))
    case 49 => Some(Lengths(11, 12))
    case 51 => Some(Lengths(9, 9))
    case 52 => Some(Lengths(10, 12))
    case 53 => Some(Lengths(8, 8))
    case 54 => Some(Lengths(10, 11))
    case 55 => Some(Lengths(10, 11))
    case 56 => Some(Lengths(9, 9))
    case 57 => Some(Lengths(10, 10))
    case 58 => Some(Lengths(10, 10))
    case 60 => Some(Lengths(9, 10))
    case 61 => Some(Lengths(9, 9))
    case 62 => Some(Lengths(9, 13))
    case 63 => Some(Lengths(10, 10))
    case 64 => Some(Lengths(9, 10))
    case 65 => Some(Lengths(8, 8))
    case 66 => Some(Lengths(9, 9))
    case 81 => Some(Lengths(10, 11))
    case 82 => Some(Lengths(10, 11))
    case 84 => Some(Lengths(9, 10))
    case 86 => Some(Lengths(11, 11))
    case 90 => Some(Lengths(10, 10))
    case 91 => Some(Lengths(10, 10))
    case 92 => Some(Lengths(10, 10))
    case 93 => Some(Lengths(9, 9))
    case 94 => Some(Lengths(9, 9))
    case 95 => Some(Lengths(8, 10))
    case 98 => Some(Lengths(10, 10))
    case 212 => Some(Lengths(9, 9))
    case 213 => Some(Lengths(9, 9))
    case 216 => Some(Lengths(8, 8))
    case 218 => Some(Lengths(9, 9))
    case 220 => Some(Lengths(7, 7))
    case 221 => Some(Lengths(9, 9))
    case 222 => Some(Lengths(8, 8))
    case 223 => Some(Lengths(8, 8))
    case 224 => Some(Lengths(9, 9))
    case 225 => Some(Lengths(10, 10))
    case 226 => Some(Lengths(8, 8))
    case 227 => Some(Lengths(8, 8))
    case 228 => Some(Lengths(8, 8))
    case 229 => Some(Lengths(8, 8))
    case 230 => Some(Lengths(7, 8))
    case 231 => Some(Lengths(7, 8))
    case 232 => Some(Lengths(8, 8))
    case 233 => Some(Lengths(9, 9))
    case 234 => Some(Lengths(10, 11))
    case 235 => Some(Lengths(8, 8))
    case 236 => Some(Lengths(8, 8))
    case 237 => Some(Lengths(9, 9))
    case 238 => Some(Lengths(7, 7))
    case 239 => Some(Lengths(7, 7))
    case 240 => Some(Lengths(9, 9))
    case 241 => Some(Lengths(7, 8))
    case 242 => Some(Lengths(9, 9))
    case 243 => Some(Lengths(9, 9))
    case 244 => Some(Lengths(9, 9))
    case 245 => Some(Lengths(7, 7))
    case 246 => Some(Lengths(7, 7))
    case 248 => Some(Lengths(7, 7))
    case 249 => Some(Lengths(9, 9))
    case 250 => Some(Lengths(9, 9))
    case _ => None
  }

  // ---- Characters and digit strings ----

  /** White space as the regular expression class `\s` and `trim` have it. */
  predicate IsSpace(c: char) {
    || '\t' <= c <= '\r' || c == ' ' || c == '\U{00A0}' || c == '\U{1680}' || '\U{2000}' <= c <= '\U{200A}'
    || c == '\U{2028}' || c == '\U{2029}' || c == '\U{202F}' || c == '\U{205F}' || c == '\U{3000}' || c == '\U{FEFF}'
  }

  predicate IsSeparator(c: char) {
    IsSpace(c) || c == '-' || c == '(' || c == ')' || c == '.'
  }

  predicate IsDigit(c: char) {
    '0' <= c <= '9'
  }

  predicate Digits(s: string) {
    forall i | 0 <= i < |s| :: IsDigit(s[i])
  }

  function Value(c: char): nat
    requires IsDigit(c)
  {
    c as int - '0' as int
  }

  function Digit(n: nat): char
    requires n < 10
  {
    '0' + n as char
  }

  function ParseInt(s: string): nat
    requires Digits(s)
  {
    if s == [] then 0 else 10 * ParseInt(s[..|s| - 1]) + Value(s[|s| - 1])
  }

  function Str(n: nat): string {
    if n < 10 then [Digit(n)] else Str(n / 10) + [Digit(n % 10)]
  }

  function Strip(s: string): string {
    if s == [] then [] else (if IsSeparator(s[0]) then [] else [s[0]]) + Strip(s[1..])
  }

  function TrimStart(s: string): string {
    if s != [] && IsSpace(s[0]) then TrimStart(s[1..]) else s
  }

  function TrimEnd(s: string): string {
    if s != [] && IsSpace(s[|s| - 1]) then TrimEnd(s[..|s| - 1]) else s
  }

  function Trim(s: string): string {
    TrimEnd(TrimStart(s))
  }

  // ---- Cleaning ----

  /** Ten digits, the first of them 6 to 9. */
  predicate Mobile(s: string) {
    |s| == 10 && '6' <= s[0] <= '9' && Digits(s)
  }

  function Clean(phone: string): string {
    var s := Strip(phone);
    if "0091" <= s then "+91" + s[4..]
    else if "091" <= s && Mobile(s[3..]) then "+91" + s[3..]
    else if "91" <= s && |s| > 2 && '6' <= s[2] <= '9' then "+91" + s[2..]
    else if "0" <= s && Mobile(s[1..]) then s[1..]
    else s
  }

  // ---- Country codes ----

  datatype Decoded = Decoded(code: nat, national: string)

  /** The first of the prefixes of `i` to four digits that is a supported code. */
  function DecodeFrom(digits: string, i: nat): Option<Decoded>
    requires Digits(digits)
    decreases 5 - i
  {
    if i > 4 || i > |digits| then None
    else if Country(ParseInt(digits[..i])).Some? then Some(Decoded(ParseInt(digits[..i]), digits[i..]))
    else DecodeFrom(digits, i + 1)
  }

  function Decode(digits: string): Option<Decoded>
    requires Digits(digits)
  {
    DecodeFrom(digits, 1)
  }

  // ---- The same on any text, as JavaScript's parseInt reads it ----

  predicate IsHex(c: char) {
    IsDigit(c) || 'a' <= c <= 'f' || 'A' <= c <= 'F'
  }

  function HexValue(c: char): nat
    requires IsHex(c)
  {
    if IsDigit(c) then Value(c) else if c <= 'F' then c as int - 'A' as int + 10 else c as int - 'a' as int + 10
  }

  /** Length of the longest prefix of digits of the base. */
  function Leading(s: string, hex: bool): (n: nat)
    ensures n <= |s| && forall i | 0 <= i < n :: if hex then IsHex(s[i]) else IsDigit(s[i])
  {
    if s != [] && (if hex then IsHex(s[0]) else IsDigit(s[0])) then 1 + Leading(s[1..], hex) else 0
  }

  function ParseHex(s: string): nat
    requires forall i | 0 <= i < |s| :: IsHex(s[i])
  {
    if s == [] then 0 else 16 * ParseHex(s[..|s| - 1]) + HexValue(s[|s| - 1])
  }

  /** `parseInt(s)`: leading white space, a sign, `0x` for base 16, then as many digits as
      there are; no digit is no number. */
  function ParseText(s: string): Option<int> {
    var t := TrimStart(s);
    var unsigned := if t != [] && (t[0] == '-' || t[0] == '+') then t[1..] else t;
    var hex := |unsigned| >= 2 && unsigned[0] == '0' && (unsigned[1] == 'x' || unsigned[1] == 'X');
    var body := if hex then unsigned[2..] else unsigned;
    var n := Leading(body, hex);
    if n == 0 then None
    else
      var value := if hex then ParseHex(body[..n]) else ParseInt(body[..n]);
      Some(if t[0] == '-' then -value else value)
  }

  predicate Supported(code: Option<int>) {
    code.Some? && code.value >= 0 && Country(code.value).Some?
  }

  /** The first of the prefixes of `i` to four characters that reads as a supported code. */
  function DecodeTextFrom(text: string, i: nat): Option<Decoded>
    decreases 5 - i
  {
    if i > 4 || i > |text| then None
    else if Supported(ParseText(text[..i])) then Some(Decoded(ParseText(text[..i]).value, text[i..]))
    else DecodeTextFrom(text, i + 1)
  }

  lemma {:induction false} LeadingDigits(s: string)
    requires Digits(s)
    ensures Leading(s, false) == |s|
  {
    if s != [] {
      LeadingDigits(s[1..]);
    }
  }

  lemma ParseTextDigits(s: string)
    requires Digits(s) && s != []
    ensures ParseText(s) == Some(ParseInt(s))
  {
    LeadingDigits(s);
    assert s[..|s|] == s;
  }

  /** On digits parseInt is the decimal reading, so extraction there is `Decode`. */
  lemma {:induction false} DecodeTextDigits(digits: string, i: nat)
    requires Digits(digits) && i >= 1
    ensures DecodeTextFrom(digits, i) == DecodeFrom(digits, i)
    decreases 5 - i
  {
    if i <= 4 && i <= |digits| {
      ParseTextDigits(digits[..i]);
      DecodeTextDigits(digits, i + 1);
    }
  }

  // ---- Validation ----

  function IndianNumber(national: string): Number
    requires |national| == 10
  {
    Number(false, 91, national, "+91 " + national[..5] + " " + national[5..], "+91" + national)
  }

  function ValidateIndian(phone: string): Verdict {
    if Mobile(phone) then Valid(IndianNumber(phone))
    else if "+91" <= phone && Mobile(phone[3..]) then Valid(IndianNumber(phone[3..]))
    else if "91" <= phone && Mobile(phone[2..]) then Valid(IndianNumber(phone[2..]))
    else if "0091" <= phone && Mobile(phone[4..]) then Valid(IndianNumber(phone[4..]))
    else Invalid(InvalidIndianMobile)
  }

  /** A plus, a digit other than zero, then one to seventeen more digits. */
  predicate E164(phone: string) {
    3 <= |phone| <= 19 && phone[0] == '+' && phone[1] != '0' && Digits(phone[1..])
  }

  function FormatInternational(code: nat, national: string): string {
    if |national| >= 6 then
      var half := (|national| + 1) / 2;
      "+" + Str(code) + " " + national[..half] + " " + national[half..]
    else "+" + Str(code) + " " + national
  }

  function ValidateInternational(phone: string): Verdict {
    if !("+" <= phone) then Invalid(InvalidFormat)
    else if "+0" <= phone then Invalid(InvalidCountryCode)
    else if !E164(phone) then Invalid(InvalidFormat)
    else
      match Decode(phone[1..])
      case None => Invalid(InvalidCountryCode)
      case Some(d) =>
        var lengths := Country(d.code);
        if lengths.None? || |d.national| < lengths.value.min || |d.national| > lengths.value.max
        then Invalid(InvalidLength)
        else Valid(Number(true, d.code, d.national, FormatInternational(d.code, d.national), phone))
  }

  predicate PhoneCharacters(s: string) {
    forall i | 0 <= i < |s| :: s[i] == '+' || IsDigit(s[i])
  }

  /** Long digit strings that cannot be Indian are tried with a plus. */
  function WithPlus(cleaned: string): string
    requires cleaned != []
  {
    if cleaned[0] != '+' && |cleaned| > 10 && !('6' <= cleaned[0] <= '9') then "+" + cleaned else cleaned
  }

  function ValidateCleaned(cleaned: string, options: Options): Verdict {
    if cleaned == [] then Invalid(EmptyPhone)
    else if !PhoneCharacters(cleaned) then Invalid(InvalidCharacters)
    else
      var indian := ValidateIndian(cleaned);
      if indian.Valid? || options.requireIndian then indian
      else if options.allowInternational then
        var candidate := WithPlus(cleaned);
        if candidate[0] == '+' then
          var international := ValidateInternational(candidate);
          if international.Valid? || cleaned[0] == '+' || |cleaned| > 12 then international else indian
        else indian
      else if cleaned[0] == '+' || |cleaned| > 11 then Invalid(InternationalNotAllowed)
      else indian
  }

  function ValidatePhone(phone: string, options: Options): Verdict {
    if phone == [] then Invalid(EmptyPhone) else ValidateCleaned(Clean(Trim(phone)), options)
  }

  // ---- The loops of the program ----

  method CleanPhoneNumber(phone: string) returns (cleaned: string)
    ensures cleaned == Clean(phone)
  {
    cleaned := Strip(phone);
    if "0091" <= cleaned {
      cleaned := "+91" + cleaned[4..];
    } else if "091" <= cleaned && Mobile(cleaned[3..]) {
      cleaned := "+91" + cleaned[3..];
    } else if "91" <= cleaned && |cleaned| > 2 && '6' <= cleaned[2] <= '9' {
      cleaned := "+91" + cleaned[2..];
    } else if "0" <= cleaned && Mobile(cleaned[1..]) {
      cleaned := cleaned[1..];
    }
  }

  method ExtractCountryCode(phone: string) returns (decoded: Option<Decoded>)
    ensures decoded == if "+" <= phone then DecodeTextFrom(phone[1..], 1) else None
    ensures "+" <= phone && Digits(phone[1..]) ==> decoded == Decode(phone[1..])
  {
    if !("+" <= phone) {
      return None;
    }
    var digits := phone[1..];
    if Digits(digits) {
      DecodeTextDigits(digits, 1);
    }
    var i := 1;
    while i <= 4 && i <= |digits|
      invariant 1 <= i <= 5
      invariant DecodeTextFrom(digits, 1) == DecodeTextFrom(digits, i)
    {
      var potentialCode := ParseText(digits[..i]);
      if Supported(potentialCode) {
        return Some(Decoded(potentialCode.value, digits[i..]));
      }
      i := i + 1;
    }
    return None;
  }

  method ValidateIndianMobile(phone: string) returns (verdict: Verdict)
    ensures verdict == ValidateIndian(phone)
  {
    if Mobile(phone) {
      return Valid(IndianNumber(phone));
    }
    var prefixes := ["+91", "91", "0091"];
    for p := 0 to |prefixes|
      invariant forall q | 0 <= q < p :: !(prefixes[q] <= phone && Mobile(phone[|prefixes[q]|..]))
    {
      if prefixes[p] <= phone && Mobile(phone[|prefixes[p]|..]) {
        assert prefixes[0] == "+91" && prefixes[1] == "91" && prefixes[2] == "0091";
        return Valid(IndianNumber(phone[|prefixes[p]|..]));
      }
    }
    assert !(prefixes[0] <= phone && Mobile(phone[3..])) && !(prefixes[1] <= phone && Mobile(phone[2..]))
           && !(prefixes[2] <= phone && Mobile(phone[4..]));
    return Invalid(InvalidIndianMobile);
  }

  // ---- Separators never matter ----

  lemma {:induction false} StripConcat(a: string, b: string)
    ensures Strip(a + b) == Strip(a) + Strip(b)
  {
    if a == [] {
      assert a + b == b;
    } else {
      StripConcat(a[1..], b);
      assert (a + b)[1..] == a[1..] + b;
    }
  }

  lemma {:induction false} StripNone(s: string)
    requires forall i | 0 <= i < |s| :: !IsSeparator(s[i])
    ensures Strip(s) == s
  {
    if s != [] {
      StripNone(s[1..]);
    }
  }

  lemma {:induction false} StripTrimStart(s: string)
    ensures Strip(TrimStart(s)) == Strip(s)
  {
    if s != [] && IsSpace(s[0]) {
      StripTrimStart(s[1..]);
      assert [] + Strip(s[1..]) == Strip(s[1..]);
    }
  }

  lemma StripSnoc(s: string, c: char)
    requires IsSeparator(c)
    ensures Strip(s + [c]) == Strip(s)
  {
    StripConcat(s, [c]);
    assert Strip([c]) == [];
    assert Strip(s) + [] == Strip(s);
  }

  lemma {:induction false} StripTrimEnd(s: string)
    ensures Strip(TrimEnd(s)) == Strip(s)
  {
    if s != [] && IsSpace(s[|s| - 1]) {
      var n := |s| - 1;
      StripTrimEnd(s[..n]);
      StripSnoc(s[..n], s[n]);
      assert s == s[..n] + [s[n]];
    }
  }

  lemma CleanTrim(s: string)
    ensures Strip(Trim(s)) == Strip(s) && Clean(Trim(s)) == Clean(s)
  {
    StripTrimStart(s);
    StripTrimEnd(TrimStart(s));
  }

  /** Spaces, hyphens, brackets and dots may be put in or left out anywhere. */
  lemma SeparatorsIgnored(s: string, t: string, options: Options)
    requires Strip(s) == Strip(t) && s != [] && t != []
    ensures ValidatePhone(s, options) == ValidatePhone(t, options)
  {
    CleanTrim(s);
    CleanTrim(t);
  }

  // ---- Country codes are decoded uniquely ----

  lemma {:induction false} StrOfParse(s: string)
    requires s != [] && Digits(s) && s[0] != '0'
    ensures ParseInt(s) > 0 && Str(ParseInt(s)) == s
  {
    var n := |s| - 1;
    if n == 0 {
      assert ParseInt(s[..0]) == 0;
    } else {
      StrOfParse(s[..n]);
      assert s == s[..n] + [s[n]];
    }
  }

  lemma {:induction false} ParseOfStr(n: nat)
    ensures Str(n) != [] && Digits(Str(n)) && ParseInt(Str(n)) == n
    ensures n > 0 ==> Str(n)[0] != '0'
  {
    if n < 10 {
      assert Str(n)[..0] == [];
    } else {
      ParseOfStr(n / 10);
      assert Str(n)[..|Str(n)| - 1] == Str(n / 10);
    }
  }

  /** None of the proper prefixes of a supported code is supported. */
  lemma PrefixesUnsupported(code: nat)
    requires Country(code).Some?
    ensures 0 < code < 1000
    ensures code >= 10 ==> Country(code / 10).None?
    ensures code >= 100 ==> Country(code / 100).None?
  {
  }

  lemma LengthBounds(code: nat)
    requires Country(code).Some?
    ensures 0 < Country(code).value.min <= Country(code).value.max <= if code < 100 then 13 else 12
  {
  }

  lemma StrLength(code: nat)
    requires code < 1000
    ensures |Str(code)| == if code < 10 then 1 else if code < 100 then 2 else 3
  {
  }

  lemma DigitsConcat(a: string, b: string)
    requires Digits(a) && Digits(b)
    ensures Digits(a + b)
  {
  }

  lemma {:induction false} DecodesAt(digits: string, i: nat, j: nat)
    requires Digits(digits) && 1 <= j <= i <= 4 && i <= |digits|
    requires Country(ParseInt(digits[..i])).Some?
    requires forall k | j <= k < i :: Country(ParseInt(digits[..k])).None?
    ensures DecodeFrom(digits, j) == Some(Decoded(ParseInt(digits[..i]), digits[i..]))
    decreases i - j
  {
    if j < i {
      DecodesAt(digits, i, j + 1);
    }
  }

  lemma OneShorterUnsupported(code: nat, digits: string)
    requires Country(code).Some? && Digits(digits) && Str(code) <= digits && code >= 10
    ensures |Str(code)| <= |digits| && Country(ParseInt(digits[..|Str(code)| - 1])).None?
  {
    PrefixOfStr(code, digits);
    PrefixesUnsupported(code);
  }

  lemma TwoShorterUnsupported(code: nat, digits: string)
    requires Country(code).Some? && Digits(digits) && Str(code) <= digits && code >= 100
    ensures |Str(code)| <= |digits| && Country(ParseInt(digits[..|Str(code)| - 2])).None?
  {
    PrefixOfStr(code, digits);
    PrefixOfStr(code / 10, digits);
    assert code / 10 / 10 == code / 100;
    PrefixesUnsupported(code);
  }

  /** Decoding reads back the code it was given in front of any national number. */
  lemma DecodeOfStr(code: nat, national: string)
    requires Country(code).Some? && Digits(national)
    ensures Digits(Str(code) + national)
    ensures Decode(Str(code) + national) == Some(Decoded(code, national))
  {
    PrefixesUnsupported(code);
    ParseOfStr(code);
    StrLength(code);
    var digits := Str(code) + national;
    DigitsConcat(Str(code), national);
    var i := |Str(code)|;
    assert digits[..i] == Str(code) && digits[i..] == national;
    if code >= 10 {
      OneShorterUnsupported(code, digits);
    }
    if code >= 100 {
      TwoShorterUnsupported(code, digits);
    }
    DecodesAt(digits, i, 1);
  }

  lemma PrefixOfStr(code: nat, digits: string)
    requires 10 <= code && Str(code) <= digits && Digits(digits)
    ensures Str(code / 10) <= digits
    ensures |Str(code / 10)| == |Str(code)| - 1
    ensures ParseInt(digits[..|Str(code / 10)|]) == code / 10
  {
    ParseOfStr(code / 10);
    assert digits[..|Str(code / 10)|] == Str(code / 10);
  }

  /** No two supported codes begin the same digits, so decoding is unique. */
  lemma CodesPrefixFree(a: nat, b: nat, x: string, y: string)
    requires Country(a).Some? && Country(b).Some? && Digits(x) && Digits(y)
    requires Str(a) + x == Str(b) + y
    ensures a == b && x == y
  {
    DecodeOfStr(a, x);
    DecodeOfStr(b, y);
  }

  lemma {:induction false} DecodeSplits(digits: string, i: nat)
    requires Digits(digits) && digits != [] && digits[0] != '0' && i > 0
    ensures var d := DecodeFrom(digits, i);
            d.Some? ==> Country(d.value.code).Some? && Digits(d.value.national)
                        && digits == Str(d.value.code) + d.value.national
    decreases 5 - i
  {
    if i <= 4 && i <= |digits| {
      if Country(ParseInt(digits[..i])).Some? {
        StrOfParse(digits[..i]);
      } else {
        DecodeSplits(digits, i + 1);
      }
    }
  }

  // ---- What an accepted number is ----

  /** How the printed forms follow from the code and the national number. */
  predicate Shaped(n: Number) {
    if n.international then
      && 0 < n.countryCode < 1000 && Digits(n.national)
      && n.normalized == "+" + Str(n.countryCode) + n.national
      && n.formatted == FormatInternational(n.countryCode, n.national)
    else Mobile(n.national) && n == IndianNumber(n.national)
  }

  /** An international number has a supported code and a length that country has. */
  predicate Listed(n: Number) {
    n.international ==>
      && Country(n.countryCode).Some?
      && Country(n.countryCode).value.min <= |n.national| <= Country(n.countryCode).value.max
      && !(n.countryCode == 91 && Mobile(n.national))
  }

  /** The two forms of an accepted number: an Indian mobile, or a listed code and number. */
  predicate WellFormed(n: Number) {
    Shaped(n) && Listed(n)
  }

  lemma PlusDigits(n: Number)
    requires Shaped(n)
    ensures n.normalized != [] && n.normalized[0] == '+' && Digits(n.normalized[1..])
    ensures n.international ==> n.normalized[1..] == Str(n.countryCode) + n.national && Digits(Str(n.countryCode))
  {
    if n.international {
      ParseOfStr(n.countryCode);
      DigitsConcat(Str(n.countryCode), n.national);
      assert n.normalized[1..] == Str(n.countryCode) + n.national;
    } else {
      DigitsConcat("91", n.national);
      assert n.normalized[1..] == "91" + n.national;
    }
  }

  lemma InternationalWellFormed(phone: string)
    requires ValidateInternational(phone).Valid? && !ValidateIndian(phone).Valid?
    ensures WellFormed(ValidateInternational(phone).number)
    ensures ValidateInternational(phone).number.international
  {
    DecodeSplits(phone[1..], 1);
    var n := ValidateInternational(phone).number;
    PrefixesUnsupported(n.countryCode);
    assert phone == "+" + phone[1..];
    if n.countryCode == 91 {
      StrNinetyOne();
      assert phone[3..] == n.national;
    }
  }

  lemma {:induction false} AcceptedWellFormed(cleaned: string, options: Options)
    requires ValidateCleaned(cleaned, options).Valid?
    ensures WellFormed(ValidateCleaned(cleaned, options).number)
    ensures ValidateCleaned(cleaned, options).number.international ==> options.allowInternational && !options.requireIndian
  {
    if ValidateIndian(cleaned).Valid? {
    } else {
      var candidate := WithPlus(cleaned);
      if candidate != cleaned {
        assert candidate[1..] == cleaned;
      }
      InternationalWellFormed(candidate);
    }
  }

  lemma WellFormedLength(n: Number)
    requires WellFormed(n)
    ensures 3 <= |n.normalized| <= 16
  {
    if n.international {
      LengthBounds(n.countryCode);
      StrLength(n.countryCode);
    }
  }

  /** At most fifteen digits, as clause 6 of ITU-T E.164 requires. */
  lemma FifteenDigits(phone: string, options: Options)
    requires ValidatePhone(phone, options).Valid?
    ensures var n := ValidatePhone(phone, options).number.normalized;
            3 <= |n| <= 16 && n[0] == '+' && Digits(n[1..])
  {
    AcceptedWellFormed(Clean(Trim(phone)), options);
    PlusDigits(ValidatePhone(phone, options).number);
    WellFormedLength(ValidatePhone(phone, options).number);
  }

  // ---- Round trips ----

  lemma CleanPlus(s: string)
    requires s != [] && s[0] == '+' && Digits(s[1..])
    ensures Clean(Trim(s)) == s && Strip(s) == s && PhoneCharacters(s)
  {
    assert forall i | 1 <= i < |s| :: s[i] == s[1..][i - 1];
    StripNone(s);
    CleanTrim(s);
  }

  lemma IndianRoundTrip(n: string, options: Options)
    requires Mobile(n)
    ensures ValidatePhone("+91" + n, options) == Valid(IndianNumber(n))
  {
    PlusDigits(IndianNumber(n));
    CleanPlus("+91" + n);
    CleanedIndian("+91" + n, n, options);
  }

  lemma InternationalAccepted(n: Number)
    requires WellFormed(n) && n.international
    ensures ValidateInternational(n.normalized) == Valid(n)
  {
    PlusDigits(n);
    WellFormedLength(n);
    ParseOfStr(n.countryCode);
    DecodeOfStr(n.countryCode, n.national);
    assert n.normalized[1..][0] == Str(n.countryCode)[0];
  }

  /** Every listed code with a national number of a listed length is accepted as written. */
  lemma InternationalRoundTrip(n: Number, options: Options)
    requires WellFormed(n) && n.international && options.allowInternational && !options.requireIndian
    ensures ValidatePhone(n.normalized, options) == Valid(n)
  {
    PlusDigits(n);
    CleanPlus(n.normalized);
    NotIndian(n);
    InternationalAccepted(n);
  }

  lemma StrNinetyOne()
    ensures Str(91) == "91"
  {
    assert Str(9) == "9";
  }

  lemma AfterNinetyOne(s: string)
    requires "+91" <= s
    ensures s[1..] == Str(91) + s[3..]
  {
    StrNinetyOne();
  }

  lemma NotIndian(n: Number)
    requires WellFormed(n) && n.international
    ensures !ValidateIndian(n.normalized).Valid?
  {
    var s := n.normalized;
    PlusDigits(n);
    if "+91" <= s && Mobile(s[3..]) {
      AfterNinetyOne(s);
      CodesPrefixFree(n.countryCode, 91, n.national, s[3..]);
    }
  }

  lemma StripDigits(s: string)
    requires Digits(s)
    ensures Strip(s) == s
  {
    StripNone(s);
  }

  lemma StripOne(c: char)
    ensures Strip([c]) == if IsSeparator(c) then [] else [c]
  {
    assert Strip([]) == [];
  }

  lemma StripBetween(a: string, b: string)
    ensures Strip(a + " " + b) == Strip(a) + Strip(b)
  {
    StripOne(' ');
    StripConcat(a, [' ']);
    assert Strip(a) + [] == Strip(a);
    StripConcat(a + [' '], b);
  }

  lemma StripPlus(code: string)
    requires Digits(code)
    ensures Strip("+" + code) == "+" + code
  {
    StripNone("+" + code);
  }

  lemma StripSpaced(code: string, rest: string)
    requires Digits(code)
    ensures Strip("+" + code + " " + rest) == "+" + code + Strip(rest)
  {
    StripPlus(code);
    StripBetween("+" + code, rest);
  }

  lemma StripHalves(a: string, b: string)
    requires Digits(a) && Digits(b)
    ensures Strip(a + " " + b) == a + b
  {
    StripDigits(a);
    StripDigits(b);
    StripBetween(a, b);
  }

  lemma FormattedHalves(code: string, a: string, b: string)
    requires Digits(code) && Digits(a) && Digits(b)
    ensures Strip("+" + code + " " + a + " " + b) == "+" + code + (a + b)
  {
    StripHalves(a, b);
    StripSpaced(code, a + " " + b);
    assert "+" + code + " " + a + " " + b == "+" + code + " " + (a + " " + b);
  }

  /** The display form is the normalized form with spaces. */
  lemma FormattedStrips(n: Number)
    requires Shaped(n)
    ensures Strip(n.formatted) == n.normalized && n.formatted != []
  {
    if !n.international {
      assert n.national[..5] + n.national[5..] == n.national;
      FormattedHalves("91", n.national[..5], n.national[5..]);
      assert n.formatted == "+" + "91" + " " + n.national[..5] + " " + n.national[5..];
    } else {
      ParseOfStr(n.countryCode);
      if |n.national| < 6 {
        StripSpaced(Str(n.countryCode), n.national);
        StripDigits(n.national);
      } else {
        var half := (|n.national| + 1) / 2;
        assert n.national[..half] + n.national[half..] == n.national;
        FormattedHalves(Str(n.countryCode), n.national[..half], n.national[half..]);
      }
    }
  }

  /** Reading back either printed form of an accepted number, under the same options, gives
      the same number. */
  lemma RoundTrip(phone: string, options: Options)
    requires ValidatePhone(phone, options).Valid?
    ensures var v := ValidatePhone(phone, options);
            ValidatePhone(v.number.normalized, options) == v && ValidatePhone(v.number.formatted, options) == v
  {
    AcceptedWellFormed(Clean(Trim(phone)), options);
    var n := ValidatePhone(phone, options).number;
    if n.international {
      InternationalRoundTrip(n, options);
    } else {
      IndianRoundTrip(n.national, options);
    }
    FormattedStrips(n);
    PlusDigits(n);
    CleanPlus(n.normalized);
    SeparatorsIgnored(n.formatted, n.normalized, options);
  }

  // ---- Which inputs are accepted ----

  /** A ten-digit number that cleaning takes for the code 91 and eight more digits. */
  predicate Mangled(n: string) {
    |n| > 2 && "91" <= n && '6' <= n[2] <= '9'
  }

  /** The six ways to write an Indian mobile number. */
  predicate Spells(s: string, n: string) {
    (s == n && !Mangled(n)) || s == "0" + n || s == "91" + n || s == "+91" + n || s == "091" + n || s == "0091" + n
  }

  lemma SpellingCleans(s: string, n: string)
    requires Mobile(n) && Spells(Strip(s), n)
    ensures Clean(s) == n || Clean(s) == "+91" + n
  {
    var t := Strip(s);
    if t == "0" + n {
      assert t[1..] == n;
    } else if t == "91" + n {
      assert t[0] == '9' && t[1] == '1' && t[2] == n[0];
      assert t[2..] == n && "91" <= t;
    } else if t == "091" + n {
      assert t[3..] == n;
    } else if t == "0091" + n {
      assert t[4..] == n;
    }
  }

  lemma AfterPrefix(t: string, prefix: string, n: string)
    requires prefix <= t && "+91" + t[|prefix|..] == "+91" + n
    ensures t == prefix + n
  {
    var x, y := "+91" + t[|prefix|..], "+91" + n;
    assert x[3..] == t[|prefix|..] && y[3..] == n;
    assert t == t[..|prefix|] + t[|prefix|..];
  }

  lemma PlusComesFromSpelling(s: string, n: string)
    requires Mobile(n) && Clean(s) == "+91" + n
    ensures Spells(Strip(s), n)
  {
    var t := Strip(s);
    assert Clean(s)[0] == '+';
    if "0091" <= t {
      AfterPrefix(t, "0091", n);
    } else if "091" <= t && Mobile(t[3..]) {
      AfterPrefix(t, "091", n);
    } else if "91" <= t && |t| > 2 && '6' <= t[2] <= '9' {
      AfterPrefix(t, "91", n);
    }
  }

  lemma BareComesFromSpelling(s: string, n: string)
    requires Mobile(n) && Clean(s) == n
    ensures Spells(Strip(s), n)
  {
    var t := Strip(s);
    assert Clean(s)[0] != '+';
    assert t == n || t == "0" + n;
  }

  lemma CleanedIndian(cleaned: string, n: string, options: Options)
    requires Mobile(n)
    ensures cleaned == n || cleaned == "+91" + n ==> ValidateCleaned(cleaned, options) == Valid(IndianNumber(n))
  {
    if cleaned == "+91" + n {
      assert cleaned[3..] == n;
    }
  }

  lemma CleanNeverNinetyOne(s: string)
    ensures !("91" <= Clean(s) && Mobile(Clean(s)[2..])) && !("0091" <= Clean(s))
  {
    var t := Strip(s);
    assert |t| > 2 ==> t[2..][0] == t[2];
  }

  /** An input is read as an Indian mobile exactly when, separators aside, it is one of the
      six spellings; under every option. */
  lemma IndianExactly(phone: string, n: string, options: Options)
    requires Mobile(n) && phone != []
    ensures ValidatePhone(phone, options) == Valid(IndianNumber(n)) <==> Spells(Strip(phone), n)
  {
    CleanTrim(phone);
    var c := Clean(phone);
    CleanedIndian(c, n, options);
    if Spells(Strip(phone), n) {
      SpellingCleans(phone, n);
    }
    if ValidatePhone(phone, options) == Valid(IndianNumber(n)) {
      CleanNeverNinetyOne(phone);
      IndianOnly(c, n, options);
      if c == n {
        BareComesFromSpelling(phone, n);
      } else {
        PlusComesFromSpelling(phone, n);
      }
    }
  }

  lemma IndianOnly(c: string, n: string, options: Options)
    requires Mobile(n) && ValidateCleaned(c, options) == Valid(IndianNumber(n))
    requires !("91" <= c && Mobile(c[2..])) && !("0091" <= c)
    ensures c == n || c == "+91" + n
  {
    assert !IndianNumber(n).international;
    if "+91" <= c && Mobile(c[3..]) {
      assert c == "+91" + c[3..];
    }
  }

  lemma CleanMangled(n: string)
    requires Mobile(n) && Mangled(n)
    ensures Clean(Trim(n)) == "+91" + n[2..] && |n[2..]| == 8 && Digits(n[2..])
  {
    StripDigits(n);
    CleanTrim(n);
  }

  lemma MangledFails(n: string, options: Options)
    requires Mobile(n) && Mangled(n)
    ensures !ValidatePhone(n, options).Valid?
  {
    CleanMangled(n);
    MangledIsShort(n[2..]);
    MangledRejected("+91" + n[2..], n[2..], options);
  }

  /** A bare ten-digit mobile number is accepted unless it begins 916 to 919. */
  lemma BareMobile(n: string, options: Options)
    requires Mobile(n)
    ensures ValidatePhone(n, options).Valid? <==> !Mangled(n)
  {
    if Mangled(n) {
      MangledFails(n, options);
    } else {
      StripDigits(n);
      IndianExactly(n, n, options);
    }
  }

  lemma MangledRejected(c: string, rest: string, options: Options)
    requires |rest| == 8 && c == "+91" + rest && !ValidateInternational(c).Valid?
    ensures !ValidateCleaned(c, options).Valid?
  {
    assert c[3..] == rest;
    assert !ValidateIndian(c).Valid?;
  }

  lemma MangledIsShort(rest: string)
    requires |rest| == 8 && Digits(rest)
    ensures !ValidateInternational("+91" + rest).Valid?
  {
    StrNinetyOne();
    DecodeOfStr(91, rest);
    assert ("+91" + rest)[1..] == Str(91) + rest;
  }

  /** The E.164 form without its plus, where the validator puts the plus back. */
  predicate BareForm(c: string, n: Number) {
    "+" + c == n.normalized && |c| > 10 && !('6' <= c[0] <= '9')
  }

  lemma BareFormNotIndian(n: Number, c: string)
    requires WellFormed(n) && n.international && BareForm(c, n)
    ensures !ValidateIndian(c).Valid? && PhoneCharacters(c) && WithPlus(c) == n.normalized
  {
    PlusDigits(n);
    ParseOfStr(n.countryCode);
    assert n.normalized[1..] == c && c[0] == Str(n.countryCode)[0];
  }

  lemma CleanedAccepted(n: Number, c: string, options: Options)
    requires WellFormed(n) && n.international && options.allowInternational && !options.requireIndian
    requires c == n.normalized || BareForm(c, n)
    ensures ValidateCleaned(c, options) == Valid(n)
  {
    InternationalAccepted(n);
    PlusDigits(n);
    if c == n.normalized {
      NotIndian(n);
      CleanPlus(c);
    } else {
      BareFormNotIndian(n, c);
    }
  }

  lemma OnlyByCandidate(n: Number, c: string, options: Options)
    requires n.international && ValidateCleaned(c, options) == Valid(n)
    ensures options.allowInternational && !options.requireIndian && (c == n.normalized || BareForm(c, n))
  {
  }

  /** An input is read as a given international number exactly when international numbers
      are allowed and it cleans to the number's E.164 form, or to that form without the plus
      where it is longer than ten digits and does not begin like an Indian mobile. */
  lemma InternationalExactly(phone: string, n: Number, options: Options)
    requires WellFormed(n) && n.international && phone != []
    ensures ValidatePhone(phone, options) == Valid(n) <==>
              && options.allowInternational && !options.requireIndian
              && (Clean(phone) == n.normalized || BareForm(Clean(phone), n))
  {
    CleanTrim(phone);
    if ValidatePhone(phone, options) == Valid(n) {
      OnlyByCandidate(n, Clean(phone), options);
    } else if options.allowInternational && !options.requireIndian
              && (Clean(phone) == n.normalized || BareForm(Clean(phone), n)) {
      CleanedAccepted(n, Clean(phone), options);
    }
  }
}
