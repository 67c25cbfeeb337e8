/** Small shared vocabulary: options, decoded YAML values, and the library
    routines the program calls but does not define. */
module Prelude {
  datatype Option<+T> = None | Some(value: T)

  /** A decoded YAML value, as far as the program tells values apart. Floats,
      booleans, lists and maps with non-string keys are all `Other`. */
  datatype Yaml = Null | Str(s: string) | Num(n: int) | Map(m: map<string, Yaml>) | Other

  /** Unicode, URL, address and form-encoding routines. Every theorem holds for
      any choice of them; the few laws needed are stated where they are used. */
  datatype Lib = Lib(
    isLetter: char -> bool,                                  // \p{L}
    isLower: char -> bool,                                   // \p{Ll}
    lower: string -> string,                                 // strings.ToLower
    upper: string -> string,                                 // strings.ToUpper
    equalFold: (string, string) -> bool,                     // strings.EqualFold
    nocase: string -> string,                                // key of collate nocase
    validURL: string -> bool,                                // url.Parse gives http(s) and a host
    address: string -> Option<string>,                       // mail.ParseAddress, rendered
    encodeForm: map<string, seq<string>> -> string,          // url.Values.Encode
    parseForm: string -> Option<map<string, seq<string>>>)   // url.ParseQuery

  /** url.Values with one value per key. */
  function Singles(m: map<string, string>): map<string, seq<string>> {
    map k | k in m :: [m[k]]
  }

  predicate IsDigit(c: char) {
    '0' <= c <= '9'
  }

  function DigitChar(d: nat): (c: char)
    requires d < 10
    ensures IsDigit(c)
  {
    (d + '0' as int) as char
  }

  /** strconv.Itoa on a non-negative number. */
  function Itoa(n: nat): (s: string)
    ensures s != "" && forall c :: c in s ==> IsDigit(c)
  {
    if n < 10 then [DigitChar(n)] else Itoa(n / 10) + [DigitChar(n % 10)]
  }

  function ItoaInt(n: int): string {
    if n < 0 then "-" + Itoa(-n) else Itoa(n)
  }

  lemma {:induction false} ItoaInjective(a: nat, b: nat)
    requires Itoa(a) == Itoa(b)
    ensures a == b
  {
    var s, t := Itoa(a), Itoa(b);
    assert DigitChar(a % 10) == s[|s| - 1] == t[|t| - 1] == DigitChar(b % 10);
    if a >= 10 && b >= 10 {
      assert Itoa(a / 10) == s[..|s| - 1] == t[..|t| - 1] == Itoa(b / 10);
      ItoaInjective(a / 10, b / 10);
    }
  }

  /** The number a string of digits denotes. */
  function DigitsValue(s: string): int {
    if s == "" then 0 else 10 * DigitsValue(s[..|s| - 1]) + (s[|s| - 1] as int - '0' as int)
  }

  /** `text` is `n` in decimal: a minus sign if it is negative, and its digits
      without leading zeros. */
  predicate Decimal(text: string, n: int) {
    var digits := if n < 0 && text != "" then text[1..] else text;
    && (n < 0 ==> text != "" && text[0] == '-')
    && digits != "" && (forall c :: c in digits ==> '0' <= c <= '9')
    && (|digits| > 1 ==> digits[0] != '0')
    && DigitsValue(digits) == if n < 0 then -n else n
  }

  lemma {:induction false} ItoaDigits(n: nat)
    ensures DigitsValue(Itoa(n)) == n && (n > 0 ==> Itoa(n)[0] != '0') && (|Itoa(n)| > 1 ==> n >= 10)
  {
    if n < 10 {
      assert Itoa(n)[..0] == "";
    } else {
      ItoaDigits(n / 10);
      assert Itoa(n)[..|Itoa(n)| - 1] == Itoa(n / 10);
    }
  }

  lemma ItoaDecimal(n: int)
    ensures Decimal(ItoaInt(n), n)
  {
    ItoaDigits(if n < 0 then -n else n);
    if n < 0 {
      assert ItoaInt(n)[1..] == Itoa(-n);
    }
  }

  /** No two positions of `s` hold the same value. */
  ghost predicate Distinct<T>(s: seq<T>) {
    forall i, j :: 0 <= i < j < |s| ==> s[i] != s[j]
  }

  function Elems<T>(s: seq<T>): (r: set<T>) {
    set x | x in s
  }

  lemma SomeLeft<T>(keys: set<T>, done: set<T>)
    requires done <= keys && done != keys
    ensures exists k :: k in keys - done
  {
    assert exists k :: k in keys && k !in done;
    var k :| k in keys && k !in done;
    assert k in keys - done;
  }

  lemma ElemsAppend<T>(a: seq<T>, b: seq<T>)
    ensures Elems(a + b) == Elems(a) + Elems(b)
  {
  }

  lemma SplitLast<T>(s: seq<T>)
    requires s != []
    ensures s == s[..|s| - 1] + [s[|s| - 1]]
  {
  }

  lemma SubsetSize<T>(a: set<T>, b: set<T>)
    requires a <= b
    ensures |a| <= |b|
  {
    if a != {} {
      var x :| x in a;
      SubsetSize(a - {x}, b - {x});
    }
  }

  ghost predicate Assigned(slugToId: map<string, int>, id: int) {
    exists s :: s in slugToId && slugToId[s] == id
  }

  /** `order` visits every key once: what one `range` over a Go map may do. */
  ghost predicate IsOrder<T>(order: seq<T>, keys: set<T>) {
    Distinct(order) && Elems(order) == keys
  }
}
