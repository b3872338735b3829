/**
 * The JavaScript string operations the store and the forms rely on:
 * lower-casing, `includes`, `trim`-blankness, UTF-16 length, `path.extname`,
 * and the number/string conversions behind `String(n)` and loose `==`.
 */
module Text {
  import opened Common

  /** `toLowerCase` on one character; only the ASCII letters A-Z are mapped. */
  function LowerChar(c: char): char {
    if 'A' <= c <= 'Z' then (c as int + 32) as char else c
  }

  function ToLower(s: string): string {
    seq(|s|, i requires 0 <= i < |s| => LowerChar(s[i]))
  }

  /** `needle` occurs in `hay` starting at index `i`. */
  ghost predicate OccursAt(hay: string, needle: string, i: int) {
    0 <= i && i + |needle| <= |hay| && hay[i..i + |needle|] == needle
  }

  /** `hay.includes(needle)`, computed by trying each start position in turn. */
  function Contains(hay: string, needle: string): bool
    decreases |hay|
  {
    needle <= hay || (|hay| > 0 && Contains(hay[1..], needle))
  }

  /** `includes` holds exactly when the needle occurs at some index. */
  lemma {:induction false} ContainsIffOccurs(hay: string, needle: string)
    ensures Contains(hay, needle) <==> exists i :: OccursAt(hay, needle, i)
    decreases |hay|
  {
    assert OccursAt(hay, needle, 0) <==> needle <= hay;
    if |hay| > 0 && !(needle <= hay) {
      ContainsIffOccurs(hay[1..], needle);
      if Contains(hay[1..], needle) {
        var i :| OccursAt(hay[1..], needle, i);
        assert hay[1..][i..i + |needle|] == hay[i + 1..i + 1 + |needle|];
        assert OccursAt(hay, needle, i + 1);
      }
      forall i | OccursAt(hay, needle, i) && i > 0 ensures Contains(hay[1..], needle) {
        assert hay[1..][i - 1..i - 1 + |needle|] == hay[i..i + |needle|];
        assert OccursAt(hay[1..], needle, i - 1);
      }
    }
  }

  /** JavaScript WhiteSpace and LineTerminator code points: what `trim` removes. */
  predicate IsJsWhitespace(c: char) {
    c == '\t' || c == '\n' || c == '\U{B}' || c == '\U{C}' || c == '\r' || c == ' '
    || c == '\U{A0}' || c == '\U{1680}' || ('\U{2000}' <= c <= '\U{200A}')
    || c == '\U{2028}' || c == '\U{2029}' || c == '\U{202F}' || c == '\U{205F}'
    || c == '\U{3000}' || c == '\U{FEFF}'
  }

  /** `!s.trim()`: nothing is left once leading and trailing white space is removed. */
  predicate IsBlank(s: string) {
    forall i :: 0 <= i < |s| ==> IsJsWhitespace(s[i])
  }

  /** `s.length`: JavaScript counts UTF-16 code units, two for a code point above U+FFFF. */
  function Utf16Length(s: string): (n: nat)
    ensures |s| <= n <= 2 * |s|
    ensures n == 0 <==> s == ""
  {
    if s == [] then 0 else (if s[0] as int > 0xFFFF then 2 else 1) + Utf16Length(s[1..])
  }

  predicate IsDigit(c: char) {
    '0' <= c <= '9'
  }

  /** `/^[0-9]{10}$/.test(s)`: exactly ten ASCII digits and nothing else. */
  predicate IsTenDigits(s: string) {
    |s| == 10 && forall i :: 0 <= i < |s| ==> IsDigit(s[i])
  }

  /** Index of the last occurrence of `c`, if any. */
  function LastIndexOf(s: string, c: char): (r: Option<nat>)
    ensures r.None? ==> c !in s
    ensures r.Some? ==> r.value < |s| && s[r.value] == c && c !in s[r.value + 1..]
  {
    if s == [] then None
    else if s[|s| - 1] == c then Some(|s| - 1)
    else LastIndexOf(s[..|s| - 1], c)
  }

  /** The last path component: everything after the last '/'. */
  function BaseName(path: string): string {
    match LastIndexOf(path, '/')
    case None => path
    case Some(k) => path[k + 1..]
  }

  /** The last component holds no '/' and is a suffix of the path. */
  lemma BaseNameFacts(path: string)
    ensures var b := BaseName(path);
      '/' !in b && |b| <= |path| && b == path[|path| - |b|..]
  {
  }

  /**
   * `path.extname(name)` for a name that does not end in '/': the last
   * component from its last '.' onwards, except that a component whose only
   * dot is its first character (".png") and the component ".." have none.
   */
  function Extname(name: string): (ext: string)
    ensures ext != "" ==> ext[0] == '.' && '.' !in ext[1..] && '/' !in ext
    ensures |ext| <= |name|
    ensures ext == name[|name| - |ext|..]
  {
    BaseNameFacts(name);
    var base := BaseName(name);
    match LastIndexOf(base, '.')
    case None => ""
    case Some(d) =>
      if d == 0 || base == ".." then "" else
        ExtensionIsSuffix(name, base, d);
        base[d..]
  }

  /** The tail of the last component from its last dot is a dot-led suffix of the name. */
  lemma ExtensionIsSuffix(name: string, base: string, d: nat)
    requires |base| <= |name| && base == name[|name| - |base|..] && '/' !in base
    requires d < |base| && base[d] == '.' && '.' !in base[d + 1..]
    ensures var ext := base[d..];
      ext[0] == '.' && '.' !in ext[1..] && '/' !in ext
      && |ext| <= |name| && ext == name[|name| - |ext|..]
  {
    var ext := base[d..];
    assert ext[1..] == base[d + 1..];
    assert ext == name[|name| - |ext|..];
  }

  /**
   * A dot after the first character of the last component (other than
   * "..") gives a non-empty extension, which starts at that dot or at a
   * later one; with the contract of `Extname` this fixes the extension as
   * the component from its last dot on.
   */
  lemma DotGivesExtension(name: string, i: nat)
    requires var base := BaseName(name); 0 < i < |base| && base[i] == '.' && base != ".."
    ensures Extname(name) != ""
    ensures |Extname(name)| <= |BaseName(name)| - i
  {
    var base := BaseName(name);
    var d := LastIndexOf(base, '.');
    assert d.Some?;
  }

  lemma {:induction false} NoDotNoExtension(name: string)
    requires '.' !in name
    ensures Extname(name) == ""
  {
    BaseNameFacts(name);
    var base := BaseName(name);
    assert '.' !in base by {
      forall i | 0 <= i < |base| ensures base[i] != '.' {
        assert base[i] == name[|name| - |base| + i];
      }
    }
  }

  function DigitChar(d: int): char
    requires 0 <= d < 10
  {
    ('0' as int + d) as char
  }

  function DigitValue(c: char): int
    requires IsDigit(c)
  {
    c as int - '0' as int
  }

  /** Decimal digits of a natural number, most significant first, no leading zeros. */
  function NatDigits(n: nat): (s: string)
    ensures s != [] && forall i :: 0 <= i < |s| ==> IsDigit(s[i])
    ensures n > 0 ==> s[0] != '0'
  {
    if n < 10 then [DigitChar(n)] else NatDigits(n / 10) + [DigitChar(n % 10)]
  }

  /** `String(n)` for an integer of modest size. */
  function DecimalString(n: int): string {
    if n < 0 then "-" + NatDigits(-n) else NatDigits(n)
  }

  /** `String(id)`: the text of a numeric id, or the id itself when it is a string. */
  function IdString(id: Id): string {
    match id
    case Num(n) => DecimalString(n)
    case Text(s) => s
  }

  /** The value of a string of decimal digits, read left to right. */
  function DigitsValue(s: string): nat
    requires forall i :: 0 <= i < |s| ==> IsDigit(s[i])
  {
    if s == [] then 0 else DigitsValue(s[..|s| - 1]) * 10 + DigitValue(s[|s| - 1])
  }

  predicate AllDigits(s: string) {
    forall i :: 0 <= i < |s| ==> IsDigit(s[i])
  }

  /** A string JavaScript's `Number` reads as an integer: an optional '-' and one or more digits. */
  function ParseInteger(s: string): Option<int> {
    if s != [] && s[0] == '-' then
      (if |s| > 1 && AllDigits(s[1..]) then Some(0 - DigitsValue(s[1..]) as int) else None)
    else if s != [] && AllDigits(s) then Some(DigitsValue(s))
    else None
  }

  lemma {:induction false} NatDigitsRoundTrip(n: nat)
    ensures DigitsValue(NatDigits(n)) == n
  {
    if n >= 10 {
      NatDigitsRoundTrip(n / 10);
      var s := NatDigits(n);
      assert s[..|s| - 1] == NatDigits(n / 10);
    }
  }

  /** Reading back the text of an integer gives the integer. */
  lemma DecimalStringRoundTrip(n: int)
    ensures ParseInteger(DecimalString(n)) == Some(n)
  {
    var s := DecimalString(n);
    if n < 0 {
      var t := NatDigits(-n);
      NatDigitsRoundTrip(-n);
      assert s == "-" + t;
      assert s[0] == '-' && s[1..] == t && AllDigits(t);
    } else {
      NatDigitsRoundTrip(n);
      assert IsDigit(s[0]) && AllDigits(s);
    }
  }

  /**
   * Loose equality `id == param` between a stored id and a query-string
   * parameter: a string id compares as a string, a numeric id equals the
   * parameter when the parameter reads as that number.
   */
  predicate LooseEquals(id: Id, param: string) {
    match id
    case Text(s) => s == param
    case Num(n) => ParseInteger(param) == Some(n)
  }

  /** A numeric id loosely equals its own decimal text. */
  lemma LooseEqualsOwnText(id: Id)
    ensures LooseEquals(id, IdString(id))
  {
    if id.Num? {
      DecimalStringRoundTrip(id.n);
    }
  }
}
