/** The handful of Python string operations the modelled code relies on: `strip`, `lstrip`,
    `rstrip`, `rfind` over a prefix, and `lower`, plus the shared `Option` type. */
module PyText {

  datatype Option<+T> = None | Some(value: T)

  /** `str.isspace` for one character, the set `str.strip` removes. */
  predicate IsSpace(c: char) {
    || '\t' <= c <= '\r'
    || '\U{1C}' <= c <= ' '
    || c == '\U{85}' || c == '\U{A0}' || c == '\U{1680}'
    || '\U{2000}' <= c <= '\U{200A}'
    || c == '\U{2028}' || c == '\U{2029}' || c == '\U{202F}' || c == '\U{205F}' || c == '\U{3000}'
  }

  /** The first position from `i` on that is not whitespace, or `|s|`. */
  function SkipSpace(s: string, i: nat): (r: nat)
    requires i <= |s|
    ensures i <= r <= |s|
    ensures forall k :: i <= k < r ==> IsSpace(s[k])
    ensures r < |s| ==> !IsSpace(s[r])
    decreases |s| - i
  {
    if i < |s| && IsSpace(s[i]) then SkipSpace(s, i + 1) else i
  }

  /** The end of `s[..n]` once trailing whitespace is dropped. */
  function DropSpace(s: string, n: nat): (r: nat)
    requires n <= |s|
    ensures r <= n
    ensures forall k :: r <= k < n ==> IsSpace(s[k])
    ensures r > 0 ==> !IsSpace(s[r - 1])
  {
    if n > 0 && IsSpace(s[n - 1]) then DropSpace(s, n - 1) else n
  }

  function LStrip(s: string): string {
    s[SkipSpace(s, 0)..]
  }

  function RStrip(s: string): string {
    s[..DropSpace(s, |s|)]
  }

  function Strip(s: string): (r: string)
    ensures Trimmed(r)
  {
    var left, right := SkipSpace(s, 0), DropSpace(s, |s|);
    if left < right then s[left..right] else []
  }

  /** No whitespace at either end. */
  predicate Trimmed(s: string) {
    s != [] ==> !IsSpace(s[0]) && !IsSpace(s[|s| - 1])
  }

  lemma StripOfTrimmed(s: string)
    ensures Trimmed(s) <==> Strip(s) == s
  {
  }

  /** `s.rfind(c, 0, end)` for a one-character needle: the last position below `end`, or -1. */
  function RFind(s: string, c: char, end: nat): (i: int)
    requires end <= |s|
    ensures -1 <= i < end
    ensures i >= 0 ==> s[i] == c
    ensures forall k :: i < k < end ==> s[k] != c
  {
    if end == 0 then -1
    else if s[end - 1] == c then end - 1
    else RFind(s, c, end - 1)
  }

  /** `str.lower` for one character, exact wherever the result contains an ASCII character.
      Other characters stand for their own (non-ASCII) lower-case form. */
  function LowerChar(c: char): (r: string)
    ensures IsSpace(c) ==> r == [c]
  {
    if 'A' <= c <= 'Z' then [((c as int) + 32) as char]
    else if c == '\U{130}' then "i\U{307}"
    else if c == '\U{212A}' then "k"
    else [c]
  }

  function Lower(s: string): string {
    if s == [] then [] else LowerChar(s[0]) + Lower(s[1..])
  }

  /** `str.upper` for one character, exact wherever the result is all ASCII. */
  function UpperChar(c: char): string {
    if 'a' <= c <= 'z' then [((c as int) - 32) as char]
    else if c == '\U{DF}' then "SS"
    else if c == '\U{131}' then "I"
    else if c == '\U{17F}' then "S"
    else if c == '\U{FB00}' then "FF"
    else if c == '\U{FB01}' then "FI"
    else if c == '\U{FB02}' then "FL"
    else if c == '\U{FB03}' then "FFI"
    else if c == '\U{FB04}' then "FFL"
    else if c == '\U{FB05}' || c == '\U{FB06}' then "ST"
    else [c]
  }

  function Upper(s: string): string {
    if s == [] then [] else UpperChar(s[0]) + Upper(s[1..])
  }

  lemma {:induction false} LowerConcat(a: string, b: string)
    ensures Lower(a + b) == Lower(a) + Lower(b)
  {
    hide LowerChar;
    if a == [] {
      assert a + b == b;
    } else {
      LowerConcat(a[1..], b);
      assert (a + b)[1..] == a[1..] + b;
      assert Lower(a + b) == LowerChar(a[0]) + (Lower(a[1..]) + Lower(b));
    }
  }

  /** Decimal rendering of a count, as in an f-string. */
  function Decimal(n: nat): (r: string)
    ensures r != []
  {
    var digit := [(('0' as int) + n % 10) as char];
    if n < 10 then digit else Decimal(n / 10) + digit
  }

  predicate IsLetter(c: char) {
    'A' <= c <= 'Z' || 'a' <= c <= 'z'
  }

  lemma StripOfWord(s: string)
    requires s != "" && IsLetter(s[0]) && IsLetter(s[|s| - 1])
    ensures Strip(s) == s
  {
    assert Trimmed(s);
    StripOfTrimmed(s);
    hide Strip;
  }

  lemma {:induction false} UpperOfCapitals(s: string)
    requires forall i | 0 <= i < |s| :: 'A' <= s[i] <= 'Z'
    ensures Upper(s) == s
  {
    if s != [] {
      UpperOfCapitals(s[1..]);
      assert s == [s[0]] + s[1..];
    }
  }

  lemma {:induction false} LowerOfSmall(s: string)
    requires forall i | 0 <= i < |s| :: 'a' <= s[i] <= 'z'
    ensures Lower(s) == s
  {
    if s != [] {
      LowerOfSmall(s[1..]);
      assert s == [s[0]] + s[1..];
    }
  }
}
