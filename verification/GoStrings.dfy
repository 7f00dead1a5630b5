// The text functions of the Go library that the CPU-list codecs, the sync
// protocol and the unit names are built on: strings.TrimSpace, strings.Split,
// strings.Index, strings.HasPrefix, strconv.Itoa and strconv.Atoi.
//
// A string is a sequence of Unicode characters.
module GoStrings {

  datatype Option<+T> = None | Some(value: T)

  datatype Result<+T, +E> = Ok(value: T) | Err(error: E)

  // ---------- White space ----------

  // unicode.IsSpace
  predicate IsSpace(c: char) {
    || '\t' <= c <= '\r' || c == ' '
    || c == '\U{0085}' || c == '\U{00A0}' || c == '\U{1680}'
    || '\U{2000}' <= c <= '\U{200A}'
    || c == '\U{2028}' || c == '\U{2029}' || c == '\U{202F}'
    || c == '\U{205F}' || c == '\U{3000}'
  }

  function TrimLeft(s: string): string {
    if s != [] && IsSpace(s[0]) then TrimLeft(s[1..]) else s
  }

  function TrimRight(s: string): string {
    if s != [] && IsSpace(s[|s| - 1]) then TrimRight(s[..|s| - 1]) else s
  }

  // strings.TrimSpace
  function TrimSpace(s: string): string {
    TrimRight(TrimLeft(s))
  }

  predicate NoSpace(s: string) {
    forall c <- s :: !IsSpace(c)
  }

  lemma TrimSpaceNoSpace(s: string)
    requires NoSpace(s)
    ensures TrimSpace(s) == s
  {
  }

  // White space in front does not change the trimmed text...
  lemma TrimSpaceFront(c: char, s: string)
    requires IsSpace(c)
    ensures TrimSpace([c] + s) == TrimSpace(s)
  {
    assert ([c] + s)[1..] == s;
  }

  lemma {:induction false} TrimLeftBack(s: string, c: char)
    requires IsSpace(c)
    ensures TrimLeft(s + [c]) == if TrimLeft(s) == [] then [] else TrimLeft(s) + [c]
  {
    if s == [] {
      assert s + [c] == [c];
      assert TrimLeft([c]) == TrimLeft([c][1..]);
    } else if IsSpace(s[0]) {
      assert (s + [c])[1..] == s[1..] + [c];
      TrimLeftBack(s[1..], c);
    } else {
      assert (s + [c])[0] == s[0];
    }
  }

  // ... and neither does white space at the end.
  lemma TrimSpaceBack(s: string, c: char)
    requires IsSpace(c)
    ensures TrimSpace(s + [c]) == TrimSpace(s)
  {
    TrimLeftBack(s, c);
    var t := TrimLeft(s);
    if t != [] {
      assert (t + [c])[..|t + [c]| - 1] == t;
    }
  }

  // ---------- Splitting ----------

  // strings.Split with a separator of one character
  function Split(s: string, sep: char): (parts: seq<string>)
    ensures parts != []
  {
    if s == [] then
      [[]]
    else if s[0] == sep then
      [[]] + Split(s[1..], sep)
    else
      var rest := Split(s[1..], sep);
      [[s[0]] + rest[0]] + rest[1..]
  }

  lemma {:induction false} SplitConcat(s: string, t: string, sep: char)
    ensures Split(s + [sep] + t, sep) == Split(s, sep) + Split(t, sep)
  {
    if s == [] {
      assert (s + [sep] + t)[1..] == t;
    } else {
      assert (s + [sep] + t)[1..] == s[1..] + [sep] + t;
      SplitConcat(s[1..], t, sep);
    }
  }

  lemma {:induction false} SplitNoSep(s: string, sep: char)
    requires sep !in s
    ensures Split(s, sep) == [s]
  {
    if s != [] {
      SplitNoSep(s[1..], sep);
      assert [s[0]] + s[1..] == s;
    }
  }

  lemma {:induction false} SplitBack(s: string, c: char, sep: char)
    requires c != sep
    ensures var parts := Split(s, sep);
            Split(s + [c], sep) == parts[..|parts| - 1] + [parts[|parts| - 1] + [c]]
  {
    if s == [] {
      var whole := s + [c];
      assert whole == [c] && whole[1..] == s;
      assert Split(whole, sep) == [[c] + Split(s, sep)[0]];
      assert [c] + Split(s, sep)[0] == Split(s, sep)[0] + [c];
    } else {
      assert (s + [c])[1..] == s[1..] + [c];
      SplitBack(s[1..], c, sep);
      var rest := Split(s[1..], sep);
      if s[0] != sep {
        if |rest| == 1 {
          assert [s[0]] + (rest[0] + [c]) == ([s[0]] + rest[0]) + [c];
        } else {
          assert Split(s, sep)[..|rest| - 1] == [[s[0]] + rest[0]] + rest[1..|rest| - 1];
        }
      }
    }
  }

  // strings.Index for one character: the first position, or -1
  function Index(s: string, c: char): (i: int)
    ensures -1 <= i < |s|
    ensures i >= 0 ==> s[i] == c && c !in s[..i]
    ensures i == -1 <==> c !in s
  {
    if s == [] then
      -1
    else if s[0] == c then
      0
    else
      var i := Index(s[1..], c);
      assert s == [s[0]] + s[1..];
      assert i >= 0 ==> s[..i + 1] == [s[0]] + s[1..][..i];
      if i < 0 then -1 else i + 1
  }

  lemma {:induction false} IndexIs(s: string, c: char, k: nat)
    requires k < |s| && s[k] == c && c !in s[..k]
    ensures Index(s, c) == k
  {
    if k > 0 {
      assert s[..k][0] == s[0];
      assert s[1..][..k - 1] == s[..k][1..];
      IndexIs(s[1..], c, k - 1);
    }
  }

  predicate HasPrefix(s: string, p: string) {
    p <= s
  }

  predicate HasSuffix(s: string, p: string) {
    |p| <= |s| && s[|s| - |p|..] == p
  }

  function TrimPrefix(s: string, p: string): string {
    if p <= s then s[|p|..] else s
  }

  function TrimSuffix(s: string, p: string): string {
    if HasSuffix(s, p) then s[..|s| - |p|] else s
  }

  // ---------- Decimal numbers ----------

  // The largest and smallest values of Go's int on a 64-bit host.
  const MAX_INT: int := 0x7FFF_FFFF_FFFF_FFFF
  const MIN_INT: int := -0x8000_0000_0000_0000

  predicate IsDigit(c: char) {
    '0' <= c <= '9'
  }

  predicate AllDigits(s: string) {
    forall c <- s :: IsDigit(c)
  }

  function DigitsOf(n: nat): (s: string)
    ensures s != [] && AllDigits(s)
  {
    var last := ['0' + (n % 10) as char];
    if n < 10 then last else DigitsOf(n / 10) + last
  }

  function ValueOf(s: string): nat
    requires AllDigits(s)
  {
    if s == [] then 0
    else
      assert IsDigit(s[|s| - 1]);
      10 * ValueOf(s[..|s| - 1]) + (s[|s| - 1] as int - '0' as int)
  }

  // strconv.Itoa, and the %d verb
  function Itoa(n: int): string {
    if n < 0 then "-" + DigitsOf(-n) else DigitsOf(n)
  }

  // strconv.Atoi: an optional sign, then one or more digits; None is the
  // syntax error or the range error.
  function Atoi(s: string): Option<int> {
    var signed := s != [] && (s[0] == '-' || s[0] == '+');
    var digits := if signed then s[1..] else s;
    if digits == [] || !AllDigits(digits) then
      None
    else
      var n: int := ValueOf(digits);
      var v := if signed && s[0] == '-' then -n else n;
      if MIN_INT <= v <= MAX_INT then Some(v) else None
  }

  lemma {:induction false} ValueOfDigits(n: nat)
    ensures ValueOf(DigitsOf(n)) == n
  {
    if n >= 10 {
      ValueOfDigits(n / 10);
      var s := DigitsOf(n);
      assert s[..|s| - 1] == DigitsOf(n / 10);
    } else {
      assert DigitsOf(n)[..0] == [];
    }
  }

  lemma AtoiItoa(n: int)
    requires MIN_INT <= n <= MAX_INT
    ensures Atoi(Itoa(n)) == Some(n)
  {
    var digits := DigitsOf(if n < 0 then -n else n);
    ValueOfDigits(if n < 0 then -n else n);
    if n < 0 {
      assert Itoa(n)[1..] == digits;
    } else {
      assert IsDigit(digits[0]);
    }
  }

  lemma AllDigitsPlain(s: string)
    requires AllDigits(s)
    ensures NoSpace(s) && ',' !in s && '-' !in s
  {
  }

  lemma DigitsInjective(m: nat, n: nat)
    requires DigitsOf(m) == DigitsOf(n)
    ensures m == n
  {
    ValueOfDigits(m);
    ValueOfDigits(n);
  }

  // Numbers print and parse in base ten, and Atoi refuses exactly what does
  // not fit 64 bits.
  lemma AtoiItoaIff(n: int)
    ensures Atoi(Itoa(n)) == if -9223372036854775808 <= n <= 9223372036854775807 then Some(n) else None
  {
    var digits := DigitsOf(if n < 0 then -n else n);
    ValueOfDigits(if n < 0 then -n else n);
    if n < 0 {
      assert Itoa(n)[1..] == digits;
    } else {
      assert IsDigit(digits[0]);
    }
  }

  lemma DecimalDigit(d: nat)
    requires d < 10
    ensures Itoa(d) == ["0123456789"[d]]
  {
  }

  lemma DecimalShift(n: nat, d: nat)
    requires n > 0 && d < 10
    ensures Itoa(10 * n + d) == Itoa(n) + Itoa(d)
  {
    assert (10 * n + d) / 10 == n && (10 * n + d) % 10 == d;
  }

  lemma SignedAtoi(n: int)
    requires 0 <= n <= 9223372036854775807
    ensures Atoi("+" + Itoa(n)) == Some(n) && Atoi("-" + Itoa(n)) == Some(-n)
  {
    ValueOfDigits(n);
    assert ("+" + Itoa(n))[1..] == Itoa(n) && ("-" + Itoa(n))[1..] == Itoa(n);
  }
}
