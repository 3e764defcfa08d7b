/** Python text helpers: `str.strip`, lower-casing, and decimal rendering. */
module Text {

  /** The characters `str.strip()` removes. */
  predicate IsSpace(c: char) {
    var n := c as int;
    || 0x09 <= n <= 0x0D || 0x1C <= n <= 0x20 || n == 0x85 || n == 0xA0 || n == 0x1680
    || 0x2000 <= n <= 0x200A || n == 0x2028 || n == 0x2029 || n == 0x202F || n == 0x205F
    || n == 0x3000
  }

  /** `not value.strip()` */
  predicate Blank(s: string) {
    forall c :: c in s ==> IsSpace(c)
  }

  // ---------------------------------------------------------------- lower case and separators

  predicate IsUpper(c: char) {
    'A' <= c <= 'Z'
  }

  predicate IsLower(c: char) {
    'a' <= c <= 'z'
  }

  function LowerChar(c: char): char {
    if IsUpper(c) then (c as int + 32) as char else c
  }

  /** `s.lower()` on ASCII letters. */
  function Lower(s: string): string {
    seq(|s|, i requires 0 <= i < |s| => LowerChar(s[i]))
  }

  /** No letter of `s` is in lower case. */
  predicate NoLowerCase(s: string) {
    forall c :: c in s ==> !IsLower(c)
  }

  /** Without lower-case letters, lower-casing loses nothing. */
  lemma LowerIsInjective(s: string, t: string)
    requires NoLowerCase(s) && NoLowerCase(t) && Lower(s) == Lower(t)
    ensures s == t
  {
    assert |s| == |Lower(s)| == |Lower(t)| == |t|;
    forall i | 0 <= i < |s| ensures s[i] == t[i] {
      assert Lower(s)[i] == Lower(t)[i] && s[i] in s && t[i] in t;
    }
  }

  predicate StartsWithSeparator(s: string) {
    |s| >= 2 && s[0] == '_' && s[1] == '_'
  }

  /** `s.split("__")` */
  function Split(s: string): (parts: seq<string>)
    ensures |parts| >= 1
  {
    if s == [] then [s]
    else if StartsWithSeparator(s) then [""] + Split(s[2..])
    else
      var rest := Split(s[1..]);
      [[s[0]] + rest[0]] + rest[1..]
  }

  /** `"__".join(parts)` */
  function Join(parts: seq<string>): string {
    if parts == [] then ""
    else if |parts| == 1 then parts[0]
    else parts[0] + "__" + Join(parts[1..])
  }

  lemma JoinOne(part: string)
    ensures Join([part]) == part
  {
  }

  lemma JoinFirst(c: char, parts: seq<string>)
    requires parts != []
    ensures Join([[c] + parts[0]] + parts[1..]) == [c] + Join(parts)
  {
    assert ([[c] + parts[0]] + parts[1..])[1..] == parts[1..];
  }

  lemma JoinEmpty(more: seq<string>)
    requires more != []
    ensures Join([""] + more) == "__" + Join(more)
  {
    JoinOne("");
    JoinExtends([""], more);
    assert "" + "__" + Join(more) == "__" + Join(more);
  }

  lemma {:induction false} JoinUndoesSplit(s: string)
    ensures Join(Split(s)) == s
  {
    hide Join;
    if s == [] {
      JoinOne("");
    } else if StartsWithSeparator(s) {
      JoinUndoesSplit(s[2..]);
      JoinEmpty(Split(s[2..]));
      assert s == "__" + s[2..];
    } else {
      JoinUndoesSplit(s[1..]);
      JoinFirst(s[0], Split(s[1..]));
      assert s == [s[0]] + s[1..];
    }
  }

  /** Joining more parts continues the text. */
  lemma {:induction false} JoinExtends(parts: seq<string>, more: seq<string>)
    requires parts != [] && more != []
    ensures Join(parts + more) == Join(parts) + "__" + Join(more)
  {
    assert (parts + more)[0] == parts[0] && (parts + more)[1..] == parts[1..] + more;
    if |parts| == 1 {
      assert (parts + more)[1..] == more;
    } else {
      JoinExtends(parts[1..], more);
    }
  }

  // ---------------------------------------------------------------- decimal rendering

  /** `str(n)` */
  function Decimal(n: nat): string {
    if n < 10 then ["0123456789"[n]] else Decimal(n / 10) + ["0123456789"[n % 10]]
  }

  /** `f"{n:04d}"` */
  function Padded(n: nat): string {
    var s := Decimal(n);
    if |s| >= 4 then s else seq(4 - |s|, _ => '0') + s
  }

  function DigitValue(c: char): int {
    c as int - '0' as int
  }

  function ValueOf(s: string): int {
    if s == [] then 0 else 10 * ValueOf(s[..|s| - 1]) + DigitValue(s[|s| - 1])
  }

  lemma DigitRoundTrip(n: nat)
    requires n < 10
    ensures DigitValue("0123456789"[n]) == n
  {
  }

  lemma {:induction false} DecimalRoundTrip(n: nat)
    ensures ValueOf(Decimal(n)) == n
  {
    hide DigitValue;
    DigitRoundTrip(n % 10);
    if n >= 10 {
      DecimalRoundTrip(n / 10);
      assert Decimal(n)[..|Decimal(n)| - 1] == Decimal(n / 10);
    }
  }

  lemma {:induction false} LeadingZeros(k: nat, s: string)
    ensures ValueOf(seq(k, _ => '0') + s) == ValueOf(s)
    decreases k + |s|
  {
    var zeros: string := seq(k, _ => '0');
    if s != [] {
      assert (zeros + s)[..|zeros + s| - 1] == zeros + s[..|s| - 1];
      LeadingZeros(k, s[..|s| - 1]);
    } else if k > 0 {
      assert zeros + s == zeros;
      assert zeros[..k - 1] == seq(k - 1, _ => '0') + s;
      LeadingZeros(k - 1, s);
    }
  }

  lemma PaddedValue(n: nat)
    ensures ValueOf(Padded(n)) == n
  {
    hide ValueOf, Decimal;
    DecimalRoundTrip(n);
    if |Decimal(n)| < 4 { LeadingZeros(4 - |Decimal(n)|, Decimal(n)); }
  }

  /** Padded numerals name their numbers. */
  lemma PaddedIsInjective(m: nat, n: nat)
    requires Padded(m) == Padded(n)
    ensures m == n
  {
    hide Padded, ValueOf;
    PaddedValue(m);
    PaddedValue(n);
  }
}
