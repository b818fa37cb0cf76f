/**
 * String operations the client and the backend apply to user input:
 * JavaScript's `String.prototype.trim`, the client's "drop one trailing slash",
 * Rust's `trim_end_matches('/')`, and the decimal form of an HTTP status code.
 */
module Text {

  /** The characters `trim` removes: ECMAScript WhiteSpace and LineTerminator. */
  predicate IsJsSpace(c: char) {
    || c == ' ' || c == '\t' || c == '\n' || c == '\r'
    || c == '\U{000B}' || c == '\U{000C}' || c == '\U{00A0}' || c == '\U{FEFF}'
    || c == '\U{1680}' || ('\U{2000}' <= c <= '\U{200A}')
    || c == '\U{2028}' || c == '\U{2029}' || c == '\U{202F}' || c == '\U{205F}' || c == '\U{3000}'
  }

  /** Drops leading whitespace. */
  function TrimStart(s: string): (r: string)
    ensures |r| <= |s|
  {
    if s != [] && IsJsSpace(s[0]) then TrimStart(s[1..]) else s
  }

  /** Drops trailing whitespace. */
  function TrimEnd(s: string): (r: string)
    ensures |r| <= |s|
  {
    if s != [] && IsJsSpace(s[|s| - 1]) then TrimEnd(s[..|s| - 1]) else s
  }

  /** `s.trim()`. Its meaning is stated by TrimSpec. */
  function Trim(s: string): (r: string)
    ensures |r| <= |s|
  {
    TrimEnd(TrimStart(s))
  }

  /** TrimStart keeps a suffix of `s` that does not start with whitespace, and drops only whitespace. */
  lemma {:induction false} TrimStartSpec(s: string)
    ensures var r := TrimStart(s);
            && r == s[|s| - |r|..]
            && (forall i :: 0 <= i < |s| - |r| ==> IsJsSpace(s[i]))
            && (r != [] ==> !IsJsSpace(r[0]))
  {
    if s != [] && IsJsSpace(s[0]) {
      TrimStartSpec(s[1..]);
    }
  }

  /** TrimEnd keeps a prefix of `s` that does not end with whitespace, and drops only whitespace. */
  lemma {:induction false} TrimEndSpec(s: string)
    ensures var r := TrimEnd(s);
            && r == s[..|r|]
            && (forall i :: |r| <= i < |s| ==> IsJsSpace(s[i]))
            && (r != [] ==> !IsJsSpace(r[|r| - 1]))
  {
    if s != [] && IsJsSpace(s[|s| - 1]) {
      TrimEndSpec(s[..|s| - 1]);
    }
  }

  /** `trim` gives the empty string exactly for whitespace-only input, otherwise a
      string that neither starts nor ends with whitespace, taken from the middle of `s`
      with only whitespace around it. */
  lemma TrimSpec(s: string)
    ensures var r := Trim(s);
            var k := |s| - |TrimStart(s)|;
            && (r == [] <==> forall i :: 0 <= i < |s| ==> IsJsSpace(s[i]))
            && (r != [] ==> !IsJsSpace(r[0]) && !IsJsSpace(r[|r| - 1]))
            && k + |r| <= |s| && r == s[k..k + |r|]
            && (forall i :: 0 <= i < k ==> IsJsSpace(s[i]))
            && (forall i :: k + |r| <= i < |s| ==> IsJsSpace(s[i]))
  {
    var t := TrimStart(s);
    var r := TrimEnd(t);
    var k := |s| - |t|;
    TrimStartSpec(s);
    TrimEndSpec(t);
    assert r == s[k..k + |r|] by {
      assert t == s[k..];
      assert r == t[..|r|];
      assert |r| <= |t|;
      forall i | 0 <= i < |r| ensures r[i] == s[k + i] {
        assert r[i] == t[i];
      }
    }
    assert forall i :: k + |r| <= i < |s| ==> IsJsSpace(s[i]) by {
      forall i | k + |r| <= i < |s| ensures IsJsSpace(s[i]) {
        assert s[i] == t[i - k];
      }
    }
    if r == [] {
      assert t == [];
    }
  }

  predicate EndsWithSlash(s: string) {
    |s| > 0 && s[|s| - 1] == '/'
  }

  /** `s.endsWith('/') ? s.slice(0, -1) : s`: removes at most one trailing slash. */
  function StripOneSlash(s: string): (r: string)
    ensures EndsWithSlash(s) ==> r + "/" == s
    ensures !EndsWithSlash(s) ==> r == s
  {
    if EndsWithSlash(s) then s[..|s| - 1] else s
  }

  /** Rust's `s.trim_end_matches('/')`: the longest prefix of `s` not ending in '/',
      where everything removed is '/'. */
  function TrimEndSlashes(s: string): (r: string)
    ensures |r| <= |s| && r == s[..|r|]
    ensures forall i :: |r| <= i < |s| ==> s[i] == '/'
    ensures !EndsWithSlash(r)
  {
    if EndsWithSlash(s) then TrimEndSlashes(s[..|s| - 1]) else s
  }

  /** The three properties in TrimEndSlashes's contract determine its result. */
  lemma TrimEndSlashesUnique(s: string, r: string)
    requires |r| <= |s| && r == s[..|r|]
    requires forall i :: |r| <= i < |s| ==> s[i] == '/'
    requires !EndsWithSlash(r)
    ensures r == TrimEndSlashes(s)
  {
    var t := TrimEndSlashes(s);
    if |r| != |t| {
      assert false;
    }
  }

  /** Removing all trailing slashes after removing one is removing all of them. */
  lemma TrimEndSlashesAfterStrip(s: string)
    ensures TrimEndSlashes(StripOneSlash(s)) == TrimEndSlashes(s)
  {
  }

  /** Removing all trailing slashes twice is removing them once. */
  lemma TrimEndSlashesIdempotent(s: string)
    ensures TrimEndSlashes(TrimEndSlashes(s)) == TrimEndSlashes(s)
  {
  }

  function DigitChar(d: nat): (c: char)
    requires d < 10
    ensures '0' <= c <= '9' && (c as int) - ('0' as int) == d
  {
    "0123456789"[d]
  }

  predicate AllDigits(s: string) {
    forall i :: 0 <= i < |s| ==> '0' <= s[i] <= '9'
  }

  /** The decimal digits of `n` without leading zeros, as Rust's `Display` for `u16` writes them. */
  function Decimal(n: nat): (s: string)
    ensures |s| >= 1 && AllDigits(s)
    ensures |s| > 1 ==> s[0] != '0'
  {
    if n < 10 then [DigitChar(n)] else Decimal(n / 10) + [DigitChar(n % 10)]
  }

  /** The number a string of decimal digits denotes. */
  function DecimalValue(s: string): nat
    requires AllDigits(s)
  {
    if s == [] then 0 else DecimalValue(s[..|s| - 1]) * 10 + ((s[|s| - 1] as int) - ('0' as int))
  }

  /** Decimal is inverted by DecimalValue: a status code can be read back from its text. */
  lemma {:induction false} DecimalRoundTrip(n: nat)
    ensures DecimalValue(Decimal(n)) == n
  {
    var s := Decimal(n);
    if n >= 10 {
      DecimalRoundTrip(n / 10);
      assert s[..|s| - 1] == Decimal(n / 10);
    }
  }
}
