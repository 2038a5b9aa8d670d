/**
  Shared vocabulary of the bot: optional values, the records the Roblox
  platform hands back, and the two pieces of JavaScript string behaviour the
  core relies on (lower-casing and decimal printing of integers).
 */
module Common {

  datatype Option<+T> = None | Some(value: T)

  /** A Roblox user id, as returned by the username lookup. */
  type UserId = int

  /** A Roblox group id as it appears in the configuration (a string there). */
  type GroupId = string

  /** What the rank lookup of one user in one group returns. */
  datatype RankInfo = RankInfo(name: string, rank: int)

  /** One entry of a group's role list: its role id, its name and its rank value. */
  datatype Role = Role(id: int, name: string, rank: int)

  /** JavaScript truthiness of a string: only the empty string is falsy. */
  predicate Truthy(s: string)
  {
    s != ""
  }

  /** JavaScript truthiness of an optional string (absent or empty is falsy). */
  predicate Present(s: Option<string>)
  {
    s.Some? && Truthy(s.value)
  }

  // ---------------------------------------------------------------------
  // Lower-casing (String.prototype.toLowerCase, restricted to the letters
  // listed in README.md)
  // ---------------------------------------------------------------------

  /** True for the upper-case letters whose lower-case form is modelled. */
  predicate IsUpper(c: char)
  {
    ('A' <= c <= 'Z')
    || ('À' <= c <= 'Þ' && c != '×')
    || c == 'Ğ' || c == 'Ş'
  }

  /** The lower-case letters that correspond to IsUpper. */
  predicate IsLower(c: char)
  {
    ('a' <= c <= 'z')
    || ('à' <= c <= 'þ' && c != '÷')
    || c == 'ğ' || c == 'ş'
  }

  /** The upper-case form of one character (toUpperCase on the same letters); every other character is kept. */
  function UpperChar(c: char): (r: char)
    ensures IsLower(c) ==> IsUpper(r)
    ensures !IsLower(c) ==> r == c
  {
    if 'a' <= c <= 'z' then (c as int - 32) as char
    else if 'à' <= c <= 'þ' && c != '÷' then (c as int - 32) as char
    else if c == 'ğ' || c == 'ş' then (c as int - 1) as char
    else c
  }

  /**
    The lower-case form of one character; every other character is kept.
    Upper-casing undoes it, so each upper-case letter maps to its own
    lower-case partner.
   */
  function LowerChar(c: char): (r: char)
    ensures IsUpper(c) ==> IsLower(r) && UpperChar(r) == c
    ensures !IsUpper(c) ==> r == c
  {
    if 'A' <= c <= 'Z' then (c as int + 32) as char
    else if 'À' <= c <= 'Þ' && c != '×' then (c as int + 32) as char
    else if c == 'Ğ' || c == 'Ş' then (c as int + 1) as char
    else c
  }

  /** The lower-case form of a string, character by character. */
  function ToLower(s: string): (r: string)
    ensures |r| == |s|
    ensures forall i :: 0 <= i < |s| ==> !IsUpper(r[i])
    ensures forall i :: 0 <= i < |s| && !IsUpper(s[i]) ==> r[i] == s[i]
    ensures forall i :: 0 <= i < |s| && IsUpper(s[i]) ==> IsLower(r[i]) && UpperChar(r[i]) == s[i]
  {
    seq(|s|, i requires 0 <= i < |s| => LowerChar(s[i]))
  }

  /** The upper-case form of a string, character by character. */
  function ToUpper(s: string): (r: string)
    ensures |r| == |s|
    ensures forall i :: 0 <= i < |s| ==> !IsLower(r[i])
    ensures forall i :: 0 <= i < |s| && !IsLower(s[i]) ==> r[i] == s[i]
  {
    seq(|s|, i requires 0 <= i < |s| => UpperChar(s[i]))
  }

  /** Case-insensitive names agree whichever case the user typed: lower-casing ignores a prior upper-casing. */
  lemma ToLowerOfToUpper(s: string)
    ensures ToLower(ToUpper(s)) == ToLower(s)
  {
    forall i | 0 <= i < |s| ensures ToLower(ToUpper(s))[i] == ToLower(s)[i] {
      var c := s[i];
      if IsLower(c) {
        assert LowerChar(UpperChar(c)) == c;
        assert LowerChar(c) == c;
      }
    }
  }

  /** Lower-casing a lower-case string changes nothing. */
  lemma ToLowerIdempotent(s: string)
    ensures ToLower(ToLower(s)) == ToLower(s)
  {
  }

  /** The comparison `a.toLowerCase() === b.toLowerCase()`. */
  predicate SameNameIgnoringCase(a: string, b: string)
  {
    ToLower(a) == ToLower(b)
  }

  // ---------------------------------------------------------------------
  // Decimal printing of integers (template literals and String(n))
  // ---------------------------------------------------------------------

  predicate IsDigit(c: char)
  {
    '0' <= c <= '9'
  }

  function DigitChar(d: nat): (c: char)
    requires d < 10
    ensures IsDigit(c)
  {
    (48 + d) as char
  }

  function DigitValue(c: char): (d: nat)
    requires IsDigit(c)
    ensures d < 10 && DigitChar(d) == c
  {
    c as int - 48
  }

  /** The decimal digits of a natural number, without leading zeros. */
  function NatToString(n: nat): (s: string)
    ensures |s| >= 1
    ensures forall i :: 0 <= i < |s| ==> IsDigit(s[i])
    decreases n
  {
    if n < 10 then [DigitChar(n)] else NatToString(n / 10) + [DigitChar(n % 10)]
  }

  /** The decimal form of an integer, with a leading '-' when negative. */
  function IntToString(n: int): (s: string)
    ensures |s| >= 1
    ensures s[0] == '-' <==> n < 0
    ensures n >= 0 ==> IsDigit(s[0])
    ensures forall i :: 1 <= i < |s| ==> IsDigit(s[i])
  {
    if n >= 0 then NatToString(n) else "-" + NatToString(-n)
  }

  /** The value of a non-empty run of decimal digits, most significant first. */
  function DigitsValue(ds: string): nat
    requires forall i :: 0 <= i < |ds| ==> IsDigit(ds[i])
    decreases |ds|
  {
    if ds == [] then 0
    else DigitsValue(ds[..|ds| - 1]) * 10 + DigitValue(ds[|ds| - 1])
  }

  /** Reading back the digits NatToString prints gives the number. */
  lemma {:induction false} NatToStringValue(n: nat)
    ensures DigitsValue(NatToString(n)) == n
    decreases n
  {
    var s := NatToString(n);
    if n >= 10 {
      NatToStringValue(n / 10);
      assert s[..|s| - 1] == NatToString(n / 10);
    }
  }
}
