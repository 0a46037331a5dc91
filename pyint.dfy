/** Python's conversions between `int` and decimal text: `int(s)` for a
    string `s` (base 10) and `str(n)` / f-string formatting of an `int`. */
module PyInt {
  import opened Wrappers

  /** The characters `int()` skips around a number: among ASCII only tab,
      line feed, vertical tab, form feed, carriage return and space (the
      separators 28-31 are not skipped, although `str.isspace()` holds for
      them), and beyond ASCII the characters Python classes as white space,
      which `int()` first turns into spaces. */
  predicate IsIntSpace(c: char) {
    var n := c as int;
    (9 <= n <= 13) || n == 32 || n == 0x85 || n == 0xA0 || n == 0x1680
    || (0x2000 <= n <= 0x200A) || n == 0x2028 || n == 0x2029 || n == 0x202F
    || n == 0x205F || n == 0x3000
  }

  predicate IsDigit(c: char) {
    '0' <= c <= '9'
  }

  function TrimStart(s: string): (r: string)
    ensures |r| <= |s| && r == s[|s| - |r|..]
    ensures r != [] ==> !IsIntSpace(r[0])
    ensures forall i :: 0 <= i < |s| - |r| ==> IsIntSpace(s[i])
  {
    if s != [] && IsIntSpace(s[0]) then TrimStart(s[1..]) else s
  }

  function TrimEnd(s: string): (r: string)
    ensures |r| <= |s| && r == s[..|r|]
    ensures r != [] ==> !IsIntSpace(r[|r| - 1])
    ensures forall i :: |r| <= i < |s| ==> IsIntSpace(s[i])
  {
    if s != [] && IsIntSpace(s[|s| - 1]) then TrimEnd(s[..|s| - 1]) else s
  }

  /** `s` without the leading and trailing white space `int()` skips. */
  function Trim(s: string): string {
    TrimEnd(TrimStart(s))
  }

  /** The digit part of a base-10 literal: ASCII digits, where a single
      underscore may separate two digits. */
  predicate WellFormedDigits(d: string) {
    && |d| > 0
    && IsDigit(d[0])
    && IsDigit(d[|d| - 1])
    && (forall i :: 0 <= i < |d| ==> IsDigit(d[i]) || d[i] == '_')
    && (forall i :: 0 <= i < |d| - 1 && d[i] == '_' ==> d[i + 1] != '_')
  }

  /** The number a run of digits denotes, underscores ignored. */
  function DigitsValue(d: string): nat {
    if d == [] then 0
    else
      var c := d[|d| - 1];
      if IsDigit(c) then 10 * DigitsValue(d[..|d| - 1]) + (c as int - '0' as int)
      else DigitsValue(d[..|d| - 1])
  }

  /** `int(s)` for a string: `None` where Python raises ValueError. */
  function ParseInt(s: string): (r: Option<int>)
    ensures r.Some? ==> Trim(s) != []
  {
    var t := Trim(s);
    if t == [] then None
    else if t[0] == '+' || t[0] == '-' then
      var d := t[1..];
      if !WellFormedDigits(d) then None
      else
        Some(if t[0] == '-' then -(DigitsValue(d) as int) else DigitsValue(d))
    else if WellFormedDigits(t) then
      Some(DigitsValue(t))
    else None
  }

  /** Decimal digits of a natural number, most significant first. */
  function ShowNat(n: nat): (r: string)
    ensures |r| > 0
    ensures forall i :: 0 <= i < |r| ==> IsDigit(r[i])
  {
    var d := ['0' + (n % 10) as char];
    if n < 10 then d else ShowNat(n / 10) + d
  }

  /** `str(n)` for an `int`, as an f-string prints it. */
  function Show(n: int): (r: string)
    ensures |r| > 0 && IsDigit(r[|r| - 1])
    ensures r[0] == '-' <==> n < 0
  {
    if n < 0 then "-" + ShowNat(-n) else ShowNat(n)
  }

  lemma {:induction false} ShowNatDenotes(n: nat)
    ensures WellFormedDigits(ShowNat(n))
    ensures DigitsValue(ShowNat(n)) == n
  {
    var d := ['0' + (n % 10) as char];
    if n >= 10 {
      ShowNatDenotes(n / 10);
      var p := ShowNat(n / 10);
      assert (p + d)[..|p + d| - 1] == p;
      assert forall i :: 0 <= i < |p| ==> (p + d)[i] == p[i];
    }
  }

  /** Nothing `Show` prints is white space at either end, so `Trim` keeps it. */
  lemma TrimShow(n: int)
    ensures Trim(Show(n)) == Show(n)
  {
  }

  /** Reading back what `str(n)` prints gives `n`: `int(str(n)) == n`. */
  lemma ParseShow(n: int)
    ensures ParseInt(Show(n)) == Some(n)
  {
    TrimShow(n);
    var s := Show(n);
    if n < 0 {
      ShowNatDenotes(-n);
      assert s[1..] == ShowNat(-n);
    } else {
      ShowNatDenotes(n);
    }
  }

  /** A string of nothing but white space is not a number: `int("  ")`
      raises ValueError. */
  lemma ParseRejectsBlank(s: string)
    requires forall i :: 0 <= i < |s| ==> IsIntSpace(s[i])
    ensures ParseInt(s) == None
  {
  }

  /** The information separator U+001C is not white space to `int()`:
      `int("\x1c5")` raises ValueError. */
  lemma SeparatorIsNotSkipped()
    ensures ParseInt("\U{1C}5") == None
  {
    var s := "\U{1C}5";
    assert !IsIntSpace(s[0]) && !IsIntSpace(s[1]);
    assert TrimStart(s) == s;
    assert TrimEnd(s) == s;
    assert !WellFormedDigits(s);
  }

  /** A leading space is skipped: `int(" 5")` reads 5. */
  lemma LeadingSpaceIsSkipped()
    ensures ParseInt(" 5") == Some(5)
  {
    var s := " 5";
    assert s[1..] == "5";
    assert TrimStart(s) == TrimStart("5") == "5";
    assert TrimEnd("5") == "5";
    assert "5"[..0] == [];
    assert DigitsValue("5") == 5;
  }
}
