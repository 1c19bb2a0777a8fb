/** Naming of saved result files: the next file is numbered one past the largest number
    already used by a `<digits>.pkl` name in the directory listing, and written with at
    least two digits. Digits are the ASCII digits 0-9. */
module ResultFiles {

  const Extension: string := ".pkl"

  predicate IsDigit(c: char) {
    '0' <= c <= '9'
  }

  /** Python's `str.isdigit` on ASCII text: non-empty and made of digits only. */
  predicate IsDigits(s: string) {
    |s| > 0 && forall i :: 0 <= i < |s| ==> IsDigit(s[i])
  }

  predicate EndsWith(s: string, suffix: string) {
    |suffix| <= |s| && s[|s| - |suffix|..] == suffix
  }

  /** The text before the first '.', or the whole name when it has none
      (`name.split('.')[0]`). */
  function Stem(name: string): (stem: string)
    ensures stem <= name
    ensures '.' !in stem
    ensures |stem| < |name| ==> name[|stem|] == '.'
  {
    if name == [] || name[0] == '.' then [] else [name[0]] + Stem(name[1..])
  }

  /** The value of a string of decimal digits (`int(s)` for digit strings). */
  function DigitsValue(s: string): nat {
    if s == [] then 0
    else DigitsValue(s[..|s| - 1]) * 10 + DigitValue(s[|s| - 1])
  }

  function DigitValue(c: char): nat {
    if IsDigit(c) then (c - '0') as nat else 0
  }

  function DigitChar(d: nat): (c: char)
    requires d < 10
    ensures IsDigit(c) && DigitValue(c) == d
  {
    '0' + d as char
  }

  /** The decimal notation of `n`: digits only, no leading zero, and it reads back
      as `n`. */
  function Decimal(n: nat): (s: string)
    ensures IsDigits(s)
    ensures |s| > 1 ==> s[0] != '0'
    ensures DigitsValue(s) == n
  {
    if n < 10 then [DigitChar(n)]
    else
      var s := Decimal(n / 10) + [DigitChar(n % 10)];
      assert s[..|s| - 1] == Decimal(n / 10);
      s
  }

  /** `f"{n:02d}"`: the decimal notation padded with zeros on the left to two digits.
      It has at least two digits, a leading zero only when it has exactly two, and it
      reads back as `n`. */
  function PadTwo(n: nat): (s: string)
    ensures IsDigits(s) && |s| >= 2
    ensures |s| > 2 ==> s[0] != '0'
    ensures DigitsValue(s) == n
  {
    if n < 10 then
      var s := ['0', DigitChar(n)];
      assert s[..1] == ['0'] && ['0'][..0] == [];
      s
    else
      assert |Decimal(n)| >= 2 by {
        assert Decimal(n) == Decimal(n / 10) + [DigitChar(n % 10)];
      }
      Decimal(n)
  }

  /** A listed name contributes a number when it ends in ".pkl" and its stem is all
      digits. */
  predicate Contributes(name: string) {
    EndsWith(name, Extension) && IsDigits(Stem(name))
  }

  /** The numbers the listing already uses: exactly the values of the stems of the
      contributing names. */
  function ExistingNumbers(names: seq<string>): (ns: seq<nat>)
    ensures forall n :: n in ns <==>
              exists i :: 0 <= i < |names| && Contributes(names[i]) && DigitsValue(Stem(names[i])) == n
  {
    if names == [] then []
    else
      var rest := ExistingNumbers(names[1..]);
      assert forall i :: 1 <= i < |names| ==> names[i] == names[1..][i - 1];
      if Contributes(names[0]) then [DigitsValue(Stem(names[0]))] + rest else rest
  }

  /** `max(numbers, default=0)`. */
  function MaxOrZero(ns: seq<nat>): (m: nat)
    ensures forall i :: 0 <= i < |ns| ==> ns[i] <= m
    ensures m == 0 || m in ns
  {
    if ns == [] then 0
    else
      var m := MaxOrZero(ns[1..]);
      if ns[0] >= m then ns[0] else m
  }

  /** The number of the next result file: one past the largest number in use, or 1 when
      nothing is in use. It is beyond every contributed number, and one below it is
      either 0 or itself contributed. */
  function NextNumber(names: seq<string>): (next: nat)
    ensures next >= 1
    ensures forall i :: 0 <= i < |names| && Contributes(names[i]) ==>
              DigitsValue(Stem(names[i])) < next
    ensures next == 1 ||
            exists i :: 0 <= i < |names| && Contributes(names[i]) &&
                        DigitsValue(Stem(names[i])) == next - 1
    ensures (forall i :: 0 <= i < |names| ==> !Contributes(names[i])) ==> next == 1
  {
    var ns := ExistingNumbers(names);
    assert forall i :: 0 <= i < |names| && Contributes(names[i]) ==> DigitsValue(Stem(names[i])) in ns;
    MaxOrZero(ns) + 1
  }

  /** The stem of a digit string followed by ".pkl" is the digit string. */
  lemma {:induction false} StemOfDigitsName(d: string)
    requires IsDigits(d)
    ensures Stem(d + Extension) == d
  {
    if |d| > 1 {
      assert (d + Extension)[1..] == d[1..] + Extension;
      StemOfDigitsName(d[1..]);
    } else {
      assert (d + Extension)[1..] == Extension;
    }
  }

  /** The name of the next result file: the padded next number followed by ".pkl". It
      is itself a contributing name whose number is the next number, so it is not
      already in the listing, where it would have contributed a number that large. */
  function NextFileName(names: seq<string>): (name: string)
    ensures Contributes(name)
    ensures Stem(name) == PadTwo(NextNumber(names))
    ensures DigitsValue(Stem(name)) == NextNumber(names)
    ensures |name| == |Stem(name)| + |Extension|
    ensures name !in names
  {
    var d := PadTwo(NextNumber(names));
    StemOfDigitsName(d);
    assert (d + Extension)[|d + Extension| - |Extension|..] == Extension;
    d + Extension
  }
}
