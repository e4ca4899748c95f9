/**
 * The cargo entry panel (src/components/CargoInput.tsx): the typed text is
 * read with `parseInt`, a failed parse counts as 0, the number is clamped
 * at 0 and written into one rarity slot, and the new record is handed to the
 * `onCargoChange` callback. The "-" and "+" buttons feed the current count
 * minus or plus one, printed as text, through the same handler.
 */
module CargoInput {
  import opened Wrappers
  import opened Types

  // ---------------------------------------------------------------------
  // Decimal text
  // ---------------------------------------------------------------------

  predicate IsDigit(c: char) {
    '0' <= c <= '9'
  }

  predicate AllDigits(s: string) {
    forall i :: 0 <= i < |s| ==> IsDigit(s[i])
  }

  function DigitValue(c: char): (d: nat)
    requires IsDigit(c)
    ensures d < 10
  {
    (c as int) - ('0' as int)
  }

  function DigitChar(d: nat): (c: char)
    requires d < 10
    ensures IsDigit(c) && DigitValue(c) == d
  {
    (('0' as int) + d) as char
  }

  /** The longest prefix of `s` that consists of decimal digits. */
  function DigitPrefix(s: string): (p: string)
    ensures p <= s && AllDigits(p)
    ensures |p| < |s| ==> !IsDigit(s[|p|])
  {
    if s == [] || !IsDigit(s[0]) then []
    else [s[0]] + DigitPrefix(s[1..])
  }

  /** The number a digit string denotes, most significant digit first. */
  function DigitsValue(d: string): nat
    requires AllDigits(d)
    decreases |d|
  {
    if d == [] then 0
    else DigitsValue(d[..|d| - 1]) * 10 + DigitValue(d[|d| - 1])
  }

  /** A sign character that `parseInt` accepts in front of the digits. */
  predicate HasSign(s: string) {
    |s| > 0 && (s[0] == '-' || s[0] == '+')
  }

  /** The text after an optional leading sign. */
  function Unsigned(s: string): string {
    if HasSign(s) then s[1..] else s
  }

  /**
   * `parseInt`, reduced to an optional sign followed by the longest run of
   * digits; `None` stands for NaN, the result when no digit follows the sign.
   */
  function ParseInt(s: string): (r: Option<int>)
    ensures r.None? <==> DigitPrefix(Unsigned(s)) == []
    ensures r.Some? && !(|s| > 0 && s[0] == '-') ==> 0 <= r.value
  {
    var digits := DigitPrefix(Unsigned(s));
    if digits == [] then None
    else
      var magnitude: int := DigitsValue(digits);
      Some(if |s| > 0 && s[0] == '-' then -magnitude else magnitude)
  }

  /** `parseInt(value) || 0`: NaN (and 0) become 0. */
  function NumValue(value: string): (n: int)
    ensures ParseInt(value).None? ==> n == 0
    ensures ParseInt(value).Some? ==> n == ParseInt(value).value
  {
    match ParseInt(value)
    case None => 0
    case Some(v) => v
  }

  /** `Math.max(0, n)`. */
  function Clamp(n: int): (c: nat)
    ensures c == n || (c == 0 && n < 0)
  {
    if n < 0 then 0 else n
  }

  /** The decimal text of a natural number, without leading zeros. */
  function NatToString(n: nat): (s: string)
    ensures |s| > 0 && AllDigits(s)
    ensures |s| > 1 ==> s[0] != '0'
    decreases n
  {
    if n < 10 then [DigitChar(n)]
    else NatToString(n / 10) + [DigitChar(n % 10)]
  }

  /** `n.toString()` for an integer value: a '-' exactly for a negative n, then the digits of its magnitude. */
  function IntToString(n: int): (s: string)
    ensures |s| > 0 && (s[0] == '-' <==> n < 0)
    ensures AllDigits(if n < 0 then s[1..] else s)
  {
    if n < 0 then "-" + NatToString(-n) else NatToString(n)
  }

  lemma DigitsValueOfAppend(s: string, c: char)
    requires AllDigits(s) && IsDigit(c)
    ensures AllDigits(s + [c]) && DigitsValue(s + [c]) == DigitsValue(s) * 10 + DigitValue(c)
  {
    assert (s + [c])[..|s|] == s;
  }

  lemma {:induction false} DigitsValueOfNatToString(n: nat)
    ensures DigitsValue(NatToString(n)) == n
    decreases n
  {
    if n >= 10 {
      DigitsValueOfNatToString(n / 10);
      DigitsValueOfAppend(NatToString(n / 10), DigitChar(n % 10));
    }
  }

  lemma {:induction false} DigitPrefixOfDigits(s: string)
    requires AllDigits(s)
    ensures DigitPrefix(s) == s
    decreases |s|
  {
    if s != [] {
      DigitPrefixOfDigits(s[1..]);
      assert s == [s[0]] + s[1..];
    }
  }

  /** Reading back the printed form of any integer gives that integer: the buttons' round trip. */
  lemma ParseIntOfIntToString(n: int)
    ensures ParseInt(IntToString(n)) == Some(n)
  {
    var m: nat := if n < 0 then -n else n;
    var digits := NatToString(m);
    DigitPrefixOfDigits(digits);
    DigitsValueOfNatToString(m);
    if n < 0 {
      assert IntToString(n)[1..] == digits;
    } else {
      assert !HasSign(IntToString(n));
    }
  }

  /** `parseInt(n.toString()) || 0` is n: the handler reads back every printed count. */
  lemma NumValueOfIntToString(n: int)
    ensures NumValue(IntToString(n)) == n
  {
    ParseIntOfIntToString(n);
  }

  /** Text with no digits after the optional sign parses to nothing. */
  lemma ParseIntExamples()
    ensures ParseInt("") == None && ParseInt("abc") == None && ParseInt("-") == None
    ensures ParseInt("12abc") == Some(12) && ParseInt("-7") == Some(-7) && ParseInt("+3") == Some(3)
  {
    assert DigitPrefix("") == [];
    assert DigitPrefix("abc") == [];
    assert DigitPrefix("12abc") == "12" && DigitsValue("12") == 12 by {
      assert "12abc"[1..] == "2abc";
      assert DigitPrefix("2abc") == "2";
      assert "12"[..1] == "1";
    }
    assert "-7"[1..] == "7" && DigitPrefix("7") == "7";
    assert "+3"[1..] == "3" && DigitPrefix("3") == "3";
  }

  // ---------------------------------------------------------------------
  // The change handler
  // ---------------------------------------------------------------------

  /**
   * The record `handleChange` builds: a copy of `cargo` whose `rarity` slot
   * holds the clamped number read from `value`.
   */
  function UpdatedCargo(cargo: Manifest, rarity: CargoRarity, value: string): (r: Manifest)
    ensures r.Keys == cargo.Keys + {rarity}
    ensures forall q :: q in cargo && q != rarity ==> r[q] == cargo[q]
    ensures 0 <= r[rarity]
    ensures ParseInt(value).None? ==> r[rarity] == 0
    ensures ParseInt(value).Some? ==> r[rarity] == Clamp(ParseInt(value).value)
  {
    cargo[rarity := Clamp(NumValue(value))]
  }

  /** Feeding a printed integer through the handler stores that integer, clamped at 0. */
  lemma UpdatedCargoOfPrintedCount(cargo: Manifest, rarity: CargoRarity, k: int)
    ensures UpdatedCargo(cargo, rarity, IntToString(k)) == cargo[rarity := Clamp(k)]
  {
    ParseIntOfIntToString(k);
  }

  /** The "-" button on an empty slot leaves it at 0. */
  lemma MinusAtZeroStaysZero(cargo: Manifest, rarity: CargoRarity)
    requires rarity in cargo && cargo[rarity] == 0
    ensures UpdatedCargo(cargo, rarity, IntToString(cargo[rarity] - 1)) == cargo
  {
    UpdatedCargoOfPrintedCount(cargo, rarity, -1);
  }

  /** The "+" button raises a slot by exactly one. */
  lemma PlusAddsOne(cargo: Manifest, rarity: CargoRarity)
    requires rarity in cargo && 0 <= cargo[rarity]
    ensures UpdatedCargo(cargo, rarity, IntToString(cargo[rarity] + 1)) == cargo[rarity := cargo[rarity] + 1]
  {
    UpdatedCargoOfPrintedCount(cargo, rarity, cargo[rarity] + 1);
  }

  /**
   * Either button on a slot the record lacks prints `(undefined ± 1)`, which
   * is "NaN"; nothing parses from it, so the handler stores 0.
   */
  lemma ButtonOnMissingSlotStoresZero(cargo: Manifest, rarity: CargoRarity)
    requires rarity !in cargo
    ensures UpdatedCargo(cargo, rarity, "NaN") == cargo[rarity := 0]
  {
    assert ParseInt("NaN").None?;
  }

  /** The panel's local `cargo` state. */
  class CargoInputState {
    var cargo: Manifest

    /** Every rarity has a slot: the buttons read the current count of each. */
    ghost predicate Valid()
      reads this
    {
      Complete(cargo)
    }

    /** `useState(initialValues)`. */
    constructor (initialValues: Manifest)
      requires Complete(initialValues)
      ensures Valid() && cargo == initialValues
    {
      cargo := initialValues;
    }

    /**
     * `handleChange`: the one slot is rewritten, the others are kept, and the
     * value passed to `onCargoChange` (returned here) is the new state itself.
     */
    method HandleChange(rarity: CargoRarity, value: string) returns (reported: Manifest)
      requires Valid()
      modifies this
      ensures Valid()
      ensures cargo == UpdatedCargo(old(cargo), rarity, value)
      ensures reported == cargo
    {
      var numValue := NumValue(value);
      var newCargo := cargo[rarity := Clamp(numValue)];
      cargo := newCargo;
      reported := newCargo;
    }

    /** The "-" button: the count minus one, printed and fed to the handler. */
    method Decrement(rarity: CargoRarity) returns (reported: Manifest)
      requires Valid()
      modifies this
      ensures Valid()
      ensures cargo == old(cargo)[rarity := Clamp(old(cargo)[rarity] - 1)]
      ensures reported == cargo
    {
      UpdatedCargoOfPrintedCount(cargo, rarity, cargo[rarity] - 1);
      reported := HandleChange(rarity, IntToString(cargo[rarity] - 1));
    }

    /** The "+" button: the count plus one, printed and fed to the handler. */
    method Increment(rarity: CargoRarity) returns (reported: Manifest)
      requires Valid()
      modifies this
      ensures Valid()
      ensures cargo == old(cargo)[rarity := Clamp(old(cargo)[rarity] + 1)]
      ensures 0 <= old(cargo)[rarity] ==> cargo[rarity] == old(cargo)[rarity] + 1
      ensures reported == cargo
    {
      UpdatedCargoOfPrintedCount(cargo, rarity, cargo[rarity] + 1);
      reported := HandleChange(rarity, IntToString(cargo[rarity] + 1));
    }
  }
}
