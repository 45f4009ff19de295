/**
 * The JavaScript values the grid stores in cells, with the conversions the
 * components apply to them (`String(v)`, `typeof`, truthiness, `??`).
 */
module JsValues {
  import opened Wrappers

  /**
   * A cell value. Numbers are modelled as integers. An object is known by its
   * identity `ref`, and carries the two texts JavaScript derives from it:
   * `JSON.stringify(obj)` and `String(obj)`. Two values compare equal exactly
   * when `===` holds, so two distinct objects with the same content differ.
   */
  datatype Value =
    | Null
    | Undefined
    | Str(s: string)
    | Num(n: int)
    | Bool(b: bool)
    | Obj(ref: nat, json: string, text: string)

  /** `v === null || v === undefined` */
  predicate IsNullish(v: Value) {
    v.Null? || v.Undefined?
  }

  /** `typeof v === 'object'`, which is also true of `null`. */
  predicate TypeofObject(v: Value) {
    v.Null? || v.Obj?
  }

  /** Truthiness of a `string | undefined`: the empty string is falsy. */
  predicate TruthyString(o: Option<string>) {
    o.Some? && o.value != ""
  }

  function DigitChar(d: nat): (c: char)
    requires d < 10
    ensures '0' <= c <= '9'
  {
    "0123456789"[d]
  }

  /** Decimal digits of a natural number, most significant first. */
  function NatString(n: nat): (r: string)
    ensures |r| > 0
    ensures forall i :: 0 <= i < |r| ==> '0' <= r[i] <= '9'
    ensures n < 10 <==> |r| == 1
    decreases n
  {
    if n < 10 then [DigitChar(n)] else NatString(n / 10) + [DigitChar(n % 10)]
  }

  /** `n.toString()` for an integral number. */
  function NumberString(n: int): (r: string)
    ensures |r| > 0
    ensures r[0] == '-' <==> n < 0
    ensures forall i :: 0 < i < |r| ==> '0' <= r[i] <= '9'
  {
    if n < 0 then "-" + NatString(-n) else NatString(n)
  }

  predicate AllDigits(s: string) {
    forall i :: 0 <= i < |s| ==> '0' <= s[i] <= '9'
  }

  /** The number a decimal digit text denotes, most significant digit first. */
  function DigitsValue(s: string): nat
    requires AllDigits(s)
    decreases |s|
  {
    if s == [] then 0 else DigitsValue(s[..|s| - 1]) * 10 + (s[|s| - 1] as int - '0' as int)
  }

  /** An integer numeral: an optional `-`, then at least one decimal digit. */
  predicate IsNumeral(r: string) {
    var d := if |r| > 0 && r[0] == '-' then r[1..] else r;
    |d| > 0 && AllDigits(d)
  }

  /** The integer an integer numeral denotes. */
  function NumeralValue(r: string): int
    requires IsNumeral(r)
  {
    if r[0] == '-' then -(DigitsValue(r[1..]) as int) else DigitsValue(r)
  }

  lemma {:induction false} NatStringValue(n: nat)
    ensures AllDigits(NatString(n)) && DigitsValue(NatString(n)) == n
    ensures NatString(n)[0] == '0' ==> n == 0
    decreases n
  {
    var r := NatString(n);
    if n < 10 {
      assert r == [DigitChar(n)];
      assert r[..0] == [];
      assert "0123456789"[n] as int - '0' as int == n;
    } else {
      NatStringValue(n / 10);
      assert r[..|r| - 1] == NatString(n / 10);
      assert "0123456789"[n % 10] as int - '0' as int == n % 10;
      assert r[0] == NatString(n / 10)[0];
    }
  }

  /**
   * `n.toString()` reads back as `n`, and is the canonical numeral: no leading zero
   * unless it is "0", and no "-0".
   */
  lemma NumberStringValue(n: int)
    ensures IsNumeral(NumberString(n)) && NumeralValue(NumberString(n)) == n
    ensures var r := NumberString(n); var d := if r[0] == '-' then r[1..] else r; d[0] == '0' ==> r == "0"
  {
    var r := NumberString(n);
    if n < 0 {
      NatStringValue(-n);
      assert r[1..] == NatString(-n);
    } else {
      NatStringValue(n);
      assert r[0] != '-';
    }
  }

  /** Distinct integers have distinct texts. */
  lemma NumberStringInjective(m: int, n: int)
    ensures NumberString(m) == NumberString(n) ==> m == n
  {
    NumberStringValue(m);
    NumberStringValue(n);
  }

  /** `String(v)`, also what `v + s` and `v.toString()` use for a non-nullish `v`. */
  function JsString(v: Value): string {
    match v
    case Null => "null"
    case Undefined => "undefined"
    case Str(s) => s
    case Num(n) => NumberString(n)
    case Bool(b) => if b then "true" else "false"
    case Obj(_, _, text) => text
  }

  /** A `string | undefined` as a JavaScript value. */
  function OfOptional(o: Option<string>): (v: Value)
    ensures v.Undefined? <==> o.None?
    ensures o.Some? ==> v == Str(o.value)
  {
    match o
    case None => Undefined
    case Some(s) => Str(s)
  }

  /** `v?.toString()`: absent for nullish values, the text otherwise. */
  function OptionalText(v: Value): (r: Option<string>)
    ensures r.None? <==> IsNullish(v)
    ensures r.Some? ==> r.value == JsString(v)
  {
    if IsNullish(v) then None else Some(JsString(v))
  }

  /** The parts of a DOM `KeyboardEvent` the handlers read. */
  datatype KeyEvent = KeyEvent(key: string, code: string, metaKey: bool, shiftKey: bool)
}
