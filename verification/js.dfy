/**
 * The slice of JavaScript semantics the admin pages rely on: scalar values as
 * they arrive in API responses, truthiness (what `if (x)` and `x || y` test),
 * and the conversion of a value into an object property key (what a lookup
 * such as `planNumberToName[user.plan]` actually searches for).
 */
module Js {

  datatype Option<+T> = None | Some(value: T)

  /** The settled result of one awaited request: its payload, or a rejection. */
  datatype Outcome<+T> = Success(value: T) | Failure

  /** A scalar JSON value. Numbers are integers in this model. */
  datatype Value = Undefined | Null | Bool(b: bool) | Num(n: int) | Str(s: string)

  /** Everything except undefined, null, false, 0 and "" is truthy. */
  predicate Truthy(v: Value) {
    match v
    case Undefined => false
    case Null => false
    case Bool(b) => b
    case Num(n) => n != 0
    case Str(s) => s != ""
  }

  /** `a || b`: the first operand when it is truthy, otherwise the second. */
  function Or(a: Value, b: Value): (r: Value)
    ensures Truthy(r) <==> Truthy(a) || Truthy(b)
    ensures Truthy(a) ==> r == a
    ensures !Truthy(a) ==> r == b
  {
    if Truthy(a) then a else b
  }

  /** An optional field read with optional chaining: a missing record reads as undefined. */
  function OrUndefined(v: Option<Value>): (r: Value)
    ensures v.None? ==> r == Undefined
    ensures v.Some? ==> r == v.value
  {
    match v
    case None => Undefined
    case Some(x) => x
  }

  // ---------------------------------------------------------------------------
  // Number to string, as `String(n)` prints an integer.
  // ---------------------------------------------------------------------------

  predicate IsDigit(c: char) {
    '0' <= c <= '9'
  }

  function DigitChar(d: nat): (c: char)
    requires d < 10
    ensures IsDigit(c)
    ensures c as int - '0' as int == d
  {
    (('0' as int) + d) as char
  }

  /** Decimal digits of `n`, most significant first, without leading zeros. */
  function NatToString(n: nat): (s: string)
    ensures |s| >= 1
    ensures forall i :: 0 <= i < |s| ==> IsDigit(s[i])
    decreases n
  {
    if n < 10 then [DigitChar(n)] else NatToString(n / 10) + [DigitChar(n % 10)]
  }

  /** The number a string of decimal digits denotes; the reference for `NatToString`. */
  function DecimalValue(s: string): nat
    requires forall i :: 0 <= i < |s| ==> IsDigit(s[i])
    decreases |s|
  {
    if |s| == 0 then 0
    else
      assert IsDigit(s[|s| - 1]);
      DecimalValue(s[..|s| - 1]) * 10 + (s[|s| - 1] as int - '0' as int)
  }

  /** Printing a number and reading it back gives the number: printing is injective. */
  lemma {:induction false} NatToStringRoundTrip(n: nat)
    ensures DecimalValue(NatToString(n)) == n
    decreases n
  {
    if n >= 10 {
      var prefix := NatToString(n / 10);
      var s := NatToString(n);
      assert s == prefix + [DigitChar(n % 10)];
      assert s[..|s| - 1] == prefix;
      NatToStringRoundTrip(n / 10);
    }
  }

  function IntToString(i: int): (s: string)
    ensures |s| >= 1
    ensures i < 0 <==> s[0] == '-'
    ensures forall k :: 0 < k < |s| ==> IsDigit(s[k])
  {
    if i < 0 then "-" + NatToString(-i) else NatToString(i)
  }

  /** The string a value becomes when used as an object property key. */
  function PropertyKey(v: Value): string {
    match v
    case Undefined => "undefined"
    case Null => "null"
    case Bool(b) => if b then "true" else "false"
    case Num(n) => IntToString(n)
    case Str(s) => s
  }

  /** A number is found under a one-digit key exactly when it is that digit. */
  lemma NumKeyIsDigit(n: int, c: char)
    requires IsDigit(c)
    ensures PropertyKey(Num(n)) == [c] <==> n == c as int - '0' as int
  {
    var k := PropertyKey(Num(n));
    if k == [c] {
      assert n >= 0;
      NatToStringRoundTrip(n);
      assert DecimalValue([c]) == c as int - '0' as int by {
        assert [c][..0] == [];
      }
    }
    if n == c as int - '0' as int {
      assert n < 10;
    }
  }

  /** Keys that only a string can produce: some letter, and not a spelled-out literal. */
  predicate OnlyStringKey(k: string) {
    && (exists i :: 0 <= i < |k| && 'a' <= k[i] <= 'z')
    && k !in {"undefined", "null", "true", "false"}
  }

  lemma StringOnlyKey(v: Value, k: string)
    requires OnlyStringKey(k)
    ensures PropertyKey(v) == k <==> v == Str(k)
  {
  }

  /** `table[key]` on an object literal whose keys are the keys of `table`. */
  function Lookup<T>(table: map<string, T>, key: Value): (r: Option<T>)
    ensures r.Some? <==> PropertyKey(key) in table
    ensures r.Some? ==> r.value == table[PropertyKey(key)]
  {
    var k := PropertyKey(key);
    if k in table then Some(table[k]) else None
  }
}
