/** Values and text helpers shared by every part of the model. */
module Common {

  datatype Option<+T> = None | Some(value: T) {
    function GetOr(default: T): T {
      match this
      case Some(v) => v
      case None => default
    }
  }

  /** A JSON-like value. The completion envelope of a child run or an external task is a value too. */
  datatype Value =
    | Undefined
    | Json(text: string)
    | CompletionOk(value: Value)
    | CompletionErr(message: string)

  /** The structured error of a step; `failures` is the per-member list of a failed fan-out. */
  datatype StepError = StepError(message: string, code: Option<string>, failures: seq<GatherItem>)

  datatype GatherItem = GatherItem(name: string, error: StepError)

  function PlainError(message: string): StepError {
    StepError(message, None, [])
  }

  /** Decimal digits of a natural number, as string interpolation prints it. */
  function Digits(n: nat): (s: string)
    ensures |s| > 0
    ensures forall i | 0 <= i < |s| :: '0' <= s[i] <= '9'
  {
    if n < 10 then [DigitChar(n)] else Digits(n / 10) + [DigitChar(n % 10)]
  }

  function DigitChar(d: nat): char
    requires d < 10
  {
    '0' + d as char
  }

  /** The number a decimal numeral stands for. */
  function Number(s: string): int {
    if s == [] then 0 else 10 * Number(s[..|s| - 1]) + (s[|s| - 1] as int - '0' as int)
  }

  /** Digits are read back as the number, so no two numbers share them. */
  lemma {:induction false} DigitsReadBack(n: nat)
    ensures Number(Digits(n)) == n
  {
    var s := Digits(n);
    if n < 10 {
      assert s[..|s| - 1] == [];
    } else {
      DigitsReadBack(n / 10);
      assert s[..|s| - 1] == Digits(n / 10);
    }
  }

  lemma DigitsInjective(m: nat, n: nat)
    requires Digits(m) == Digits(n)
    ensures m == n
  {
    DigitsReadBack(m);
    DigitsReadBack(n);
  }

  /** A common prefix can be dropped from both sides of a prefix test. */
  lemma PrefixShift(p: string, a: string, b: string)
    ensures p + a <= p + b <==> a <= b
  {
    if a <= b {
      assert p + b == (p + a) + b[|a|..];
    }
    if p + a <= p + b {
      assert forall i | 0 <= i < |a| :: a[i] == (p + a)[|p| + i] && b[i] == (p + b)[|p| + i];
    }
  }

  lemma {:induction false} SubsetSize(a: set<nat>, b: set<nat>)
    requires a <= b
    ensures |a| <= |b|
  {
    if a != {} {
      var x :| x in a;
      SubsetSize(a - {x}, b - {x});
    }
  }

  lemma MapGrows<K, V>(m: map<K, V>, k: K, v: V)
    requires k !in m
    ensures |m[k := v]| == |m| + 1
  {
    assert m[k := v].Keys == m.Keys + {k};
  }

  lemma MapShrinks<K, V>(m: map<K, V>, k: K)
    requires k in m
    ensures |m - {k}| == |m| - 1
  {
    assert (m - {k}).Keys == m.Keys - {k};
  }
}
