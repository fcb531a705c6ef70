/** The two string formatters of the application's utility module. */
module Utils {
  import opened Js

  /**
   * The argument of `shortString`, which accepts any JavaScript value:
   * a string, an array (each element given by its `toString()` text), or
   * some other value (a number, a boolean, null, undefined, an object), given
   * by whether it is truthy and by what its `toString()` returns.
   */
  datatype JsValue =
    | Str(s: string)
    | Arr(elements: seq<string>)
    | Other(truthy: bool, rendered: string)

  /** An array is first rendered as `[` + its elements joined by `,` + `]`. */
  function Coerced(v: JsValue): (w: JsValue)
    ensures !w.Arr?
    ensures v.Arr? ==> w.Str?
    ensures !v.Arr? ==> w == v
  {
    if v.Arr? then Str("[" + Join(v.elements, ',') + "]") else v
  }

  predicate Truthy(v: JsValue)
    requires !v.Arr?
  {
    match v
    case Str(s) => s != ""
    case Other(truthy, _) => truthy
  }

  /** The text `toString()` gives for a non-array value. */
  function Text(v: JsValue): string
    requires !v.Arr?
  {
    match v
    case Str(s) => s
    case Other(_, rendered) => rendered
  }

  /** Middle-elides any text longer than 10 characters to 5 + "..." + 5. */
  function ShortString(v: JsValue): (r: string)
    ensures |r| <= 10 || |r| == 13
    ensures r == "" <==> !Truthy(Coerced(v)) || Text(Coerced(v)) == ""
  {
    var w := Coerced(v);
    if !Truthy(w) then ""
    else
      var s := Text(w);
      if |s| <= 10 then s else s[..5] + "..." + s[|s| - 5..]
  }

  /** A truthy value whose text has at most 10 characters comes back unchanged. */
  lemma ShortStringKeepsShort(v: JsValue)
    requires !v.Arr? && Truthy(v) && |Text(v)| <= 10
    ensures ShortString(v) == Text(v)
  {
  }

  /** Longer text keeps its first and last five characters around "...". */
  lemma ShortStringElides(v: JsValue)
    requires !v.Arr? && Truthy(v) && |Text(v)| > 10
    ensures var r, s := ShortString(v), Text(v);
      && |r| == 13
      && r[..5] == s[..5]
      && r[5..8] == "..."
      && r[8..] == s[|s| - 5..]
  {
  }

  /** An empty string, and any other falsy value, gives "". */
  lemma ShortStringFalsy(v: JsValue)
    requires !v.Arr? && !Truthy(v)
    ensures ShortString(v) == ""
  {
  }

  /** An array is shortened through its `[a,b,...]` rendering. */
  lemma ShortStringArray(elements: seq<string>)
    ensures ShortString(Arr(elements)) == ShortString(Str("[" + Join(elements, ',') + "]"))
    ensures |"[" + Join(elements, ',') + "]"| > 10 ==> ShortString(Arr(elements))[..1] == "["
    ensures |"[" + Join(elements, ',') + "]"| <= 10 ==>
      ShortString(Arr(elements)) == "[" + Join(elements, ',') + "]"
  {
  }

  /** Shortening an already shortened text changes nothing. */
  lemma ShortStringIdempotent(v: JsValue)
    ensures ShortString(Str(ShortString(v))) == ShortString(v)
  {
    var r := ShortString(v);
    if |r| == 13 {
      assert r[..5] + "..." + r[|r| - 5..] == r;
    }
  }

  function Min(a: int, b: int): int
  {
    if a <= b then a else b
  }

  /** The text before the first `.`: the first element of `split('.')`. */
  function IntegerPart(balance: string): (r: string)
    ensures '.' !in r
  {
    Split(balance, '.')[0]
  }

  /**
   * The second element of `split('.')`, the text between the first and the
   * second `.`; "" when there is none, which is just as falsy as `undefined`.
   */
  function DecimalPart(balance: string): (r: string)
    ensures '.' !in r
  {
    var parts := Split(balance, '.');
    if |parts| >= 2 then parts[1] else ""
  }

  /** Truncates (never rounds) the fractional part to at most six digits. */
  function FormatBalance(balanceInEther: string): (r: string)
    ensures |IntegerPart(balanceInEther)| < |r| <= |IntegerPart(balanceInEther)| + 7
    ensures r[..|IntegerPart(balanceInEther)|] == IntegerPart(balanceInEther)
    ensures r[|IntegerPart(balanceInEther)|] == '.'
  {
    var decimalPart := DecimalPart(balanceInEther);
    var truncated := if decimalPart != "" then decimalPart[..Min(6, |decimalPart|)] else "000000";
    IntegerPart(balanceInEther) + "." + truncated
  }

  /**
   * The result is the integer part and a fraction joined by exactly one `.`;
   * the fraction is the first min(6, n) characters of the input's, not padded,
   * or "000000" when the input has none.
   */
  lemma FormatBalanceParts(balance: string)
    ensures var p := Split(FormatBalance(balance), '.');
      && |p| == 2
      && p[0] == IntegerPart(balance)
      && (DecimalPart(balance) == "" ==> p[1] == "000000")
      && (DecimalPart(balance) != "" ==>
            |p[1]| == Min(6, |DecimalPart(balance)|)
            && p[1] == DecimalPart(balance)[..|p[1]|])
  {
    var d := DecimalPart(balance);
    var f := if d != "" then d[..Min(6, |d|)] else "000000";
    assert '.' !in f by {
      if d != "" {
        assert forall i :: 0 <= i < |f| ==> f[i] == d[i];
      }
    }
    SplitAtFirst(IntegerPart(balance), '.', f);
    SplitNoSeparator(f, '.');
    assert FormatBalance(balance) == IntegerPart(balance) + ['.'] + f;
  }

  /** Formatting a formatted balance changes nothing. */
  lemma FormatBalanceIdempotent(balance: string)
    ensures FormatBalance(FormatBalance(balance)) == FormatBalance(balance)
  {
    var r := FormatBalance(balance);
    FormatBalanceParts(balance);
    var p := Split(r, '.');
    assert p[1] != "" && |p[1]| <= 6;
    assert p[1][..Min(6, |p[1]|)] == p[1];
  }

  /** Text after a second `.` is dropped. */
  lemma FormatBalanceDropsRest(integer: string, fraction: string, rest: string)
    requires '.' !in integer && '.' !in fraction
    ensures FormatBalance(integer + "." + fraction + "." + rest)
         == FormatBalance(integer + "." + fraction)
  {
    SplitAtFirst(integer, '.', fraction + "." + rest);
    SplitAtFirst(fraction, '.', rest);
    SplitAtFirst(integer, '.', fraction);
    SplitNoSeparator(fraction, '.');
    assert integer + "." + fraction + "." + rest == integer + ['.'] + (fraction + ['.'] + rest);
    assert integer + "." + fraction == integer + ['.'] + fraction;
  }

  /** A balance without a `.` gets the fraction "000000". */
  lemma FormatBalanceWhole(integer: string)
    requires '.' !in integer
    ensures FormatBalance(integer) == integer + ".000000"
  {
    SplitNoSeparator(integer, '.');
  }
}
