/**
 * How Python renders the values of a homework record inside an f-string
 * (`str()`) and inside a `KeyError`'s text (`repr()`).
 */
module PyFormat {
  import opened Wrappers
  import opened CustomTypes

  /** The decimal digit character for `d`. */
  function DigitChar(d: nat): (c: char)
    requires d < 10
    ensures '0' <= c <= '9' && c as int - '0' as int == d
  {
    ('0' as int + d) as char
  }

  /** The number written by a string of decimal digits, most significant first. */
  function DigitsValue(s: string): nat
    requires forall k :: 0 <= k < |s| ==> '0' <= s[k] <= '9'
  {
    if s == [] then 0
    else DigitsValue(s[..|s| - 1]) * 10 + (s[|s| - 1] as int - '0' as int)
  }

  /** `str(n)` for a non-negative int: its shortest decimal form. */
  function NatToString(n: nat): (s: string)
    ensures |s| >= 1
    ensures forall k :: 0 <= k < |s| ==> '0' <= s[k] <= '9'
    ensures DigitsValue(s) == n
    ensures |s| > 1 ==> s[0] != '0'
    decreases n
  {
    if n < 10 then [DigitChar(n)]
    else
      var prefix := NatToString(n / 10);
      var s := prefix + [DigitChar(n % 10)];
      assert s[..|s| - 1] == prefix;
      s
  }

  /** `str(i)` for any int. */
  function IntToString(i: int): (s: string)
    ensures |s| >= 1
    ensures i >= 0 ==> (forall k :: 0 <= k < |s| ==> '0' <= s[k] <= '9') && DigitsValue(s) == i
    ensures i < 0 ==> s[0] == '-' && (forall k :: 1 <= k < |s| ==> '0' <= s[k] <= '9') && DigitsValue(s[1..]) == -i
  {
    if i < 0 then "-" + NatToString(-i) else NatToString(i)
  }

  /** `str(v)` of what `dict.get` returned: `None` prints as "None". */
  function PyStr(v: Option<Field>): (s: string)
    ensures v.None? ==> s == "None"
    ensures v.Some? && v.value.StrField? ==> s == v.value.s
    ensures v.Some? && v.value.IntField? ==> s == IntToString(v.value.i)
  {
    match v
    case None => "None"
    case Some(IntField(i)) => IntToString(i)
    case Some(StrField(s)) => s
  }

  /**
   * `repr(v)`, which is what `str()` of a `KeyError` shows for its key.
   * A string is shown between single quotes.
   */
  function PyRepr(v: Option<Field>): (s: string)
    ensures v.Some? && v.value.StrField? ==>
      |s| == |v.value.s| + 2 && s[0] == '\'' && s[|s| - 1] == '\'' && s[1..|s| - 1] == v.value.s
    ensures !(v.Some? && v.value.StrField?) ==> s == PyStr(v)
  {
    match v
    case None => "None"
    case Some(IntField(i)) => IntToString(i)
    case Some(StrField(s)) => "'" + s + "'"
  }
}
