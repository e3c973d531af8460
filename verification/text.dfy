/** `sep.join(parts)` on strings. */
module Text {

  function JoinWith(sep: string, parts: seq<string>): string
    decreases |parts|
  {
    if parts == [] then ""
    else if |parts| == 1 then parts[0]
    else parts[0] + sep + JoinWith(sep, parts[1..])
  }

  /** The parts of a join are laid out one after the other, `sep` between each two. */
  lemma {:induction false} JoinWithAppend(sep: string, parts: seq<string>, last: string)
    requires parts != []
    ensures JoinWith(sep, parts + [last]) == JoinWith(sep, parts) + sep + last
    decreases |parts|
  {
    if |parts| > 1 {
      assert (parts + [last])[1..] == parts[1..] + [last];
      JoinWithAppend(sep, parts[1..], last);
    } else {
      assert (parts + [last])[1..] == [last];
    }
  }

  /** Plain concatenation of string parts, in order. */
  function Concat(parts: seq<string>): string
    decreases |parts|
  {
    if parts == [] then "" else parts[0] + Concat(parts[1..])
  }

  /** Appending a fragment to the parts appends it to their concatenation. */
  lemma {:induction false} ConcatAppend(parts: seq<string>, last: string)
    ensures Concat(parts + [last]) == Concat(parts) + last
    decreases |parts|
  {
    if parts == [] {
      assert [last][1..] == [];
    } else {
      assert (parts + [last])[1..] == parts[1..] + [last];
      ConcatAppend(parts[1..], last);
    }
  }

  /** A string built as `prefix` plus the first `i` parts, then part `i`, is `prefix` plus the first `i + 1` parts. */
  lemma NextFragment(prefix: string, steps: seq<string>, i: nat, cmd: string)
    requires i < |steps|
    requires cmd == prefix + Concat(steps[..i]) + steps[i]
    ensures cmd == prefix + Concat(steps[..i + 1])
  {
    assert steps[..i + 1] == steps[..i] + [steps[i]];
    ConcatAppend(steps[..i], steps[i]);
  }

  /** Every character is a decimal digit. */
  predicate IsDigits(s: string) {
    forall i :: 0 <= i < |s| ==> '0' <= s[i] <= '9'
  }

  /** The number a string of decimal digits denotes, most significant digit first. */
  function DigitsValue(s: string): nat
    requires IsDigits(s)
    decreases |s|
  {
    if s == [] then 0
    else DigitsValue(s[..|s| - 1]) * 10 + ((s[|s| - 1] as int) - ('0' as int))
  }

  /**
   * Decimal digits of a natural number, as Python's `str()` / `f'{n}'` prints
   * it: digits only, denoting `n`, with no leading zero except for `0` itself.
   */
  function NatText(n: nat): (s: string)
    ensures |s| > 0 && IsDigits(s)
    ensures DigitsValue(s) == n
    ensures s[0] != '0' || s == "0"
    decreases n
  {
    var d := (('0' as int) + n % 10) as char;
    if n < 10 then [d] else NatText(n / 10) + [d]
  }
}
