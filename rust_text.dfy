/** The parts of Rust's `str` API the backend relies on: `to_lowercase` and
    `parse::<u32>()`. */
module RustText {
  import opened Wrappers
  import opened Decimal

  const U32_MAX: nat := 0xFFFF_FFFF

  type U32 = n: nat | n <= U32_MAX

  function ToLowerChar(c: char): (l: char)
    ensures 'A' <= c <= 'Z' ==> l as int == c as int + 32
    ensures !('A' <= c <= 'Z') ==> l == c
  {
    if 'A' <= c <= 'Z' then ((c as int) + 32) as char else c
  }

  /** `s.to_lowercase()` for the ASCII range: each upper-case letter becomes
      its lower-case counterpart, everything else is kept. */
  function ToLowercase(s: string): (l: string)
    ensures |l| == |s|
    ensures forall k :: 0 <= k < |s| ==> l[k] == ToLowerChar(s[k])
  {
    if s == [] then [] else [ToLowerChar(s[0])] + ToLowercase(s[1..])
  }

  /** `u32::from_str`: an optional `+`, then one or more ASCII digits whose value
      fits in 32 bits. No whitespace, no `-`, no other sign is accepted. */
  function ParseU32(s: string): (r: Option<U32>)
    ensures r.Some? <==> (
      var digits := if s != [] && s[0] == '+' then s[1..] else s;
      digits != [] && AllDigits(digits) && Value(digits) <= U32_MAX)
    ensures r.Some? ==> r.value == Value(if s[0] == '+' then s[1..] else s)
  {
    if s == [] then None
    else
      var digits := if s[0] == '+' then s[1..] else s;
      if digits == [] || !AllDigits(digits) then None
      else
        var v := Value(digits);
        if v <= U32_MAX then Some(v) else None
  }

  /** Every 32-bit number, rendered in decimal, parses back to itself. */
  lemma ParseRendered(n: U32)
    ensures ParseU32(FromNat(n)) == Some(n)
    ensures ParseU32("+" + FromNat(n)) == Some(n)
  {
    ValueOfFromNat(n);
    var s := FromNat(n);
    assert ("+" + s)[1..] == s;
  }

  /** Inputs that `parse::<u32>()` rejects. */
  lemma ParseRejects(s: string)
    ensures ParseU32("") == None
    ensures ParseU32("+") == None
    ensures ParseU32("-" + s) == None
    ensures ParseU32(" " + s) == None
  {
    assert ("-" + s)[0] == '-';
    assert (" " + s)[0] == ' ';
  }
}
