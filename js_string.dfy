/**
 * `String.prototype.trim`, which the chat client applies to the input
 * field before deciding whether there is anything to send.
 */
module JsString {

  /**
   * The characters ECMAScript's trim strips: the WhiteSpace set (tab,
   * vertical tab, form feed, space, no-break space, the zero-width no-break
   * space and the Unicode space separators) and the LineTerminator set
   * (line feed, carriage return, line and paragraph separators).
   */
  predicate IsTrimmable(c: char) {
    var n := c as int;
    || 0x09 <= n <= 0x0D
    || n == 0x20 || n == 0xA0 || n == 0x1680
    || 0x2000 <= n <= 0x200A
    || n == 0x2028 || n == 0x2029 || n == 0x202F || n == 0x205F
    || n == 0x3000 || n == 0xFEFF
  }

  /** The string without its leading trimmable characters. */
  function TrimStart(s: string): (r: string)
    ensures |r| <= |s| && r == s[|s| - |r|..]
    ensures forall i | 0 <= i < |s| - |r| :: IsTrimmable(s[i])
    ensures r != [] ==> !IsTrimmable(r[0])
  {
    if s != [] && IsTrimmable(s[0]) then TrimStart(s[1..]) else s
  }

  /** The string without its trailing trimmable characters. */
  function TrimEnd(s: string): (r: string)
    ensures |r| <= |s| && r == s[..|r|]
    ensures forall i | |r| <= i < |s| :: IsTrimmable(s[i])
    ensures r != [] ==> !IsTrimmable(r[|r| - 1])
  {
    if s != [] && IsTrimmable(s[|s| - 1]) then TrimEnd(s[..|s| - 1]) else s
  }

  /** `s.trim()`: the longest infix of `s` that neither starts nor ends with a trimmable character. */
  function Trim(s: string): (r: string)
    ensures var k := |s| - |TrimStart(s)|;
      && k + |r| <= |s| && r == s[k..k + |r|]
      && (forall i | 0 <= i < k :: IsTrimmable(s[i]))
      && (forall i | k + |r| <= i < |s| :: IsTrimmable(s[i]))
    ensures r == [] <==> forall i | 0 <= i < |s| :: IsTrimmable(s[i])
    ensures r != [] ==> !IsTrimmable(r[0]) && !IsTrimmable(r[|r| - 1])
  {
    TrimEnd(TrimStart(s))
  }

  /** Trimming twice is trimming once. */
  lemma TrimIdempotent(s: string)
    ensures Trim(Trim(s)) == Trim(s)
  {
  }
}
