/** The few JavaScript string and array primitives the plugin relies on,
    stated over Dafny sequences. Strings are sequences of characters; the
    UTF-16 encoding of JavaScript strings is not modelled. */
module JsText {

  /** The characters matched by the regular-expression class `\s`: the
      ECMAScript WhiteSpace and LineTerminator productions (which include the
      byte-order mark U+FEFF). */
  predicate IsJsSpace(c: char) {
    || c == '\t' || c == '\n' || c == '\U{000B}' || c == '\U{000C}' || c == '\r'
    || c == ' ' || c == '\U{00A0}' || c == '\U{1680}'
    || ('\U{2000}' <= c <= '\U{200A}')
    || c == '\U{2028}' || c == '\U{2029}' || c == '\U{202F}' || c == '\U{205F}'
    || c == '\U{3000}' || c == '\U{FEFF}'
  }

  /** `Array.prototype.findIndex`: the index of the first element satisfying
      `p`, or -1 when there is none. */
  function FindIndex<T>(xs: seq<T>, p: T -> bool): (r: int)
    ensures -1 <= r < |xs|
    ensures r == -1 <==> forall j :: 0 <= j < |xs| ==> !p(xs[j])
    ensures r >= 0 ==> p(xs[r]) && forall j :: 0 <= j < r ==> !p(xs[j])
  {
    if |xs| == 0 then -1
    else if p(xs[0]) then 0
    else
      var k := FindIndex(xs[1..], p);
      assert forall j :: 1 <= j < |xs| ==> xs[j] == xs[1..][j - 1];
      if k == -1 then -1 else k + 1
  }

  /** `s.substr(start, 1)`: the one-character slice at `start`, or the empty
      string when `start` is past the end. */
  function Substr1(s: string, start: nat): (r: string)
    ensures start < |s| ==> r == [s[start]]
    ensures start >= |s| ==> r == ""
  {
    if start < |s| then s[start..start + 1] else ""
  }

  /** `s.replace(/\s/g, '')`: every whitespace character removed. */
  function StripSpaces(s: string): (r: string)
    ensures |r| <= |s|
    ensures forall i :: 0 <= i < |r| ==> !IsJsSpace(r[i])
    ensures r == "" <==> forall i :: 0 <= i < |s| ==> IsJsSpace(s[i])
    ensures forall c :: c in r <==> c in s && !IsJsSpace(c)
    ensures |s| <= 1 ==> r == (if |s| == 1 && !IsJsSpace(s[0]) then s else "")
  {
    if |s| == 0 then ""
    else
      var rest := StripSpaces(s[1..]);
      assert forall i :: 1 <= i < |s| ==> s[i] == s[1..][i - 1];
      if IsJsSpace(s[0]) then rest else [s[0]] + rest
  }

  /** `s.replace(c, '')` with a one-character string pattern: only the FIRST
      occurrence of `c` is removed. */
  function RemoveFirst(s: string, c: char): (r: string)
    ensures c !in s ==> r == s
    ensures c in s ==> |r| == |s| - 1
    ensures c in s ==> exists k :: 0 <= k < |s| && s[k] == c && c !in s[..k] && r == s[..k] + s[k + 1..]
  {
    var k := FindIndex(s, (x: char) => x == c);
    if k == -1 then s
    else
      assert c !in s[..k] by {
        forall j | 0 <= j < k ensures s[..k][j] != c { assert s[..k][j] == s[j]; }
      }
      s[..k] + s[k + 1..]
  }

  /** A leading `c` is what RemoveFirst takes away, whatever follows it. */
  lemma RemoveFirstLeading(c: char, t: string)
    ensures RemoveFirst([c] + t, c) == t
  {
    var s := [c] + t;
    var k :| 0 <= k < |s| && s[k] == c && c !in s[..k] && RemoveFirst(s, c) == s[..k] + s[k + 1..];
    assert s[1..] == t;
  }
}
