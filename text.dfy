/** String operations both report generators rely on: JavaScript's
    `String.prototype.trim`, `Array.prototype.join` and the decimal text of
    an integer inside a template literal. */
module Text {

  /** The characters `String.prototype.trim` strips: ECMAScript's WhiteSpace
      and LineTerminator code points. */
  predicate IsSpace(c: char) {
    c == ' ' || c == '\t' || c == '\n' || c == '\r' || c == '\U{000B}' || c == '\U{000C}'
    || c == '\U{00A0}' || c == '\U{1680}' || ('\U{2000}' <= c <= '\U{200A}')
    || c == '\U{2028}' || c == '\U{2029}' || c == '\U{202F}' || c == '\U{205F}'
    || c == '\U{3000}' || c == '\U{FEFF}'
  }

  /** `s` with its leading white space removed: a suffix of `s` preceded only
      by white space, that does not itself start with white space. */
  function TrimStart(s: string): (r: string)
    ensures |r| <= |s| && r == s[|s| - |r|..]
    ensures forall k :: 0 <= k < |s| - |r| ==> IsSpace(s[k])
    ensures r == [] || !IsSpace(r[0])
    decreases |s|
  {
    if |s| > 0 && IsSpace(s[0]) then TrimStart(s[1..]) else s
  }

  /** `s` with its trailing white space removed: a prefix of `s` followed only
      by white space, that does not itself end with white space. */
  function TrimEnd(s: string): (r: string)
    ensures |r| <= |s| && r == s[..|r|]
    ensures forall k :: |r| <= k < |s| ==> IsSpace(s[k])
    ensures r == [] || !IsSpace(r[|r| - 1])
    decreases |s|
  {
    if |s| > 0 && IsSpace(s[|s| - 1]) then TrimEnd(s[..|s| - 1]) else s
  }

  /** `String.prototype.trim`. */
  function Trim(s: string): (r: string)
    ensures |r| <= |s|
    ensures r == [] || (!IsSpace(r[0]) && !IsSpace(r[|r| - 1]))
  {
    TrimEnd(TrimStart(s))
  }

  /** When a text starts with a visible character and ends in a visible
      character followed by one line break, trimming removes exactly that
      line break. */
  lemma TrimDropsFinalNewline(head: string, middle: string, tail: string)
    requires |head| > 0 && !IsSpace(head[0])
    requires |tail| >= 2 && tail[|tail| - 1] == '\n' && !IsSpace(tail[|tail| - 2])
    ensures Trim(head + middle + tail) + "\n" == head + middle + tail
  {
    var s := head + middle + tail;
    assert s[0] == head[0];
    assert TrimStart(s) == s;
    assert s[|s| - 1] == '\n' && s[|s| - 2] == tail[|tail| - 2];
    var p := s[..|s| - 1];
    assert TrimEnd(s) == TrimEnd(p);
    assert p[|p| - 1] == s[|s| - 2];
    assert TrimEnd(p) == p;
    assert p + "\n" == s;
  }

  /** A proof hint, not a property of the model: regroups a concatenation
      so that the solver matches it against a function's definition. */
  lemma AppendAssociative(a: string, b: string, c: string)
    ensures (a + b) + c == a + (b + c)
  {
  }

  predicate StartsWith(s: string, prefix: string) {
    |prefix| <= |s| && s[..|prefix|] == prefix
  }

  /** `parts.join(sep)`: the parts in order with `sep` between neighbours. */
  function Join(parts: seq<string>, sep: string): (r: string)
    ensures |parts| > 0 ==> |r| >= |parts[|parts| - 1]|
    decreases |parts|
  {
    if |parts| == 0 then ""
    else if |parts| == 1 then parts[0]
    else Join(parts[..|parts| - 1], sep) + sep + parts[|parts| - 1]
  }

  /** Joining one more part appends the separator and that part. */
  lemma JoinAppend(parts: seq<string>, part: string, sep: string)
    requires |parts| > 0
    ensures Join(parts + [part], sep) == Join(parts, sep) + sep + part
  {
  }

  function Digit(d: nat): char
    requires d < 10
  {
    "0123456789"[d]
  }

  /** The decimal text of a natural number, without leading zeros. */
  function NatToString(n: nat): (r: string)
    ensures |r| > 0 && forall k :: 0 <= k < |r| ==> '0' <= r[k] <= '9'
    ensures n >= 10 ==> r[0] != '0'
    decreases n
  {
    if n < 10 then [Digit(n)] else NatToString(n / 10) + [Digit(n % 10)]
  }

  /** The decimal text of an integer, as `${n}` gives it for a safe integer. */
  function IntToString(n: int): (r: string)
    ensures |r| > 0
    ensures n < 0 <==> r[0] == '-'
  {
    if n < 0 then "-" + NatToString(-n) else NatToString(n)
  }
}
