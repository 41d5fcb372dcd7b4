/** How a PHP endpoint reads the query of a GET request into `$_GET`: the
    query runs from the first '?' to the first '#', pairs are separated by
    '&', each pair splits at its first '=', names and values are url-decoded
    ('+' is a space, %XX the byte XX), and a name given twice keeps its later
    value. */
module UrlQuery {
  import opened Values

  /** No occurrence of `c` in `s`. */
  predicate Free(s: string, c: char)
  {
    forall i :: 0 <= i < |s| ==> s[i] != c
  }

  /** Index of the first `c` in `s`, or |s| when there is none. */
  function IndexOf(s: string, c: char): (j: nat)
    ensures j <= |s|
    ensures forall i :: 0 <= i < j ==> s[i] != c
    ensures j < |s| ==> s[j] == c
  {
    if s == [] || s[0] == c then 0 else 1 + IndexOf(s[1..], c)
  }

  /** The pieces of `s` between occurrences of `sep` (PHP's explode). */
  function Split(s: string, sep: char): seq<string>
    decreases |s|
  {
    var j := IndexOf(s, sep);
    if j == |s| then [s] else [s[..j]] + Split(s[j + 1..], sep)
  }

  predicate IsHex(c: char)
  {
    '0' <= c <= '9' || 'a' <= c <= 'f' || 'A' <= c <= 'F'
  }

  function HexValue(c: char): (v: nat)
    requires IsHex(c)
    ensures v < 16
  {
    if '0' <= c <= '9' then c as int - '0' as int
    else if 'a' <= c <= 'f' then c as int - 'a' as int + 10
    else c as int - 'A' as int + 10
  }

  /** PHP's urldecode. */
  function UrlDecode(s: string): string
    decreases |s|
  {
    if s == [] then []
    else if s[0] == '+' then [' '] + UrlDecode(s[1..])
    else if s[0] == '%' && |s| >= 3 && IsHex(s[1]) && IsHex(s[2]) then
      [(16 * HexValue(s[1]) + HexValue(s[2])) as char] + UrlDecode(s[3..])
    else [s[0]] + UrlDecode(s[1..])
  }

  /** `s` with every '+' turned into a space. */
  function PlusToSpace(s: string): string
  {
    seq(|s|, i requires 0 <= i < |s| => if s[i] == '+' then ' ' else s[i])
  }

  /** Without '%' in it, url-decoding a text only turns '+' into spaces. */
  lemma {:induction false} UrlDecodeWithoutPercent(s: string)
    requires Free(s, '%')
    ensures UrlDecode(s) == PlusToSpace(s)
    decreases |s|
  {
    if s != [] {
      UrlDecodeWithoutPercent(s[1..]);
      assert PlusToSpace(s) == PlusToSpace(s[..1]) + PlusToSpace(s[1..]);
    }
  }

  /** One `name=value` pair, both sides decoded; without '=' the value is ''. */
  function Pair(p: string): (string, string)
  {
    var j := IndexOf(p, '=');
    (UrlDecode(p[..j]), if j < |p| then UrlDecode(p[j + 1..]) else "")
  }

  /** The value of the last pair named `name`. */
  function LastValue(parts: seq<string>, name: string): Option<string>
    decreases |parts|
  {
    if parts == [] then None
    else if Pair(parts[|parts| - 1]).0 == name then Some(Pair(parts[|parts| - 1]).1)
    else LastValue(parts[..|parts| - 1], name)
  }

  /** The query of a URL: after the first '?', before the first '#'. */
  function QueryOf(url: string): string
  {
    var i := IndexOf(url, '?');
    if i == |url| then ""
    else
      var rest := url[i + 1..];
      rest[..IndexOf(rest, '#')]
  }

  /** `$_GET[name]` for a GET request to `url`. */
  function QueryParam(url: string, name: string): Option<string>
  {
    LastValue(Split(QueryOf(url), '&'), name)
  }

  // ---------------------------------------------------------------------------
  // Helper facts

  lemma IndexOfFree(s: string, c: char)
    requires Free(s, c)
    ensures IndexOf(s, c) == |s|
  {
  }

  /** The first occurrence is the one index with no occurrence before it. */
  lemma IndexOfIs(s: string, c: char, j: nat)
    requires j <= |s| && (j < |s| ==> s[j] == c)
    requires forall i :: 0 <= i < j ==> s[i] != c
    ensures IndexOf(s, c) == j
  {
  }

  /** A first occurrence after a prefix without it. */
  lemma IndexOfAfter(a: string, b: string, c: char)
    requires Free(a, c)
    ensures IndexOf(a + b, c) == |a| + IndexOf(b, c)
  {
    var s, k := a + b, |a| + IndexOf(b, c);
    forall i | 0 <= i < k
      ensures s[i] != c
    {
      if i >= |a| {
        assert s[i] == b[i - |a|];
      }
    }
    if k < |s| {
      assert s[k] == b[k - |a|];
    }
    IndexOfIs(s, c, k);
  }

  /** Splitting at the first separator, when `a` holds none. */
  lemma SplitFirst(a: string, b: string, sep: char)
    requires Free(a, sep)
    ensures Split(a + [sep] + b, sep) == [a] + Split(b, sep)
  {
    var s := a + [sep] + b;
    assert s == a + ([sep] + b);
    IndexOfAfter(a, [sep] + b, sep);
    assert s[..|a|] == a;
    assert s[|a| + 1..] == b;
  }

  lemma SplitFree(s: string, sep: char)
    requires Free(s, sep)
    ensures Split(s, sep) == [s]
  {
    IndexOfFree(s, sep);
  }

  /** The pair `name=value` for a name without '=', '+' and '%' and a value
      without '%'. */
  lemma PairOf(name: string, value: string)
    requires Free(name, '=') && Free(name, '+') && Free(name, '%') && Free(value, '%')
    ensures Pair(name + "=" + value) == (name, PlusToSpace(value))
  {
    var p := name + "=" + value;
    assert p == name + ("=" + value);
    IndexOfAfter(name, "=" + value, '=');
    assert p[..|name|] == name;
    assert p[|name| + 1..] == value;
    UrlDecodeWithoutPercent(name);
    assert PlusToSpace(name) == name;
    UrlDecodeWithoutPercent(value);
  }
}
