/** The two string operations of the tool: `sep.join(parts)` and the slice `s[:n]`. */
module Text {

  /** Python's `sep.join(parts)`: the parts in order, separated by `sep`. */
  function Join(parts: seq<string>, sep: string): (r: string)
    ensures |parts| == 0 ==> r == ""
    ensures |parts| == 1 ==> r == parts[0]
    ensures |parts| > 0 ==> parts[0] <= r
  {
    if |parts| == 0 then ""
    else if |parts| == 1 then parts[0]
    else parts[0] + sep + Join(parts[1..], sep)
  }

  /** Joining one more part adds exactly one separator and that part at the end. */
  lemma {:induction false} JoinSnoc(parts: seq<string>, last: string, sep: string)
    requires |parts| > 0
    ensures Join(parts + [last], sep) == Join(parts, sep) + sep + last
  {
    if |parts| == 1 {
      assert parts + [last] == [parts[0], last];
      assert ([parts[0], last])[1..] == [last];
    } else {
      var rest := parts[1..];
      assert (parts + [last])[1..] == rest + [last];
      JoinSnoc(rest, last, sep);
    }
  }

  /** Python's `s.join(words)` computed left to right, the way a loop builds it. */
  method JoinWords(words: seq<string>, sep: string) returns (r: string)
    ensures r == Join(words, sep)
  {
    if |words| == 0 {
      return "";
    }
    r := words[0];
    var i := 1;
    while i < |words|
      invariant 1 <= i <= |words|
      invariant r == Join(words[..i], sep)
    {
      JoinSnoc(words[..i], words[i], sep);
      assert words[..i + 1] == words[..i] + [words[i]];
      r := r + sep + words[i];
      i := i + 1;
    }
    assert words[..i] == words;
  }

  /** Python's slice `s[:n]` for `n >= 0`: the first `n` characters, or all of a shorter `s`. */
  function Take(s: string, n: nat): (r: string)
    ensures r <= s
    ensures |r| == (if |s| <= n then |s| else n)
  {
    if |s| <= n then s else s[..n]
  }
}
