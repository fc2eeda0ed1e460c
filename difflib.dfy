/** The library text operations the diff step uses: `str.splitlines(keepends=True)`
    and the shape of `difflib.unified_diff` output. */
module Difflib {
  import opened Text

  /** The characters `str.splitlines` ends a line at. */
  predicate IsLineBreak(c: char) {
    var n := c as int;
    (10 <= n <= 13) || (28 <= n <= 30) || n == 0x85 || n == 0x2028 || n == 0x2029
  }

  /** Length of the first line of a non-empty string, its terminator
      included (`\r\n` counts as one terminator). */
  function FirstLineLength(s: string): (n: nat)
    requires |s| > 0
    ensures 0 < n <= |s|
  {
    if IsLineBreak(s[0]) then
      (if s[0] == '\r' && |s| > 1 && s[1] == '\n' then 2 else 1)
    else if |s| == 1 then 1
    else 1 + FirstLineLength(s[1..])
  }

  function Concat(lines: seq<string>): string {
    if |lines| == 0 then "" else lines[0] + Concat(lines[1..])
  }

  /** `s.splitlines(keepends=True)`: non-empty lines that concatenate back
      to `s`. */
  function SplitLines(s: string): (r: seq<string>)
    ensures Concat(r) == s
    ensures forall i :: 0 <= i < |r| ==> r[i] != ""
    ensures r == [] <==> s == ""
    decreases |s|
  {
    if |s| == 0 then []
    else
      var n := FirstLineLength(s);
      assert s[..n] + s[n..] == s;
      [s[..n]] + SplitLines(s[n..])
  }

  /** Splitting loses nothing: equal line lists come from equal texts. */
  lemma SplitLinesInjective(a: string, b: string)
    ensures SplitLines(a) == SplitLines(b) <==> a == b
  {
  }

  /** The joined text starts with its first two lines. */
  lemma ConcatStart(ls: seq<string>)
    requires |ls| >= 2
    ensures StartsWith(Concat(ls), ls[0] + ls[1])
  {
    assert ls[1..][0] == ls[1] && ls[1..][1..] == ls[2..];
    var rest := Concat(ls[2..]);
    var tail := ls[1] + rest;
    assert Concat(ls[1..]) == tail;
    var c := Concat(ls);
    assert c == ls[0] + tail;
    var p := ls[0] + ls[1];
    forall i | 0 <= i < |p|
      ensures c[i] == p[i]
    {
      if i >= |ls[0]| {
        assert c[i] == tail[i - |ls[0]|];
      }
    }
    assert c[..|p|] == p;
  }

  /** `difflib`'s unified range for a hunk covering lines `[0, n)`. */
  function HunkRange(n: nat): string {
    if n == 1 then "1" else if n == 0 then "0,0" else "1," + NatToString(n)
  }

  function Prefixed(mark: string, lines: seq<string>): (r: seq<string>)
    ensures |r| == |lines|
    ensures forall i :: 0 <= i < |r| ==> r[i] == mark + lines[i]
  {
    if |lines| == 0 then [] else [mark + lines[0]] + Prefixed(mark, lines[1..])
  }

  /** `difflib.unified_diff(a, b, fromfile, tofile, lineterm)`: nothing for
      equal inputs; otherwise the `---`/`+++` headers and hunks, each header
      and hunk line ending in `lineterm`. The hunks are abstracted to one
      hunk replacing the whole file. */
  function UnifiedDiff(a: seq<string>, b: seq<string>, fromFile: string, toFile: string,
                       lineterm: string): (r: seq<string>)
    ensures r == [] <==> a == b
    ensures r != [] ==> |r| >= 3 && r[0] == "--- " + fromFile + lineterm
                        && r[1] == "+++ " + toFile + lineterm
  {
    if a == b then []
    else ["--- " + fromFile + lineterm, "+++ " + toFile + lineterm,
          "@@ -" + HunkRange(|a|) + " +" + HunkRange(|b|) + " @@" + lineterm]
         + Prefixed("-", a) + Prefixed("+", b)
  }
}
