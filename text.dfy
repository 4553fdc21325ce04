/** The string operations of Rust's standard library that the core relies on:
    `str::trim`, `str::lines` and `str::split(char)`. */
module Text {

  /** `char::is_whitespace`: the characters with the Unicode White_Space property. */
  predicate IsWhitespace(c: char) {
    || ('\U{9}' <= c <= '\U{D}')
    || c == ' '
    || c == '\U{85}'
    || c == '\U{A0}'
    || c == '\U{1680}'
    || ('\U{2000}' <= c <= '\U{200A}')
    || c == '\U{2028}'
    || c == '\U{2029}'
    || c == '\U{202F}'
    || c == '\U{205F}'
    || c == '\U{3000}'
  }

  predicate AllWhitespace(s: string) {
    forall i :: 0 <= i < |s| ==> IsWhitespace(s[i])
  }

  /** Neither end of `s` is whitespace. */
  predicate IsTrimmed(s: string) {
    s == [] || (!IsWhitespace(s[0]) && !IsWhitespace(s[|s| - 1]))
  }

  /** Number of whitespace characters `str::trim_start` drops from the front of `s`. */
  function LeadingCount(s: string): (n: nat)
    ensures n <= |s|
    ensures forall i :: 0 <= i < n ==> IsWhitespace(s[i])
    ensures n < |s| ==> !IsWhitespace(s[n])
    decreases |s|
  {
    if s != [] && IsWhitespace(s[0]) then 1 + LeadingCount(s[1..]) else 0
  }

  /** `str::trim_end`: the longest prefix of `s` that does not end with whitespace. */
  function TrimEnd(s: string): (r: string)
    ensures |r| <= |s| && r == s[..|r|]
    ensures forall i :: |r| <= i < |s| ==> IsWhitespace(s[i])
    ensures r == [] || !IsWhitespace(r[|r| - 1])
    decreases |s|
  {
    if s != [] && IsWhitespace(s[|s| - 1]) then TrimEnd(s[..|s| - 1]) else s
  }

  /** `str::trim`: `s` without its leading and its trailing whitespace. */
  function Trim(s: string): (r: string)
    ensures IsTrimmed(r)
    ensures r == [] <==> AllWhitespace(s)
    ensures IsTrimmed(s) ==> r == s
    ensures var a := LeadingCount(s);
      && a + |r| <= |s|
      && r == s[a..a + |r|]
      && AllWhitespace(s[..a])
      && AllWhitespace(s[a + |r|..])
  {
    var a := LeadingCount(s);
    var r := TrimEnd(s[a..]);
    r
  }

  /** Trailing whitespace never reaches the result of `trim`. */
  lemma {:induction false} TrimDropsTrailingWhitespace(s: string, ws: string)
    requires AllWhitespace(ws)
    ensures Trim(s + ws) == Trim(s)
  {
    var a := LeadingCount(s);
    if a == |s| {
      AllWhitespaceConcat(s, ws);
    } else {
      LeadingCountOfConcat(s, ws);
      assert (s + ws)[a..] == s[a..] + ws;
      TrimEndDropsWhitespace(s[a..], ws);
    }
  }

  lemma AllWhitespaceConcat(s: string, ws: string)
    requires AllWhitespace(s) && AllWhitespace(ws)
    ensures AllWhitespace(s + ws)
  {
    var sw := s + ws;
    assert forall i :: 0 <= i < |s| ==> sw[i] == s[i];
    assert forall i :: |s| <= i < |sw| ==> sw[i] == ws[i - |s|];
  }

  /** Once `s` has something besides whitespace, `trim_start` of `s + ws`
      drops the same leading whitespace as `trim_start` of `s`. */
  lemma {:induction false} LeadingCountOfConcat(s: string, ws: string)
    requires LeadingCount(s) < |s|
    ensures LeadingCount(s + ws) == LeadingCount(s)
    decreases |s|
  {
    assert (s + ws)[0] == s[0];
    if IsWhitespace(s[0]) {
      assert (s + ws)[1..] == s[1..] + ws;
      LeadingCountOfConcat(s[1..], ws);
    }
  }

  lemma {:induction false} TrimEndDropsWhitespace(t: string, ws: string)
    requires AllWhitespace(ws)
    ensures TrimEnd(t + ws) == TrimEnd(t)
    decreases |ws|
  {
    if ws != [] {
      var u := t + ws;
      assert u[..|u| - 1] == t + ws[..|ws| - 1];
      TrimEndDropsWhitespace(t, ws[..|ws| - 1]);
    } else {
      assert t + ws == t;
    }
  }

  /** Position of the first `c` in `s`, or `|s|` when there is none. */
  function IndexOf(s: string, c: char): (k: nat)
    ensures k <= |s|
    ensures k < |s| ==> s[k] == c
    ensures forall i :: 0 <= i < k ==> s[i] != c
    decreases |s|
  {
    if s == [] || s[0] == c then 0 else 1 + IndexOf(s[1..], c)
  }

  /** A line ends with a carriage return. */
  predicate EndsWithCr(l: string) {
    |l| > 0 && l[|l| - 1] == '\r'
  }

  /** What `str::lines` keeps of a line that was terminated by a newline:
      the text without a final carriage return. */
  function StripCr(l: string): string {
    if EndsWithCr(l) then l[..|l| - 1] else l
  }

  /** `str::lines`: split after every `\n`, drop the `\n` and a `\r` right
      before it; a final line without `\n` is kept as it is, and an empty
      string has no lines. */
  function Lines(s: string): (ls: seq<string>)
    ensures |ls| <= |s|
    ensures s != [] ==> ls != []
    ensures forall l :: l in ls ==> '\n' !in l
    decreases |s|
  {
    if s == [] then []
    else
      var k := IndexOf(s, '\n');
      if k == |s| then
        assert '\n' !in s by {
          assert forall i :: 0 <= i < |s| ==> s[i] != '\n';
        }
        [s]
      else
        var l := StripCr(s[..k]);
        assert '\n' !in l by {
          assert forall i :: 0 <= i < |l| ==> l[i] == s[i];
        }
        [l] + Lines(s[k + 1..])
  }

  /** `lines` splits off the first line at its `\n` and drops one `\r`
      right before it. */
  lemma LinesOfLine(l: string, rest: string)
    requires '\n' !in l
    ensures Lines(l + "\n" + rest) == [StripCr(l)] + Lines(rest)
  {
    var s := l + "\n" + rest;
    assert s[|l|] == '\n';
    assert forall i :: 0 <= i < |l| ==> s[i] == l[i];
    assert IndexOf(s, '\n') == |l|;
    assert s[..|l|] == l;
    assert s[|l| + 1..] == rest;
  }

  /** So `\r\n` ends a line just as `\n` does. */
  lemma LinesOfCrLf(l: string, rest: string)
    requires '\n' !in l
    ensures Lines(l + "\r\n" + rest) == [l] + Lines(rest)
  {
    var lcr := l + ['\r'];
    assert '\n' !in lcr by {
      assert forall i :: 0 <= i < |l| ==> lcr[i] == l[i];
    }
    assert lcr + "\n" + rest == l + "\r\n" + rest;
    LinesOfLine(lcr, rest);
    assert lcr[..|lcr| - 1] == l;
  }

  /** A last line without `\n` is kept whole, even if it ends in `\r`. */
  lemma LinesOfUnterminated(l: string)
    requires l != [] && '\n' !in l
    ensures Lines(l) == [l]
  {
    assert IndexOf(l, '\n') == |l|;
  }

  /** A line without newline and without a final carriage return, followed
      by `\n`, comes back from `lines` as itself. */
  lemma LinesOfTerminated(l: string, rest: string)
    requires '\n' !in l && !EndsWithCr(l)
    ensures Lines(l + "\n" + rest) == [l] + Lines(rest)
  {
    LinesOfLine(l, rest);
  }

  /** Number of occurrences of `c` in `s`. */
  function Count(s: string, c: char): nat {
    multiset(s)[c]
  }

  /** `s.split(c)`: the pieces between occurrences of `c`; one more piece
      than there are occurrences, none of them containing `c`. */
  function Split(s: string, c: char): (parts: seq<string>)
    ensures |parts| == Count(s, c) + 1
    ensures |parts| == 1 ==> parts == [s]
    ensures forall p :: p in parts ==> c !in p
    decreases |s|
  {
    var k := IndexOf(s, c);
    if k == |s| then
      assert c !in multiset(s);
      [s]
    else
      assert s == s[..k] + [c] + s[k + 1..];
      assert c !in multiset(s[..k]);
      [s[..k]] + Split(s[k + 1..], c)
  }

  /** Joining two pieces without `c` by one `c` splits back into them. */
  lemma SplitPair(a: string, b: string, c: char)
    requires c !in a && c !in b
    ensures Split(a + [c] + b, c) == [a, b]
  {
    var s := a + [c] + b;
    var k := IndexOf(s, c);
    assert s[|a|] == c;
    assert forall i :: 0 <= i < |a| ==> s[i] == a[i];
    assert k == |a|;
    assert s[..k] == a && s[k + 1..] == b;
    assert Split(b, c) == [b];
  }
}
