/** The parts of Python's `str` that the converter relies on, restricted to
    ASCII where Python would apply Unicode case mapping. */
module PyStr {

  const Bom: char := '\U{FEFF}'
  const ZeroWidthSpace: char := '\U{200B}'

  /** `c.isspace()`: the characters Python's `str.strip()` removes by default.
      U+FEFF and U+200B are not among them. */
  predicate IsSpace(c: char) {
    || ('\t' <= c <= '\r')
    || ('\U{1C}' <= c <= ' ')
    || c == '\U{85}' || c == '\U{A0}' || c == '\U{1680}'
    || ('\U{2000}' <= c <= '\U{200A}')
    || c == '\U{2028}' || c == '\U{2029}' || c == '\U{202F}' || c == '\U{205F}' || c == '\U{3000}'
  }

  predicate IsUpper(c: char) { 'A' <= c <= 'Z' }
  predicate IsLower(c: char) { 'a' <= c <= 'z' }
  /** Python's "cased" characters, within ASCII. */
  predicate IsLetter(c: char) { IsUpper(c) || IsLower(c) }

  function LowerChar(c: char): (d: char)
    ensures !IsUpper(d)
    ensures IsLetter(c) <==> IsLetter(d)
    ensures !IsLetter(c) ==> d == c
  {
    if IsUpper(c) then (c as int + 32) as char else c
  }

  function UpperChar(c: char): (d: char)
    ensures !IsLower(d)
    ensures IsLetter(c) <==> IsLetter(d)
    ensures !IsLetter(c) ==> d == c
  {
    if IsLower(c) then (c as int - 32) as char else c
  }

  /** `s.lower()` */
  function Lower(s: string): (r: string)
    ensures |r| == |s|
    ensures forall i :: 0 <= i < |s| ==> r[i] == LowerChar(s[i])
  {
    seq(|s|, i requires 0 <= i < |s| => LowerChar(s[i]))
  }

  /** `s.capitalize()`: first character upper case, all others lower case. */
  function Capitalize(s: string): (r: string)
    ensures |r| == |s|
    ensures |s| > 0 ==> r[0] == UpperChar(s[0])
    ensures forall i :: 0 < i < |s| ==> r[i] == LowerChar(s[i])
  {
    if s == "" then "" else [UpperChar(s[0])] + Lower(s[1..])
  }

  /** `s.title()`: a cased character that follows a cased character is
      lower-cased, every other cased character is upper-cased. */
  function Title(s: string): (r: string)
    ensures |r| == |s|
    ensures forall i :: 0 <= i < |s| ==>
      r[i] == (if i > 0 && IsLetter(s[i - 1]) then LowerChar(s[i]) else UpperChar(s[i]))
  {
    seq(|s|, i requires 0 <= i < |s| =>
      if i > 0 && IsLetter(s[i - 1]) then LowerChar(s[i]) else UpperChar(s[i]))
  }

  /** `s.replace(a, b)` for single characters. */
  function ReplaceChar(s: string, a: char, b: char): (r: string)
    ensures |r| == |s|
    ensures forall i :: 0 <= i < |s| ==> r[i] == (if s[i] == a then b else s[i])
  {
    seq(|s|, i requires 0 <= i < |s| => if s[i] == a then b else s[i])
  }

  /** `s.replace(c, "")` */
  function RemoveChar(s: string, c: char): (r: string)
    ensures forall x :: x in r <==> x in s && x != c
    ensures |r| <= |s|
    ensures c !in s ==> r == s
  {
    if s == "" then ""
    else (if s[0] == c then "" else [s[0]]) + RemoveChar(s[1..], c)
  }

  function LStrip(s: string): (r: string)
    ensures |r| <= |s| && r == s[|s| - |r|..]
    ensures forall i :: 0 <= i < |s| - |r| ==> IsSpace(s[i])
    ensures r == "" || !IsSpace(r[0])
  {
    if s != "" && IsSpace(s[0]) then LStrip(s[1..]) else s
  }

  function RStrip(s: string): (r: string)
    ensures |r| <= |s| && r == s[..|r|]
    ensures forall i :: |r| <= i < |s| ==> IsSpace(s[i])
    ensures r == "" || !IsSpace(r[|r| - 1])
  {
    if s != "" && IsSpace(s[|s| - 1]) then RStrip(s[..|s| - 1]) else s
  }

  /** `s.strip()`: the longest slice of `s` with no white space at either end. */
  function Strip(s: string): (r: string)
    ensures r == "" <==> forall i :: 0 <= i < |s| ==> IsSpace(s[i])
    ensures r == "" || (!IsSpace(r[0]) && !IsSpace(r[|r| - 1]))
    ensures |r| <= |s|
  {
    var l := LStrip(s);
    var r := RStrip(l);
    assert r == "" ==> l == "";
    assert r != "" ==> r[0] == s[|s| - |l|];
    r
  }

  lemma {:induction false} LStripSpaces(pre: string, s: string)
    requires forall i :: 0 <= i < |pre| ==> IsSpace(pre[i])
    requires s == "" || !IsSpace(s[0])
    ensures LStrip(pre + s) == s
    decreases |pre|
  {
    if pre != "" {
      assert (pre + s)[1..] == pre[1..] + s;
      LStripSpaces(pre[1..], s);
    }
  }

  lemma {:induction false} RStripSpaces(s: string, post: string)
    requires forall i :: 0 <= i < |post| ==> IsSpace(post[i])
    requires s == "" || !IsSpace(s[|s| - 1])
    ensures RStrip(s + post) == s
    decreases |post|
  {
    if post != "" {
      var post' := post[..|post| - 1];
      assert (s + post)[..|s + post| - 1] == s + post';
      RStripSpaces(s, post');
    }
  }

  /** Stripping removes exactly the white space padding around text that
      neither starts nor ends with white space. */
  lemma StripPadded(pre: string, mid: string, post: string)
    requires forall i :: 0 <= i < |pre| ==> IsSpace(pre[i])
    requires forall i :: 0 <= i < |post| ==> IsSpace(post[i])
    requires mid != "" && !IsSpace(mid[0]) && !IsSpace(mid[|mid| - 1])
    ensures Strip(pre + mid + post) == mid
  {
    LStripSpaces(pre, mid + post);
    assert pre + mid + post == pre + (mid + post);
    RStripSpaces(mid, post);
  }

  /** Text with no white space at either end is its own strip. */
  lemma StripUnpadded(s: string)
    requires s != "" && !IsSpace(s[0]) && !IsSpace(s[|s| - 1])
    ensures Strip(s) == s
  {
    LStripSpaces("", s);
    assert "" + s == s;
    RStripSpaces(s, "");
    assert s + "" == s;
  }

  /** Removing a character that only leads the text drops just that one. */
  lemma RemoveLeadingChar(c: char, rest: string)
    requires c !in rest
    ensures RemoveChar([c] + rest, c) == rest
  {
    var s := [c] + rest;
    assert s[0] == c && s[1..] == rest;
  }

  /** `sub in s` for a string `sub` */
  predicate Contains(s: string, sub: string)
    decreases |s|
  {
    (|sub| <= |s| && s[..|sub|] == sub) || (s != "" && Contains(s[1..], sub))
  }

  /** `s.split(sep)` for a one-character separator: at least one part, no part
      holding the separator. */
  function Split(s: string, sep: char): (parts: seq<string>)
    ensures |parts| >= 1
    ensures forall i :: 0 <= i < |parts| ==> sep !in parts[i]
    decreases |s|
  {
    if s == "" then [""]
    else
      var init := Split(s[..|s| - 1], sep);
      var c := s[|s| - 1];
      if c == sep then init + [""]
      else init[..|init| - 1] + [init[|init| - 1] + [c]]
  }

  /** `sep.join(parts)` */
  function Join(parts: seq<string>, sep: char): string
    decreases |parts|
  {
    if |parts| == 0 then ""
    else if |parts| == 1 then parts[0]
    else Join(parts[..|parts| - 1], sep) + [sep] + parts[|parts| - 1]
  }

  lemma {:induction false} JoinAppendChar(parts: seq<string>, x: string, c: char, sep: char)
    ensures Join(parts + [x + [c]], sep) == Join(parts + [x], sep) + [c]
  {
    var p1, p2 := parts + [x + [c]], parts + [x];
    if |parts| > 0 {
      assert p1[..|p1| - 1] == parts && p2[..|p2| - 1] == parts;
    }
  }

  lemma SplitLast(s: string, sep: char)
    requires s != ""
    ensures var init := Split(s[..|s| - 1], sep);
      Split(s, sep) == if s[|s| - 1] == sep then init + [""]
                       else init[..|init| - 1] + [init[|init| - 1] + [s[|s| - 1]]]
  {
  }

  /** Joining the parts of a split gives the original text back. */
  lemma {:induction false} JoinSplit(s: string, sep: char)
    ensures Join(Split(s, sep), sep) == s
    decreases |s|
  {
    if s != "" {
      var s' := s[..|s| - 1];
      var c := s[|s| - 1];
      var init := Split(s', sep);
      JoinSplit(s', sep);
      SplitLast(s, sep);
      assert s == s' + [c];
      if c == sep {
        var parts := init + [""];
        assert parts[..|parts| - 1] == init;
        assert Join(parts, sep) == Join(init, sep) + [sep] + "";
      } else {
        var n := |init|;
        assert init == init[..n - 1] + [init[n - 1]];
        JoinAppendChar(init[..n - 1], init[n - 1], c, sep);
      }
    }
  }

  lemma {:induction false} SplitWithoutSeparator(s: string, sep: char)
    requires sep !in s
    ensures Split(s, sep) == [s]
    decreases |s|
  {
    if s != "" {
      assert sep !in s[..|s| - 1];
      SplitWithoutSeparator(s[..|s| - 1], sep);
      assert s[..|s| - 1] + [s[|s| - 1]] == s;
    }
  }

  lemma {:induction false} SplitAfterSeparator(x: string, last: string, sep: char)
    requires sep !in last
    ensures Split(x + [sep] + last, sep) == Split(x, sep) + [last]
    decreases |last|
  {
    var s := x + [sep] + last;
    if last == "" {
      assert s[..|s| - 1] == x;
    } else {
      var last' := last[..|last| - 1];
      assert sep !in last';
      assert s[..|s| - 1] == x + [sep] + last';
      SplitAfterSeparator(x, last', sep);
      assert last' + [last[|last| - 1]] == last;
    }
  }

  /** Splitting a join of separator-free parts gives the parts back. */
  lemma {:induction false} SplitJoin(parts: seq<string>, sep: char)
    requires |parts| >= 1
    requires forall i :: 0 <= i < |parts| ==> sep !in parts[i]
    ensures Split(Join(parts, sep), sep) == parts
    decreases |parts|
  {
    if |parts| == 1 {
      SplitWithoutSeparator(parts[0], sep);
    } else {
      var init := parts[..|parts| - 1];
      SplitJoin(init, sep);
      SplitAfterSeparator(Join(init, sep), parts[|parts| - 1], sep);
    }
  }
}
