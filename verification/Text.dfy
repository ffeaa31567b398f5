/** The string operations the configuration and the headers are read with, and what undoes them. */
module Text {
  import opened Domain

  /** White space as `str.strip` and `str.split` know it, up to U+00A0. */
  predicate IsSpace(c: char) {
    var n := c as int;
    9 <= n <= 13 || 28 <= n <= 32 || n == 133 || n == 160
  }

  /** Tab to carriage return, the four separators, the blank, next line, and the no-break space. */
  lemma IsSpaceMeans(c: char)
    ensures IsSpace(c) <==> c in {'\t', '\n', '\U{B}', '\U{C}', '\r', '\U{1C}', '\U{1D}', '\U{1E}', '\U{1F}', ' ', '\U{85}', '\U{A0}'}
  {
    if IsSpace(c) {
      assert c == c as int as char;
    }
  }

  predicate AllSpace(s: string) {
    forall i :: 0 <= i < |s| ==> IsSpace(s[i])
  }

  /** Neither empty nor padded. */
  predicate Trimmed(s: string) {
    s != "" && !IsSpace(s[0]) && !IsSpace(s[|s| - 1])
  }

  /** How many white space characters the string begins with. */
  function LeadingSpace(s: string): (n: nat)
    ensures n <= |s| && (forall k :: 0 <= k < n ==> IsSpace(s[k])) && (n < |s| ==> !IsSpace(s[n]))
  {
    if s == "" || !IsSpace(s[0]) then 0
    else
      var rest := s[1..];
      assert forall k :: 1 <= k < |s| ==> s[k] == rest[k - 1];
      1 + LeadingSpace(rest)
  }

  /** Where the white space at the end of the string begins. */
  function TrailingFrom(s: string): (n: nat)
    ensures n <= |s| && (forall k :: n <= k < |s| ==> IsSpace(s[k])) && (n > 0 ==> !IsSpace(s[n - 1]))
  {
    if s == "" || !IsSpace(s[|s| - 1]) then |s|
    else TrailingFrom(s[..|s| - 1])
  }

  function Strip(s: string): string {
    if LeadingSpace(s) == |s| then "" else s[LeadingSpace(s)..TrailingFrom(s)]
  }

  /** Padding around a trimmed value is what stripping takes off. */
  lemma StripPadded(left: string, s: string, right: string)
    requires AllSpace(left) && AllSpace(right) && Trimmed(s)
    ensures Strip(left + s + right) == s
  {
    var t := left + s + right;
    var l, r := LeadingSpace(t), TrailingFrom(t);
    assert t[|left|] == s[0] && t[|left| + |s| - 1] == s[|s| - 1];
    assert forall k :: 0 <= k < |left| ==> t[k] == left[k];
    assert forall k :: |left| + |s| <= k < |t| ==> t[k] == right[k - |left| - |s|];
    assert l == |left| && r == |left| + |s|;
    assert t[|left|..|left| + |s|] == s;
  }

  /** Stripping leaves nothing exactly of a blank string. */
  lemma StripBlank(s: string)
    ensures Strip(s) == "" <==> AllSpace(s)
  {
    var l, r := LeadingSpace(s), TrailingFrom(s);
    assert l < |s| ==> l < r;
  }

  /** What stripping returns is the string without its padding. */
  lemma StripMeans(s: string) returns (left: string, right: string)
    ensures AllSpace(left) && AllSpace(right) && s == left + Strip(s) + right
    ensures Strip(s) == "" || Trimmed(Strip(s))
  {
    hide LeadingSpace, TrailingFrom, IsSpace;
    var l, r := LeadingSpace(s), TrailingFrom(s);
    if l == |s| {
      left, right := s, "";
    } else {
      assert l < r;
      left, right := s[..l], s[r..];
      InThree(s, l, r);
    }
  }

  lemma InThree(s: string, l: nat, r: nat)
    requires l <= r <= |s|
    ensures s == s[..l] + s[l..r] + s[r..]
  {
  }

  // ----- cutting at a character -----

  /** Where `c` first is, or the length. */
  function Find(s: string, c: char): (i: nat)
    ensures i <= |s| && (i < |s| ==> s[i] == c) && forall k :: 0 <= k < i ==> s[k] != c
  {
    if s == "" || s[0] == c then 0
    else
      var rest := s[1..];
      assert forall k :: 1 <= k < |s| ==> s[k] == rest[k - 1];
      1 + Find(rest, c)
  }

  lemma FindAfter(a: string, c: char, b: string)
    requires c !in a
    ensures Find(a + [c] + b, c) == |a|
  {
    var s := a + [c] + b;
    var i := Find(s, c);
    assert s[|a|] == c;
    assert forall k :: 0 <= k < |a| ==> s[k] == a[k];
  }

  /** What stands before and after the first `c`. */
  function Cut(s: string, c: char): Option<(string, string)> {
    var i := Find(s, c);
    if i == |s| then None else Some((s[..i], s[i + 1..]))
  }

  lemma CutAt(a: string, c: char, b: string)
    requires c !in a
    ensures Cut(a + [c] + b, c) == Some((a, b))
  {
    hide Find;
    var s := a + [c] + b;
    FindAfter(a, c, b);
    assert s[..|a|] == a && s[|a| + 1..] == b;
  }

  lemma FindNone(s: string, c: char)
    ensures Find(s, c) == |s| <==> c !in s
  {
    var i := Find(s, c);
    assert i < |s| ==> s[i] in s;
  }

  /** The pieces between the separators: one more than there are separators. */
  function Split(s: string, c: char): (r: seq<string>)
    ensures r != []
    decreases |s|
  {
    var i := Find(s, c);
    if i == |s| then [s] else [s[..i]] + Split(s[i + 1..], c)
  }

  function Join(pieces: seq<string>, c: char): string {
    if pieces == [] then "" else if |pieces| == 1 then pieces[0] else pieces[0] + [c] + Join(pieces[1..], c)
  }

  /** Joining pieces without the separator and splitting at it gives the pieces back. */
  lemma {:induction false} SplitJoin(pieces: seq<string>, c: char)
    requires pieces != [] && forall i :: 0 <= i < |pieces| ==> c !in pieces[i]
    ensures Split(Join(pieces, c), c) == pieces
    decreases |pieces|
  {
    if |pieces| == 1 {
      FindNone(pieces[0], c);
    } else {
      var rest := Join(pieces[1..], c);
      var s := pieces[0] + [c] + rest;
      FindAfter(pieces[0], c, rest);
      assert s[..|pieces[0]|] == pieces[0] && s[|pieces[0]| + 1..] == rest;
      SplitJoin(pieces[1..], c);
    }
  }

  /** Splitting loses nothing: the pieces hold no separator and join to the text. */
  lemma {:induction false} JoinSplit(s: string, c: char)
    ensures Join(Split(s, c), c) == s
    ensures forall i :: 0 <= i < |Split(s, c)| ==> c !in Split(s, c)[i]
    decreases |s|
  {
    var i := Find(s, c);
    FindNone(s, c);
    if i < |s| {
      var rest := Split(s[i + 1..], c);
      JoinSplit(s[i + 1..], c);
      assert Split(s, c) == [s[..i]] + rest && (Split(s, c))[1..] == rest;
      assert s == s[..i] + [c] + s[i + 1..];
    }
  }
}
