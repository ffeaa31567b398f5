/** The `Link` header scanner: the URL of the next page, byte for byte as it stands between the angle
    brackets (section 3 of RFC 8288). */
module LinkHeader {
  import opened Domain
  import opened Text

  // ----- words of a relation list -----

  function LowerChar(c: char): char {
    if 'A' <= c <= 'Z' then ((c as int) - ('A' as int) + ('a' as int)) as char else c
  }

  const CAPITALS := "ABCDEFGHIJKLMNOPQRSTUVWXYZ"
  const SMALL := "abcdefghijklmnopqrstuvwxyz"

  /** Each capital becomes its small letter, and nothing else changes. */
  lemma LowerMeans(c: char)
    ensures forall i :: 0 <= i < 26 && c == CAPITALS[i] ==> LowerChar(c) == SMALL[i]
    ensures c !in CAPITALS ==> LowerChar(c) == c
  {
    Letters();
    hide CAPITALS, SMALL;
    if 'A' <= c <= 'Z' {
      assert CAPITALS[c as int - 'A' as int] == c;
    }
  }

  lemma Letters()
    ensures |CAPITALS| == |SMALL| == 26
    ensures forall i :: 0 <= i < 26 ==> CAPITALS[i] as int == 'A' as int + i
    ensures forall i :: 0 <= i < 26 ==> SMALL[i] as int == 'a' as int + i
  {
  }

  function Lower(s: string): (r: string)
    ensures |r| == |s| && forall i :: 0 <= i < |s| ==> r[i] == LowerChar(s[i])
  {
    seq(|s|, i requires 0 <= i < |s| => LowerChar(s[i]))
  }

  /** Where the word that begins at `i` ends. */
  function WordEnd(s: string, i: nat): (n: nat)
    requires i <= |s|
    ensures i <= n <= |s| && (forall k :: i <= k < n ==> !IsSpace(s[k])) && (n < |s| ==> IsSpace(s[n]))
    decreases |s| - i
  {
    if i == |s| || IsSpace(s[i]) then i else WordEnd(s, i + 1)
  }

  /** `s[i..j]` is a word with white space or nothing on either side. */
  predicate WordAt(s: string, i: int, j: int) {
    && 0 <= i < j <= |s| && (forall k :: i <= k < j ==> !IsSpace(s[k]))
    && (i == 0 || IsSpace(s[i - 1])) && (j == |s| || IsSpace(s[j]))
  }

  /** Where the first word begins and ends. */
  function FirstWord(s: string): (r: Option<(nat, nat)>)
    ensures r.None? ==> forall k :: 0 <= k < |s| ==> IsSpace(s[k])
    ensures r.Some? ==> WordAt(s, r.value.0, r.value.1) && forall k :: 0 <= k < r.value.0 ==> IsSpace(s[k])
  {
    var i := LeadingSpace(s);
    if i == |s| then None
    else Some((i, WordEnd(s, i)))
  }

  /** The words between white space. */
  function Words(s: string): seq<string>
    decreases |s|
  {
    match FirstWord(s)
    case None => []
    case Some((i, m)) => [s[i..m]] + Words(s[m..])
  }

  ghost predicate HasWord(s: string, w: string) {
    exists i, j :: WordAt(s, i, j) && s[i..j] == w
  }

  lemma BlankHasNone(s: string, w: string)
    requires forall k :: 0 <= k < |s| ==> IsSpace(s[k])
    ensures !HasWord(s, w)
  {
    forall i, j ensures !WordAt(s, i, j) {
      assert 0 <= i < |s| ==> IsSpace(s[i]);
    }
  }

  /** A word of the string is its first, or one of what follows the first. */
  lemma FirstOrLater(s: string, i: nat, m: nat, w: string)
    requires i < m <= |s| && WordAt(s, i, m) && forall k :: 0 <= k < i ==> IsSpace(s[k])
    ensures HasWord(s, w) <==> w == s[i..m] || HasWord(s[m..], w)
  {
    var rest := s[m..];
    if a, b :| WordAt(s, a, b) && s[a..b] == w {
      WordSplit(s, i, m, a, b);
      if a != i || b != m {
        assert rest[a - m..b - m] == w;
      }
    }
    if a, b :| WordAt(rest, a, b) && rest[a..b] == w {
      WordLater(s, m, a, b);
    }
  }

  lemma {:induction false} WordsMeans(s: string, w: string)
    ensures w in Words(s) <==> HasWord(s, w)
    decreases |s|
  {
    hide HasWord, FirstWord;
    match FirstWord(s) {
      case None =>
        BlankHasNone(s, w);
      case Some((i, m)) =>
        WordsMeans(s[m..], w);
        FirstOrLater(s, i, m, w);
    }
  }

  lemma WordLater(s: string, m: nat, a: int, b: int)
    requires m < |s| ==> IsSpace(s[m])
    requires m <= |s| && WordAt(s[m..], a, b)
    ensures WordAt(s, m + a, m + b) && s[m + a..m + b] == s[m..][a..b]
  {
    var rest := s[m..];
    assert forall k :: 0 <= k < |rest| ==> rest[k] == s[m + k];
    assert !IsSpace(rest[a]);
    assert forall k :: m + a <= k < m + b ==> s[k] == rest[k - m];
  }

  lemma WordSplit(s: string, i: nat, m: nat, a: int, b: int)
    requires i < m <= |s| && WordAt(s, i, m) && WordAt(s, a, b)
    requires forall k :: 0 <= k < i ==> IsSpace(s[k])
    ensures (a == i && b == m) || WordAt(s[m..], a - m, b - m)
  {
    assert !IsSpace(s[a]) && !IsSpace(s[i]) && !IsSpace(s[b - 1]) && !IsSpace(s[m - 1]);
    var rest := s[m..];
    assert forall k :: 0 <= k < |rest| ==> rest[k] == s[m + k];
  }

  // ----- scanning one header line -----

  /** The first `<([^>]*)>([^<]*)`: the URL, what follows it up to the next `<`, and the rest. */
  function FirstValue(header: string): (r: Option<(string, string, string)>)
    ensures r.Some? ==> |r.value.2| < |header|
  {
    match Cut(header, '<')
    case None => None
    case Some((_, inside)) =>
      match Cut(inside, '>')
      case None => None
      case Some((url, after)) =>
        var k := Find(after, '<');
        Some((url, after[..k], after[k..]))
  }

  /** Every match, left to right: the URL and what follows it. */
  function LinkValues(header: string): seq<(string, string)>
    decreases |header|
  {
    match FirstValue(header)
    case None => []
    case Some((url, params, rest)) => [(url, params)] + LinkValues(rest)
  }

  function Skip(s: string): string {
    s[LeadingSpace(s)..]
  }

  predicate EndsBare(c: char) {
    IsSpace(c) || c == ';' || c == ','
  }

  function BareEnd(s: string): (n: nat)
    ensures n <= |s| && (forall k :: 0 <= k < n ==> !EndsBare(s[k])) && (n < |s| ==> EndsBare(s[n]))
  {
    if s == "" || EndsBare(s[0]) then 0
    else
      var rest := s[1..];
      assert forall k :: 1 <= k < |s| ==> s[k] == rest[k - 1];
      1 + BareEnd(rest)
  }

  /** `"([^"]*)"|([^\s;,]+)` at the front: the value, and how much was read. */
  function RelValue(s: string): (r: Option<(string, nat)>)
    ensures r.Some? ==> r.value.1 <= |s|
  {
    if s != "" && s[0] == '"' && Find(s[1..], '"') < |s| - 1 then
      var n := Find(s[1..], '"');
      Some((s[1..n + 1], n + 2))
    else if BareEnd(s) > 0 then Some((s[..BareEnd(s)], BareEnd(s)))
    else None
  }

  /** `\s*rel\s*=\s*` and a value, at the front: the value, and what is left. */
  function RelAt(s: string): (r: Option<(string, string)>)
    ensures r.Some? ==> |r.value.1| <= |s|
  {
    var name := Skip(s);
    if |name| < 3 || Lower(name[..3]) != "rel" then None
    else
      var sign := Skip(name[3..]);
      if sign == "" || sign[0] != '=' then None
      else
        var value := Skip(sign[1..]);
        match RelValue(value)
        case Some((rel, n)) => Some((rel, value[n..]))
        case None => None
  }

  /** The value of every `rel` parameter, left to right. */
  function Rels(params: string): seq<string>
    decreases |params|
  {
    var i := Find(params, ';');
    if i == |params| then []
    else
      match RelAt(params[i + 1..])
      case Some((rel, rest)) => [rel] + Rels(rest)
      case None => Rels(params[i + 1..])
  }

  predicate IsNext(rel: string) {
    "next" in Words(Lower(rel))
  }

  /** One of its words is `next`, in capitals or not. */
  lemma IsNextMeans(rel: string)
    ensures IsNext(rel) <==> HasWord(Lower(rel), "next")
  {
    hide HasWord;
    WordsMeans(Lower(rel), "next");
  }

  predicate HasNext(params: string) {
    exists i :: 0 <= i < |Rels(params)| && IsNext(Rels(params)[i])
  }

  /** The first URL of the list that is marked next. */
  function FirstNext(values: seq<(string, string)>): Option<string> {
    if values == [] then None
    else if HasNext(values[0].1) then Some(values[0].0)
    else FirstNext(values[1..])
  }

  function NextOf(headers: seq<string>): Option<string> {
    if headers == [] then None
    else if FirstNext(LinkValues(headers[0])).Some? then FirstNext(LinkValues(headers[0]))
    else NextOf(headers[1..])
  }

  lemma {:induction false} FirstNextAt(values: seq<(string, string)>, n: nat)
    requires n <= |values| && forall i :: 0 <= i < n ==> !HasNext(values[i].1)
    ensures n < |values| && HasNext(values[n].1) ==> FirstNext(values) == Some(values[n].0)
    ensures n == |values| ==> FirstNext(values) == None
    decreases n
  {
    hide HasNext;
    if n > 0 {
      FirstNextAt(values[1..], n - 1);
    }
  }

  lemma {:induction false} NextOfAt(headers: seq<string>, n: nat)
    requires n <= |headers| && forall i :: 0 <= i < n ==> FirstNext(LinkValues(headers[i])).None?
    ensures n < |headers| && FirstNext(LinkValues(headers[n])).Some? ==> NextOf(headers) == FirstNext(LinkValues(headers[n]))
    ensures n == |headers| ==> NextOf(headers) == None
    decreases n
  {
    hide FirstNext, LinkValues;
    if n > 0 {
      NextOfAt(headers[1..], n - 1);
    }
  }

  /** The URL marked `next`, over every line of the header in order. */
  method NextLink(headers: seq<string>) returns (url: Option<string>)
    ensures url == NextOf(headers)
  {
    hide FirstNext, LinkValues, NextOf, Rels, IsNext;
    for h := 0 to |headers|
      invariant forall i :: 0 <= i < h ==> FirstNext(LinkValues(headers[i])).None?
    {
      var values := LinkValues(headers[h]);
      for v := 0 to |values|
        invariant forall i :: 0 <= i < v ==> !HasNext(values[i].1)
      {
        var rels := Rels(values[v].1);
        for r := 0 to |rels|
          invariant forall i :: 0 <= i < r ==> !IsNext(rels[i])
        {
          if IsNext(rels[r]) {
            assert HasNext(values[v].1);
            FirstNextAt(values, v);
            NextOfAt(headers, h);
            return Some(values[v].0);
          }
        }
      }
      FirstNextAt(values, |values|);
    }
    NextOfAt(headers, |headers|);
    url := None;
  }

  // ----- printing a header, and scanning it back -----

  /** A parameter as a server may write it: a relation, its name in any case, padded anywhere, its value
      quoted or bare; or something else. */
  datatype Par =
    | Rel(name: string, pads: (string, string, string), rel: string, bare: bool)
    | Other(text: string)

  datatype Link = Link(url: string, pars: seq<Par>)

  /** What RFC 8288 lets a server write without further quoting. */
  predicate WritablePar(p: Par) {
    match p
    case Rel(name, pads, rel, bare) =>
      && Lower(name) == "rel" && AllSpace(pads.0) && AllSpace(pads.1) && AllSpace(pads.2) && '<' !in rel && '"' !in rel
      && (bare ==> rel != "" && forall i :: 0 <= i < |rel| ==> !IsSpace(rel[i]) && rel[i] != ';' && rel[i] != ',')
    case Other(text) =>
      ';' !in text && '<' !in text && !(|Skip(text)| >= 3 && Lower(Skip(text)[..3]) == "rel")
  }

  predicate Printable(l: Link) {
    '>' !in l.url && forall p :: p in l.pars ==> WritablePar(p)
  }

  function Value(p: Par): string
    requires p.Rel?
  {
    if p.bare then p.rel else "\"" + p.rel + "\""
  }

  function ParText(p: Par): string {
    match p
    case Rel(name, pads, _, _) => ";" + (pads.0 + (name + (pads.1 + ("=" + (pads.2 + Value(p))))))
    case Other(text) => ";" + text
  }

  function ParsText(pars: seq<Par>): string {
    if pars == [] then "" else ParText(pars[0]) + ParsText(pars[1..])
  }

  /** The relations among the parameters, in order. */
  function RelsOf(pars: seq<Par>): seq<string> {
    if pars == [] then []
    else (if pars[0].Rel? then [pars[0].rel] else []) + RelsOf(pars[1..])
  }

  /** The comma and space after every link of a line but the last. */
  function Gap(links: seq<Link>): string {
    if |links| <= 1 then "" else ", "
  }

  function PrintOne(url: string, params: string): string {
    "<" + url + ">" + params
  }

  function PrintLine(links: seq<Link>): string {
    if links == [] then ""
    else PrintOne(links[0].url, ParsText(links[0].pars) + Gap(links)) + PrintLine(links[1..])
  }

  /** One link in front of a rest that starts another or is empty. */
  lemma LinkInFront(url: string, params: string, rest: string)
    requires '>' !in url && '<' !in params && (rest == "" || rest[0] == '<')
    ensures FirstValue(PrintOne(url, params) + rest) == Some((url, params, rest))
  {
    hide Find, Cut, PrintOne;
    var after := params + rest;
    OneIsCut(url, params, rest);
    CutAt("", '<', url + ['>'] + after);
    CutAt(url, '>', after);
    FindRest(params, rest);
    assert after[..|params|] == params && after[|params|..] == rest;
  }

  lemma OneIsCut(url: string, params: string, rest: string)
    ensures PrintOne(url, params) + rest == "" + ['<'] + (url + ['>'] + (params + rest))
  {
  }

  lemma FindRest(params: string, rest: string)
    requires '<' !in params && (rest == "" || rest[0] == '<')
    ensures Find(params + rest, '<') == |params|
  {
    if rest == "" {
      assert params + rest == params;
      FindNone(params, '<');
    } else {
      assert params + rest == params + ['<'] + rest[1..];
      FindAfter(params, '<', rest[1..]);
    }
  }

  lemma SkipPad(pad: string, s: string)
    requires AllSpace(pad) && s != "" && !IsSpace(s[0])
    ensures Skip(pad + s) == s
  {
    var t := pad + s;
    assert t[|pad|] == s[0];
    assert forall k :: 0 <= k < |pad| ==> t[k] == pad[k];
    assert t[|pad|..] == s;
  }

  /** What may follow a parameter: nothing, another, or the comma before the next link. */
  predicate Follows(rest: string) {
    rest == "" || rest[0] == ';' || rest == ", "
  }

  lemma PlainChars()
    ensures !IsSpace('=') && !IsSpace('"') && !IsSpace(';') && !IsSpace(',')
    ensures forall c :: LowerChar(c) == 'r' ==> !IsSpace(c)
  {
  }

  lemma QuotedScans(rel: string, rest: string)
    requires '"' !in rel
    ensures RelValue("\"" + rel + "\"" + rest) == Some((rel, |rel| + 2))
  {
    hide Find, BareEnd;
    var value := "\"" + rel + "\"" + rest;
    assert value[1..] == rel + ['"'] + rest;
    FindAfter(rel, '"', rest);
    assert value[1..|rel| + 1] == rel;
  }

  lemma BareScans(rel: string, rest: string)
    requires rel != "" && '"' !in rel && Follows(rest)
    requires forall i :: 0 <= i < |rel| ==> !IsSpace(rel[i]) && rel[i] != ';' && rel[i] != ','
    ensures RelValue(rel + rest) == Some((rel, |rel|))
  {
    hide Find, IsSpace;
    var s := rel + rest;
    assert s[0] == rel[0] && rel[0] in rel;
    assert forall k :: 0 <= k < |rel| ==> s[k] == rel[k];
    assert rest != "" ==> s[|rel|] == rest[0];
    assert s[..|rel|] == rel;
  }

  /** A relation is read from a parameter that is one, whatever its case, padding and quoting. */
  lemma RelScans(p: Par, rest: string)
    requires p.Rel? && WritablePar(p) && Follows(rest)
    ensures ParText(p) != "" && RelAt((ParText(p) + rest)[1..]) == Some((p.rel, rest))
  {
    hide Skip, RelValue, IsSpace, LowerChar, ParText, RelAt, AllSpace;
    PlainChars();
    var value := Value(p) + rest;
    TextIs(p, rest);
    ValueScans(p, rest);
    assert Lower(p.name)[0] == 'r';
    NameScans(p.pads.0, p.name, p.pads.1, p.pads.2, value);
    assert value[|Value(p)|..] == rest;
  }

  lemma TextIs(p: Par, rest: string)
    requires p.Rel?
    ensures ParText(p) != "" && (ParText(p) + rest)[1..] == p.pads.0 + (p.name + (p.pads.1 + ("=" + (p.pads.2 + (Value(p) + rest)))))
  {
    hide Value;
    var inner := p.pads.0 + (p.name + (p.pads.1 + ("=" + (p.pads.2 + Value(p)))));
    assert (";" + inner + rest)[1..] == inner + rest;
  }

  lemma ValueScans(p: Par, rest: string)
    requires p.Rel? && WritablePar(p) && Follows(rest)
    ensures RelValue(Value(p) + rest) == Some((p.rel, |Value(p)|))
    ensures Value(p) != "" && !IsSpace(Value(p)[0])
  {
    hide RelValue, IsSpace;
    PlainChars();
    if p.bare {
      BareScans(p.rel, rest);
    } else {
      QuotedScans(p.rel, rest);
    }
  }

  /** From the padding before the name to the value. */
  lemma NameScans(w0: string, name: string, w1: string, w2: string, value: string)
    requires AllSpace(w0) && AllSpace(w1) && AllSpace(w2) && Lower(name) == "rel" && !IsSpace(name[0])
    requires value != "" && !IsSpace(value[0])
    ensures RelAt(w0 + (name + (w1 + ("=" + (w2 + value))))) == match RelValue(value)
      case Some((rel, n)) => Some((rel, value[n..]))
      case None => None
  {
    hide Skip, RelValue, IsSpace, Lower;
    PlainChars();
    var sign := "=" + (w2 + value);
    var all := name + (w1 + sign);
    LowerSize(name);
    SkipPad(w0, all);
    assert all[..3] == name && all[3..] == w1 + sign;
    SkipPad(w1, sign);
    assert sign[1..] == w2 + value;
    SkipPad(w2, value);
  }

  lemma LowerSize(s: string)
    ensures |Lower(s)| == |s|
  {
  }

  /** Nothing is read from one that is not. */
  lemma OtherScans(p: Par, rest: string)
    requires p.Other? && WritablePar(p) && Follows(rest)
    ensures RelAt((ParText(p) + rest)[1..]) == None
  {
    hide RelValue, IsSpace, Skip, Lower;
    assert (ParText(p) + rest)[1..] == p.text + rest;
    SkipInto(p.text, rest);
    NotRel(Skip(p.text), rest);
  }

  /** What follows does not make a relation of it. */
  lemma NotRel(text: string, rest: string)
    requires Follows(rest) && !(|text| >= 3 && Lower(text[..3]) == "rel")
    ensures var all := text + rest; !(|all| >= 3 && Lower(all[..3]) == "rel")
  {
    var all := text + rest;
    if |text| >= 3 {
      assert all[..3] == text[..3];
    } else if |all| >= 3 {
      assert all[|text|] == rest[0];
      assert Lower(all[..3])[|text|] == LowerChar(rest[0]);
    }
  }

  lemma SkipInto(s: string, rest: string)
    requires Follows(rest)
    ensures Skip(s + rest) == Skip(s) + rest
  {
    var t := s + rest;
    var n := LeadingSpace(s);
    PlainChars();
    assert forall k :: 0 <= k < |s| ==> t[k] == s[k];
    assert rest != "" ==> t[|s|] == rest[0];
    assert LeadingSpace(t) == n;
    assert t[n..] == s[n..] + rest;
  }

  /** Text without a semicolon in front makes no difference. */
  lemma RelsAfter(text: string, rest: string)
    requires ';' !in text
    ensures Rels(text + rest) == Rels(rest)
  {
    hide RelAt;
    var s, i := text + rest, Find(rest, ';');
    assert forall k :: 0 <= k < |text| ==> s[k] == text[k];
    assert forall k :: 0 <= k < |rest| ==> s[|text| + k] == rest[k];
    assert Find(s, ';') == |text| + i;
    if i < |rest| {
      assert s[|text| + i + 1..] == rest[i + 1..];
    }
  }

  /** Printed parameters are read as their relations, in order. */
  lemma {:induction false} ParsScan(pars: seq<Par>, tail: string)
    requires (forall p :: p in pars ==> WritablePar(p)) && (tail == "" || tail == ", ")
    ensures Rels(ParsText(pars) + tail) == RelsOf(pars) && Follows(ParsText(pars) + tail)
    decreases |pars|
  {
    if pars == [] {
      assert ParsText(pars) + tail == tail;
      FindNone(tail, ';');
    } else {
      hide RelAt, Find, WritablePar;
      var p, rest := pars[0], ParsText(pars[1..]) + tail;
      ParsScan(pars[1..], tail);
      assert ParsText(pars) + tail == ParText(p) + rest;
      FirstParScans(p, rest);
    }
  }

  lemma FirstParScans(p: Par, rest: string)
    requires WritablePar(p) && Follows(rest)
    ensures Rels(ParText(p) + rest) == (if p.Rel? then [p.rel] else []) + Rels(rest) && (ParText(p) + rest)[0] == ';'
  {
    hide RelAt, Find, Rels, WritablePar, ParText;
    var s := ParText(p) + rest;
    StartsPar(p, rest);
    RelsHere(s);
    if p.Rel? {
      RelScans(p, rest);
    } else {
      OtherScans(p, rest);
      OtherText(p, rest);
      RelsAfter(p.text, rest);
    }
  }

  lemma RelsHere(s: string)
    requires s != "" && s[0] == ';'
    ensures Rels(s) == match RelAt(s[1..])
      case Some((rel, after)) => [rel] + Rels(after)
      case None => Rels(s[1..])
  {
    hide RelAt, Find;
    assert s == "" + [';'] + s[1..];
    FindAfter("", ';', s[1..]);
  }

  lemma StartsPar(p: Par, rest: string)
    ensures ParText(p) + rest != "" && (ParText(p) + rest)[0] == ';'
  {
  }

  lemma OtherText(p: Par, rest: string)
    requires p.Other? && WritablePar(p)
    ensures (ParText(p) + rest)[1..] == p.text + rest && ';' !in p.text
  {
  }

  function Printed(links: seq<Link>): seq<(string, string)> {
    if links == [] then []
    else [(links[0].url, ParsText(links[0].pars) + Gap(links))] + Printed(links[1..])
  }

  lemma {:induction false} LineScans(links: seq<Link>)
    requires forall l :: l in links ==> Printable(l)
    ensures LinkValues(PrintLine(links)) == Printed(links)
    decreases |links|
  {
    if links == [] {
      FindNone("", '<');
    } else {
      hide FirstValue, PrintOne, ParsText, Gap, WritablePar;
      assert Printable(links[0]);
      var params := ParsText(links[0].pars) + Gap(links);
      ParamHasNoAngle(links);
      LineScans(links[1..]);
      StartsLink(links[1..]);
      LinkInFront(links[0].url, params, PrintLine(links[1..]));
    }
  }

  lemma ParamHasNoAngle(links: seq<Link>)
    requires links != [] && Printable(links[0])
    ensures '<' !in ParsText(links[0].pars) + Gap(links)
  {
    hide WritablePar;
    NoAngle(links[0].pars);
  }

  lemma {:induction false} NoAngle(pars: seq<Par>)
    requires forall p :: p in pars ==> WritablePar(p)
    ensures '<' !in ParsText(pars)
    decreases |pars|
  {
    hide WritablePar;
    if pars != [] {
      NoAngleIn(pars[0]);
      NoAngle(pars[1..]);
    }
  }

  lemma NoAngleIn(p: Par)
    requires WritablePar(p)
    ensures '<' !in ParText(p)
  {
    if p.Rel? {
      PadHasNoAngle(p.pads.0);
      PadHasNoAngle(p.pads.1);
      PadHasNoAngle(p.pads.2);
      NameHasNoAngle(p.name);
    }
    hide Lower, AllSpace, Skip;
  }

  lemma PadHasNoAngle(pad: string)
    requires AllSpace(pad)
    ensures '<' !in pad
  {
  }

  lemma NameHasNoAngle(name: string)
    requires Lower(name) == "rel"
    ensures '<' !in name
  {
    forall i | 0 <= i < |name| ensures name[i] != '<' {
      assert Lower(name)[i] == LowerChar(name[i]);
    }
  }

  lemma StartsLink(links: seq<Link>)
    ensures PrintLine(links) == "" || PrintLine(links)[0] == '<'
  {
  }

  /** Some relation of the link has the word `next`. */
  ghost predicate MarkedNext(pars: seq<Par>) {
    exists p :: p in pars && p.Rel? && HasWord(Lower(p.rel), "next")
  }

  lemma {:induction false} RelsOfMeans(pars: seq<Par>)
    ensures forall rel :: rel in RelsOf(pars) <==> exists p :: p in pars && p.Rel? && p.rel == rel
    decreases |pars|
  {
    if pars != [] {
      RelsOfMeans(pars[1..]);
    }
  }

  lemma MarkedAlike(pars: seq<Par>, tail: string)
    requires (forall p :: p in pars ==> WritablePar(p)) && (tail == "" || tail == ", ")
    ensures HasNext(ParsText(pars) + tail) <==> MarkedNext(pars)
  {
    hide IsNext, HasWord, Rels, Lower, WritablePar;
    ParsScan(pars, tail);
    RelsOfMeans(pars);
    forall rel ensures IsNext(rel) <==> HasWord(Lower(rel), "next") {
      IsNextMeans(rel);
    }
    if p :| p in pars && p.Rel? && HasWord(Lower(p.rel), "next") {
      assert p.rel in RelsOf(pars);
    }
    if i :| 0 <= i < |RelsOf(pars)| && IsNext(RelsOf(pars)[i]) {
      assert RelsOf(pars)[i] in RelsOf(pars);
    }
  }

  /** The first link of the list with a relation that includes `next`. */
  ghost function FirstLink(links: seq<Link>): Option<string> {
    if links == [] then None
    else if MarkedNext(links[0].pars) then Some(links[0].url)
    else FirstLink(links[1..])
  }

  ghost function FirstLinkOf(lines: seq<seq<Link>>): Option<string> {
    if lines == [] then None
    else if FirstLink(lines[0]).Some? then FirstLink(lines[0])
    else FirstLinkOf(lines[1..])
  }

  lemma {:induction false} PrintedNext(links: seq<Link>)
    requires forall l :: l in links ==> Printable(l)
    ensures FirstNext(Printed(links)) == FirstLink(links)
    decreases |links|
  {
    if links != [] {
      hide HasNext, MarkedNext, WritablePar;
      assert Printable(links[0]);
      MarkedAlike(links[0].pars, Gap(links));
      PrintedNext(links[1..]);
      assert Printed(links)[1..] == Printed(links[1..]);
    }
  }

  function PrintAll(lines: seq<seq<Link>>): seq<string> {
    seq(|lines|, i requires 0 <= i < |lines| => PrintLine(lines[i]))
  }

  lemma PrintAllSplit(lines: seq<seq<Link>>)
    requires lines != []
    ensures PrintAll(lines)[0] == PrintLine(lines[0]) && PrintAll(lines)[1..] == PrintAll(lines[1..])
  {
    hide PrintLine;
  }

  /** The round trip: any links with any parameters over any number of header lines, printed and scanned,
      give back byte for byte the first URL with a relation that includes `next`, and nothing when none
      does, whatever `;`, `,` or `<` the URLs contain and however the parameters are written. */
  lemma {:induction false} LinkRoundTrip(lines: seq<seq<Link>>)
    requires forall line, l :: line in lines && l in line ==> Printable(l)
    ensures NextOf(PrintAll(lines)) == FirstLinkOf(lines)
    decreases |lines|
  {
    if lines != [] {
      hide LinkValues, FirstNext, FirstLink, PrintLine, Printable, Printed, PrintAll;
      assert forall l :: l in lines[0] ==> Printable(l) by {
        assert lines[0] in lines;
      }
      forall line, l | line in lines[1..] && l in line ensures Printable(l) {
        assert line in lines;
      }
      LineScans(lines[0]);
      PrintedNext(lines[0]);
      LinkRoundTrip(lines[1..]);
      PrintAllSplit(lines);
    }
  }
}
