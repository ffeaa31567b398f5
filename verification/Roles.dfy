/** The list of roles to write with, as one string: how it is cut up, when it is refused, and that a
    written list reads back. */
module Roles {
  import opened Domain
  import opened Text

  // ----- the role list -----

  datatype Piece = Blank | Malformed | Entry(name: string, arn: string)

  /** One comma-separated piece, as the parser's body reads it. */
  function Classify(piece: string): Piece {
    var pair := Strip(piece);
    if pair == "" then Blank
    else
      var i := Find(pair, '=');
      if i == |pair| || Strip(pair[..i]) == "" || Strip(pair[i + 1..]) == "" then Malformed
      else Entry(Strip(pair[..i]), Strip(pair[i + 1..]))
  }

  /** The entries of the pieces; a later one replaces an earlier of the same name. */
  function Entries(pieces: seq<string>): map<string, string> {
    if pieces == [] then map[]
    else
      var n := |pieces| - 1;
      var before := Entries(pieces[..n]);
      match Classify(pieces[n])
      case Entry(name, arn) => before[name := arn]
      case _ => before
  }

  /** `name=arn,name=arn` to a map, or nothing if any piece is not an entry. */
  method ParseRoles(text: string) returns (roles: Option<map<string, string>>)
    ensures roles.None? <==> exists i :: 0 <= i < |Split(text, ',')| && Classify(Split(text, ',')[i]).Malformed?
    ensures roles.Some? ==> roles.value == Entries(Split(text, ','))
  {
    hide Split, Find, Strip;
    var pieces := Split(text, ',');
    var found: map<string, string> := map[];
    for n := 0 to |pieces|
      invariant found == Entries(pieces[..n])
      invariant forall i :: 0 <= i < n ==> !Classify(pieces[i]).Malformed?
    {
      assert pieces[..n + 1][..n] == pieces[..n] && pieces[..n + 1][n] == pieces[n];
      var pair := Strip(pieces[n]);
      if pair == "" {
        continue;
      }
      var i := Find(pair, '=');
      if i == |pair| || Strip(pair[..i]) == "" || Strip(pair[i + 1..]) == "" {
        assert Classify(Split(text, ',')[n]).Malformed?;
        return None;
      }
      found := found[Strip(pair[..i]) := Strip(pair[i + 1..])];
    }
    assert pieces[..|pieces|] == pieces;
    roles := Some(found);
  }

  /** No entry is silently dropped: what every non-blank piece names is in the map, and the map holds
      nothing else. The ARN is that of the last piece with the name. */
  lemma {:induction false} NothingSkipped(pieces: seq<string>, name: string)
    ensures name in Entries(pieces) <==>
      exists i :: 0 <= i < |pieces| && Classify(pieces[i]).Entry? && Classify(pieces[i]).name == name
    ensures name in Entries(pieces) ==>
      exists i :: 0 <= i < |pieces| && Classify(pieces[i]) == Entry(name, Entries(pieces)[name])
        && forall j :: i < j < |pieces| ==> !(Classify(pieces[j]).Entry? && Classify(pieces[j]).name == name)
    decreases |pieces|
  {
    hide Classify;
    if pieces != [] {
      var n := |pieces| - 1;
      NothingSkipped(pieces[..n], name);
      assert forall i :: 0 <= i < n ==> pieces[..n][i] == pieces[i];
      var last := Classify(pieces[n]);
      if last.Entry? && last.name == name {
        assert Classify(pieces[n]) == Entry(name, Entries(pieces)[name]);
      } else if name in Entries(pieces[..n]) {
        var i :| 0 <= i < n && Classify(pieces[..n][i]) == Entry(name, Entries(pieces[..n])[name])
          && forall j :: i < j < n ==> !(Classify(pieces[..n][j]).Entry? && Classify(pieces[..n][j]).name == name);
        assert Classify(pieces[i]) == Entry(name, Entries(pieces)[name]);
      }
    }
  }

  /** What makes a piece malformed: it is not blank, and it has no `=`, or nothing but white space
      before the first `=`, or nothing but white space after it. */
  lemma MalformedMeans(piece: string)
    ensures Classify(piece).Malformed? <==>
      !AllSpace(piece) && ('=' !in piece || AllSpace(piece[..Find(piece, '=')]) || AllSpace(piece[Find(piece, '=') + 1..]))
  {
    hide Strip, Find, AllSpace;
    StripBlank(piece);
    var left, right := StripMeans(piece);
    var pair := Strip(piece);
    var i := Find(pair, '=');
    FindNone(piece, '=');
    FindPadded(left, pair, right);
    StripBlank(pair[..i]);
    if i < |pair| {
      StripBlank(pair[i + 1..]);
      CutPadded(left, pair, right, i);
    }
  }

  /** Around a cut the padding of the whole is padding of its halves. */
  lemma CutPadded(left: string, pair: string, right: string, i: nat)
    requires AllSpace(left) && AllSpace(right) && i < |pair|
    ensures var s := left + pair + right;
      && (AllSpace(s[..|left| + i]) <==> AllSpace(pair[..i]))
      && (AllSpace(s[|left| + i + 1..]) <==> AllSpace(pair[i + 1..]))
  {
    hide AllSpace;
    var s := left + pair + right;
    NoSpaceIsSpace();
    AllSpacePadded(left, pair[..i], []);
    AllSpacePadded([], pair[i + 1..], right);
    assert s[..|left| + i] == left + pair[..i] + [];
    assert s[|left| + i + 1..] == [] + pair[i + 1..] + right;
  }

  lemma NoSpaceIsSpace()
    ensures AllSpace([])
  {
  }

  lemma FindPadded(left: string, pair: string, right: string)
    requires AllSpace(left) && AllSpace(right)
    ensures var i := Find(pair, '=');
      Find(left + pair + right, '=') == if i < |pair| then |left| + i else |left + pair + right|
  {
    hide Find;
    var s, i := left + pair + right, Find(pair, '=');
    assert !IsSpace('=');
    assert forall k :: 0 <= k < |left| ==> s[k] == left[k] && s[k] != '=';
    assert forall k :: |left| <= k < |left| + |pair| ==> s[k] == pair[k - |left|];
    assert forall k :: |left| + |pair| <= k < |s| ==> s[k] == right[k - |left| - |pair|] && s[k] != '=';
    assert i < |pair| ==> s[|left| + i] == '=';
  }

  lemma AllSpacePadded(left: string, s: string, right: string)
    requires AllSpace(left) && AllSpace(right)
    ensures AllSpace(left + s + right) <==> AllSpace(s)
  {
    var t := left + s + right;
    assert forall k :: |left| <= k < |left| + |s| ==> t[k] == s[k - |left|];
    assert forall k :: 0 <= k < |s| ==> s[k] == t[k + |left|];
  }

  // ----- writing a role list, and reading it back -----

  /** One entry as it may be written, with any padding around its name and its ARN. */
  datatype Written = Written(name: string, arn: string, pads: (string, string, string, string))

  predicate Writable(w: Written) {
    && Trimmed(w.name) && ',' !in w.name && '=' !in w.name
    && Trimmed(w.arn) && ',' !in w.arn
    && AllSpace(w.pads.0) && AllSpace(w.pads.1) && AllSpace(w.pads.2) && AllSpace(w.pads.3)
  }

  function Show(w: Written): string {
    w.pads.0 + w.name + w.pads.1 + "=" + w.pads.2 + w.arn + w.pads.3
  }

  lemma SpaceHasNo(pad: string, c: char)
    requires AllSpace(pad) && !IsSpace(c)
    ensures c !in pad
  {
  }

  /** An entry without its outer padding, cut at its first `=`. */
  lemma ShowCuts(w: Written)
    requires Writable(w)
    ensures var body := w.name + w.pads.1 + "=" + w.pads.2 + w.arn;
      && Strip(Show(w)) == body && Find(body, '=') == |w.name| + |w.pads.1|
      && body[..|w.name| + |w.pads.1|] == "" + w.name + w.pads.1
      && body[|w.name| + |w.pads.1| + 1..] == w.pads.2 + w.arn + ""
  {
    hide Strip, Find;
    var head, tail := w.name + w.pads.1, w.pads.2 + w.arn;
    var body := w.name + w.pads.1 + "=" + w.pads.2 + w.arn;
    assert body[0] == w.name[0] && body[|body| - 1] == w.arn[|w.arn| - 1];
    assert Show(w) == w.pads.0 + body + w.pads.3;
    StripPadded(w.pads.0, body, w.pads.3);
    SpaceHasNo(w.pads.1, '=');
    FindAfter(head, '=', tail);
    assert body == head + ['='] + tail;
  }

  lemma ShowClassifies(w: Written)
    requires Writable(w)
    ensures Classify(Show(w)) == Entry(w.name, w.arn)
  {
    hide Strip, Find, Show;
    ShowCuts(w);
    StripPadded("", w.name, w.pads.1);
    StripPadded(w.pads.2, w.arn, "");
  }

  lemma ShowHasNoComma(w: Written)
    requires Writable(w)
    ensures ',' !in Show(w)
  {
    hide IsSpace;
    assert !IsSpace(',') by { CommaIsNoSpace(); }
    SpaceHasNo(w.pads.0, ',');
    SpaceHasNo(w.pads.1, ',');
    SpaceHasNo(w.pads.2, ',');
    SpaceHasNo(w.pads.3, ',');
  }

  lemma CommaIsNoSpace()
    ensures !IsSpace(',')
  {
  }

  function ShowAll(ws: seq<Written>): seq<string> {
    seq(|ws|, i requires 0 <= i < |ws| => Show(ws[i]))
  }

  /** The map a list of entries stands for. */
  function RolesOf(ws: seq<Written>): map<string, string> {
    if ws == [] then map[] else RolesOf(ws[..|ws| - 1])[ws[|ws| - 1].name := ws[|ws| - 1].arn]
  }

  lemma {:induction false} ShowEntries(ws: seq<Written>)
    requires forall w :: w in ws ==> Writable(w)
    ensures Entries(ShowAll(ws)) == RolesOf(ws)
    ensures forall i :: 0 <= i < |ws| ==> ',' !in ShowAll(ws)[i] && !Classify(ShowAll(ws)[i]).Malformed?
    decreases |ws|
  {
    hide Classify, Show, Writable;
    if ws != [] {
      var n := |ws| - 1;
      ShowEntries(ws[..n]);
      ShowClassifies(ws[n]);
      ShowHasNoComma(ws[n]);
      assert ShowAll(ws)[..n] == ShowAll(ws[..n]);
      assert forall i :: 0 <= i < n ==> ShowAll(ws)[i] == ShowAll(ws[..n])[i];
    }
  }

  /** The round trip: any list of entries, none included, in any order and with any padding, written with
      commas between, is read back as the map it stands for, and never refused. */
  lemma RoleListRoundTrip(ws: seq<Written>)
    requires forall w :: w in ws ==> Writable(w)
    ensures var pieces := Split(Join(ShowAll(ws), ','), ',');
      Entries(pieces) == RolesOf(ws) && forall i :: 0 <= i < |pieces| ==> !Classify(pieces[i]).Malformed?
  {
    if ws == [] {
      NoRoles();
    } else {
      hide Classify, Show, Writable, Entries, RolesOf, Split, Join;
      ShowEntries(ws);
      SplitJoin(ShowAll(ws), ',');
    }
  }

  lemma NoRoles()
    ensures Split(Join(ShowAll([]), ','), ',') == [""] && Entries([""]) == map[] && Classify("") == Blank
  {
    assert ShowAll([]) == [];
  }

  lemma {:induction false} RolesOfAt(ws: seq<Written>, i: nat)
    requires i < |ws| && forall j, k :: 0 <= j < |ws| && 0 <= k < |ws| && ws[j].name == ws[k].name ==> j == k
    ensures ws[i].name in RolesOf(ws) && RolesOf(ws)[ws[i].name] == ws[i].arn
    decreases |ws|
  {
    var n := |ws| - 1;
    if i < n {
      RolesOfAt(ws[..n], i);
    }
  }

  /** With distinct names the order they are written in does not matter. */
  lemma RolesOfAnyOrder(ws: seq<Written>, vs: seq<Written>)
    requires forall j, k :: 0 <= j < |ws| && 0 <= k < |ws| && ws[j].name == ws[k].name ==> j == k
    requires forall j, k :: 0 <= j < |vs| && 0 <= k < |vs| && vs[j].name == vs[k].name ==> j == k
    requires forall w :: w in ws <==> w in vs
    ensures RolesOf(ws) == RolesOf(vs)
  {
    RolesOfKeys(ws);
    RolesOfKeys(vs);
    forall name | name in RolesOf(ws) ensures name in RolesOf(vs) && RolesOf(ws)[name] == RolesOf(vs)[name] {
      var i :| 0 <= i < |ws| && ws[i].name == name;
      assert ws[i] in vs;
      var j :| 0 <= j < |vs| && vs[j] == ws[i];
      RolesOfAt(ws, i);
      RolesOfAt(vs, j);
    }
    forall name | name in RolesOf(vs) ensures name in RolesOf(ws) {
      var j :| 0 <= j < |vs| && vs[j].name == name;
      assert vs[j] in ws;
      var i :| 0 <= i < |ws| && ws[i] == vs[j];
      RolesOfAt(ws, i);
    }
  }

  lemma {:induction false} RolesOfKeys(ws: seq<Written>)
    ensures forall name :: name in RolesOf(ws) <==> exists i :: 0 <= i < |ws| && ws[i].name == name
    decreases |ws|
  {
    if ws != [] {
      var n := |ws| - 1;
      RolesOfKeys(ws[..n]);
      assert forall i :: 0 <= i < n ==> ws[..n][i] == ws[i];
    }
  }
}
