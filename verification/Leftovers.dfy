/** What the mapping does not read is kept: the source record, less the paths read, less what is then
    empty. */
module Leftovers {
  import opened Domain

  type Path = seq<string>

  // ----- walking a record -----

  /** What stands at a path of dictionary keys. */
  function At(j: Json, p: Path): Option<Json>
    decreases |p|
  {
    if p == [] then Some(j)
    else if j.JObj? && p[0] in j.fields then At(j.fields[p[0]], p[1..])
    else None
  }

  /** Those of the paths that are in the record. */
  function Present(source: Json, paths: seq<Path>): set<Path> {
    set p | p in paths && At(source, p).Some?
  }

  lemma PresentSum(source: Json, a: seq<Path>, b: seq<Path>)
    ensures Present(source, a + b) == Present(source, a) + Present(source, b)
  {
    hide At;
  }

  function ValueAt(source: Json, path: Path): Json {
    match At(source, path)
    case Some(v) => v
    case None => JNull
  }

  /** A record, and the paths it has been asked for so far. */
  class Reader {
    const source: Json
    var consumed: set<Path>

    /** Only paths that are in the record are remembered. */
    ghost predicate Valid() reads this {
      forall p :: p in consumed ==> p != [] && At(source, p).Some?
    }

    constructor (source: Json)
      ensures Valid() && this.source == source && consumed == {}
    {
      this.source, consumed := source, {};
    }

    /** The value at a path, or null; a path that is there counts as read even if its value is null. */
    method Get(path: Path) returns (value: Json)
      requires Valid() && path != []
      modifies this
      ensures Valid()
      ensures value == ValueAt(source, path)
      ensures consumed == old(consumed) + Present(source, [path])
    {
      var node := source;
      for n := 0 to |path|
        invariant At(source, path) == At(node, path[n..])
        invariant consumed == old(consumed) && Valid()
      {
        assert path[n..][0] == path[n] && path[n..][1..] == path[n + 1..];
        if !node.JObj? || path[n] !in node.fields {
          return JNull;
        }
        node := node.fields[path[n]];
      }
      consumed := consumed + {path};
      value := node;
    }
  }

  // ----- taking paths out -----

  /** Pops the last key of the path from the dictionary the rest of it leads to, if it leads to one. */
  function PopAt(j: Json, path: Path): Json
    requires path != []
    decreases |path|
  {
    if !j.JObj? then j
    else if |path| == 1 then JObj(j.fields - {path[0]})
    else if path[0] in j.fields then JObj(j.fields[path[0] := PopAt(j.fields[path[0]], path[1..])])
    else j
  }

  /** Only paths that name something below the record itself. */
  predicate Proper(paths: seq<Path>) {
    forall i :: 0 <= i < |paths| ==> paths[i] != []
  }

  function PopAll(j: Json, paths: seq<Path>): Json
    requires Proper(paths)
  {
    if paths == [] then j else PopAt(PopAll(j, paths[..|paths| - 1]), paths[|paths| - 1])
  }

  /** Both dictionaries, or the same value. */
  predicate SameShape(a: Json, b: Json) {
    (a.JObj? && b.JObj?) || a == b
  }

  predicate SameAt(a: Option<Json>, b: Option<Json>) {
    (a.None? && b.None?) || (a.Some? && b.Some? && SameShape(a.value, b.value))
  }

  /** A pop takes out the path and all below it, and nothing else. */
  lemma {:induction false} PopAtMeans(j: Json, q: Path, p: Path)
    requires q != []
    ensures if q <= p then At(PopAt(j, q), p).None? else SameAt(At(PopAt(j, q), p), At(j, p))
    decreases |q|
  {
    if p != [] && j.JObj? && |q| > 1 && q[0] in j.fields && p[0] == q[0] {
      PopAtMeans(j.fields[q[0]], q[1..], p[1..]);
      assert q <= p <==> q[1..] <= p[1..];
    }
  }

  predicate Covered(paths: seq<Path>, p: Path) {
    exists i :: 0 <= i < |paths| && paths[i] <= p
  }

  lemma {:induction false} PopAllMeans(j: Json, paths: seq<Path>, p: Path)
    requires Proper(paths)
    ensures if Covered(paths, p) then At(PopAll(j, paths), p).None? else SameAt(At(PopAll(j, paths), p), At(j, p))
    decreases |paths|
  {
    if paths != [] {
      var n := |paths| - 1;
      assert paths == paths[..n] + [paths[n]];
      PopAllMeans(j, paths[..n], p);
      PopAtMeans(PopAll(j, paths[..n]), paths[n], p);
      assert Covered(paths, p) <==> Covered(paths[..n], p) || paths[n] <= p;
    }
  }

  /** Two records alike at every path are one. */
  lemma {:induction false} Extensional(a: Json, b: Json)
    requires forall p :: SameAt(At(a, p), At(b, p))
    ensures a == b
    decreases a
  {
    assert SameAt(At(a, []), At(b, []));
    if a.JObj? && b.JObj? {
      forall k ensures k in a.fields <==> k in b.fields {
        KeyAt(a, k);
        KeyAt(b, k);
        assert SameAt(At(a, [k]), At(b, [k]));
      }
      forall k | k in a.fields ensures a.fields[k] == b.fields[k] {
        forall p ensures SameAt(At(a.fields[k], p), At(b.fields[k], p)) {
          assert SameAt(At(a, [k] + p), At(b, [k] + p));
          BelowAt(a, k, p);
          BelowAt(b, k, p);
        }
        Extensional(a.fields[k], b.fields[k]);
      }
      assert a.fields == b.fields;
    }
  }

  lemma KeyAt(j: Json, k: string)
    requires j.JObj?
    ensures At(j, [k]).Some? <==> k in j.fields
  {
    assert [k][1..] == [];
  }

  lemma BelowAt(j: Json, k: string, p: Path)
    requires j.JObj? && k in j.fields
    ensures At(j, [k] + p) == At(j.fields[k], p)
  {
    assert ([k] + p)[0] == k && ([k] + p)[1..] == p;
  }

  /** The order in which paths are taken out, and how often, makes no difference. */
  lemma PopAnyOrder(j: Json, paths: seq<Path>, others: seq<Path>)
    requires Proper(paths)
    requires Proper(others) && forall q :: q in paths <==> q in others
    ensures PopAll(j, paths) == PopAll(j, others)
  {
    forall p ensures SameAt(At(PopAll(j, paths), p), At(PopAll(j, others), p)) {
      PopAllMeans(j, paths, p);
      PopAllMeans(j, others, p);
      SameCover(paths, others, p);
    }
    Extensional(PopAll(j, paths), PopAll(j, others));
  }

  lemma SameCover(paths: seq<Path>, others: seq<Path>, p: Path)
    requires forall q :: q in paths <==> q in others
    ensures Covered(paths, p) <==> Covered(others, p)
  {
    if i :| 0 <= i < |paths| && paths[i] <= p {
      assert paths[i] in others;
      var k :| 0 <= k < |others| && others[k] == paths[i];
    }
    if i :| 0 <= i < |others| && others[i] <= p {
      assert others[i] in paths;
      var k :| 0 <= k < |paths| && paths[k] == others[i];
    }
  }

  // ----- pruning -----

  /** What a dictionary does not keep: null, an empty list, an empty string, an empty dictionary. */
  predicate Empty(j: Json) {
    j == JNull || j == JArr([]) || j == JStr("") || j == JObj(map[])
  }

  /** Drops empty members at every dictionary level, from the inside out. Lists are left alone. */
  function Prune(j: Json): Json {
    if !j.JObj? then j
    else JObj(map k | k in j.fields && !Empty(Prune(j.fields[k])) :: Prune(j.fields[k]))
  }

  /** No dictionary keeps a null, or an empty list, string or dictionary, at any level. */
  lemma {:induction false} PruneLeavesNoEmpty(j: Json, p: Path)
    requires p != [] && At(Prune(j), p).Some?
    ensures At(Prune(j), p).value !in {JNull, JArr([]), JStr(""), JObj(map[])}
    decreases |p|
  {
    var k := p[0];
    assert k in j.fields && Prune(j).fields[k] == Prune(j.fields[k]);
    if |p| > 1 {
      PruneLeavesNoEmpty(j.fields[k], p[1..]);
    } else {
      assert p[1..] == [];
    }
  }

  /** Pruning adds nothing and keeps every boolean, every number, and every string or list that is not
      empty. */
  lemma {:induction false} PruneMeans(j: Json, p: Path, v: Json)
    requires j.JObj? && p != []
    requires v.JBool? || v.JInt? || (v.JStr? && v.s != "") || (v.JArr? && v.items != [])
    ensures At(Prune(j), p) == Some(v) <==> At(j, p) == Some(v)
    decreases |p|
  {
    var k := p[0];
    if k in j.fields {
      if |p| == 1 {
        assert p[1..] == [];
      } else if j.fields[k].JObj? {
        PruneMeans(j.fields[k], p[1..], v);
        if At(Prune(j.fields[k]), p[1..]) == Some(v) {
          assert !Empty(Prune(j.fields[k]));
        }
      }
    }
  }

  lemma {:induction false} PruneIdempotent(j: Json)
    ensures Prune(Prune(j)) == Prune(j)
  {
    if j.JObj? {
      forall k | k in j.fields ensures Prune(Prune(j.fields[k])) == Prune(j.fields[k]) {
        PruneIdempotent(j.fields[k]);
      }
      assert Prune(Prune(j)).fields == Prune(j).fields;
    }
  }

  // ----- the leftovers -----

  lemma LongestExists(paths: set<Path>) returns (p: Path)
    requires paths != {}
    ensures p in paths && forall q :: q in paths ==> |q| <= |p|
    decreases paths
  {
    p :| p in paths;
    if paths != {p} {
      var q := LongestExists(paths - {p});
      if |q| > |p| {
        p := q;
      }
    }
  }

  /** The record less what was read, longest paths first, pruned. Whatever the order among paths of a
      length, and whatever order at all, the result is the same. */
  method Leftover(source: Json, consumed: set<Path>) returns (rest: Json)
    requires source.JObj? && forall p :: p in consumed ==> p != []
    ensures forall paths: seq<Path> | Proper(paths) && (forall q :: q in paths <==> q in consumed) :: rest == Prune(PopAll(source, paths))
    ensures Listed(consumed, source, rest)
  {
    rest := source;
    var left := consumed;
    ghost var order: seq<Path> := [];
    while left != {}
      invariant left <= consumed
      invariant Proper(order) && forall q :: q in order <==> q in consumed - left
      invariant rest == PopAll(source, order)
      decreases left
    {
      ghost var longest := LongestExists(left);
      var p :| p in left && forall q :: q in left ==> |q| <= |p|;
      rest := PopAt(rest, p);
      assert (order + [p])[..|order|] == order;
      order := order + [p];
      left := left - {p};
    }
    rest := Prune(rest);
    forall paths: seq<Path> | Proper(paths) && (forall q :: q in paths <==> q in consumed)
      ensures rest == Prune(PopAll(source, paths))
    {
      PopAnyOrder(source, order, paths);
    }
    ListedBy(source, consumed, order);
  }

  /** `rest` is what is left of `source` when exactly these paths are taken out. */
  ghost predicate Listed(consumed: set<Path>, source: Json, rest: Json) {
    exists paths: seq<Path> :: (forall q :: q in paths <==> q in consumed) && Proper(paths)
      && rest == Prune(PopAll(source, paths))
  }

  lemma ListedBy(source: Json, consumed: set<Path>, order: seq<Path>)
    requires Proper(order) && forall q :: q in order <==> q in consumed
    ensures Listed(consumed, source, Prune(PopAll(source, order)))
  {
  }

  ghost predicate Read(consumed: set<Path>, p: Path) {
    exists q :: q in consumed && q <= p
  }

  lemma CoverIsRead(consumed: set<Path>, paths: seq<Path>, p: Path)
    requires forall q :: q in paths <==> q in consumed
    ensures Covered(paths, p) <==> Read(consumed, p)
  {
    if Read(consumed, p) {
      var q :| q in consumed && q <= p;
      assert q in paths;
      var i :| 0 <= i < |paths| && paths[i] == q;
    }
    if i :| 0 <= i < |paths| && paths[i] <= p {
      assert paths[i] in consumed;
    }
  }

  /** Conservation: a boolean, a number, a string or a list that is not empty is left at a path exactly
      when the record has it there and neither the path nor any path above it was read. */
  lemma LeftoverMeans(source: Json, consumed: set<Path>, rest: Json, p: Path, v: Json)
    requires source.JObj? && Listed(consumed, source, rest)
    requires p != []
    requires v.JBool? || v.JInt? || (v.JStr? && v.s != "") || (v.JArr? && v.items != [])
    ensures At(rest, p) == Some(v) <==> At(source, p) == Some(v) && !Read(consumed, p)
  {
    var paths: seq<Path> :| (forall q :: q in paths <==> q in consumed) && Proper(paths)
      && rest == Prune(PopAll(source, paths));
    StaysDict(source, paths);
    PruneMeans(PopAll(source, paths), p, v);
    PopAllMeans(source, paths, p);
    CoverIsRead(consumed, paths, p);
  }

  lemma {:induction false} StaysDict(j: Json, paths: seq<Path>)
    requires j.JObj? && Proper(paths)
    ensures PopAll(j, paths).JObj?
    decreases |paths|
  {
    if paths != [] {
      StaysDict(j, paths[..|paths| - 1]);
    }
  }

  /** Nothing left over is empty, and pruning it again changes nothing. */
  lemma LeftoverIsPruned(source: Json, consumed: set<Path>, rest: Json, p: Path)
    requires source.JObj? && Listed(consumed, source, rest)
    ensures Prune(rest) == rest
    ensures p != [] && At(rest, p).Some? ==> At(rest, p).value !in {JNull, JArr([]), JStr(""), JObj(map[])}
  {
    var paths: seq<Path> :| (forall q :: q in paths <==> q in consumed) && Proper(paths)
      && rest == Prune(PopAll(source, paths));
    PruneIdempotent(PopAll(source, paths));
    if p != [] && At(rest, p).Some? {
      PruneLeavesNoEmpty(PopAll(source, paths), p);
    }
  }
}
