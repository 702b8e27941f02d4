/**
 * Combining a manifest's `dependencies` and `devDependencies` into one map,
 * as `{ ...pkgJson.dependencies, ...pkgJson.devDependencies }` does after
 * both fields have been defaulted to objects (bin/main.js:95-100).
 */
module DepMerge {
  import opened JsValues

  /**
   * `obj[name] = version`: an existing property keeps its position and takes
   * the new value; a new property is appended.
   */
  function Assign(obj: Props, name: string, version: string): (r: Props)
    ensures Names(r) == Names(obj) + {name}
    ensures Lookup(r, name) == Some(version)
    ensures forall n :: n != name ==> Lookup(r, n) == Lookup(obj, n)
    ensures |r| == if name in Names(obj) then |obj| else |obj| + 1
    ensures forall i :: 0 <= i < |obj| ==> r[i].0 == obj[i].0
  {
    if obj == [] then Single((name, version))
    else if obj[0].0 == name then [(name, version)] + obj[1..]
    else
      var tail: Props := obj[1..];
      [obj[0]] + Assign(tail, name, version)
  }

  /**
   * Spreading `src` into `target`: each property of `src` is assigned in
   * order, so on a shared name the value from `src` wins while the name keeps
   * its place from `target`, and the names new to `target` follow in `src`'s
   * own order.
   */
  function Spread(target: Props, src: Props): (r: Props)
    ensures Names(r) == Names(target) + Names(src)
    ensures forall n :: n in Names(src) ==> Lookup(r, n) == Lookup(src, n)
    ensures forall n :: n !in Names(src) ==> Lookup(r, n) == Lookup(target, n)
    ensures |r| >= |target|
    ensures forall i :: 0 <= i < |target| ==> r[i].0 == target[i].0
    ensures r[|target|..] == Fresh(Names(target), src)
    decreases src
  {
    if src == [] then target
    else
      var rest: Props := src[1..];
      var updated := Assign(target, src[0].0, src[0].1);
      var r := Spread(updated, rest);
      if src[0].0 in Names(target) then
        SpreadStepKnown(target, src, updated, r);
        r
      else
        AssignAppends(target, src[0].0, src[0].1);
        assert r[|target|].0 == updated[|target|].0;
        SpreadStepFresh(target, src, r);
        r
  }

  /** The entries of `src` whose names are not in `names`, in `src`'s order. */
  function Fresh(names: set<string>, src: seq<(string, string)>): seq<(string, string)>
  {
    if src == [] then []
    else (if src[0].0 in names then [] else [src[0]]) + Fresh(names, src[1..])
  }

  /** A name that `src` does not hold makes no difference to which of its entries are fresh. */
  lemma {:induction false} FreshIgnores(names: set<string>, n: string, src: seq<(string, string)>)
    requires n !in Names(src)
    ensures Fresh(names + {n}, src) == Fresh(names, src)
  {
    if src != [] {
      FreshIgnores(names, n, src[1..]);
    }
  }

  /** A step of Spread on a shared name: the first property of `src` adds nothing after `target`. */
  lemma SpreadStepKnown(target: Props, src: Props, updated: Props, r: Props)
    requires src != [] && src[0].0 in Names(target)
    requires Names(updated) == Names(target) && |updated| == |target| <= |r|
    requires r[|updated|..] == Fresh(Names(updated), src[1..])
    ensures r[|target|..] == Fresh(Names(target), src)
  {
    assert Fresh(Names(target), src) == [] + Fresh(Names(target), src[1..]);
  }

  /** A step of Spread on a new name: the first property of `src` lands right after `target`. */
  lemma SpreadStepFresh(target: Props, src: Props, r: Props)
    requires src != [] && src[0].0 !in Names(target)
    requires |r| > |target| && r[|target|].0 == src[0].0
    requires Lookup(r, src[0].0) == Some(src[0].1)
    requires r[|target| + 1..] == Fresh(Names(target) + {src[0].0}, src[1..])
    ensures r[|target|..] == Fresh(Names(target), src)
  {
    var k := |target|;
    LookupAt(r, k);
    FreshIgnores(Names(target), src[0].0, src[1..]);
    assert r[k..] == [r[k]] + r[k + 1..];
  }

  /** An object has as many properties as it has distinct names. */
  lemma {:induction false} KeyedSize(props: Props)
    ensures |Names(props)| == |props|
  {
    if props != [] {
      var rest: Props := props[1..];
      KeyedSize(rest);
    }
  }

  /** The properties that spreading `v` contributes; null contributes none. */
  function PropsOf(v: Json): Props
  {
    if v.Object? then v.props else []
  }

  /**
   * The in-place defaulting of a manifest field: anything that is not of
   * type 'object' is replaced by `{}`; objects (and null) are kept.
   */
  function DefaultToObject(v: Json): (r: Json)
    ensures IsObjectType(r)
    ensures IsObjectType(v) ==> r == v
    ensures !IsObjectType(v) ==> r == Object([])
  {
    if IsObjectType(v) then v else Object([])
  }

  /**
   * `{ ...deps, ...devDeps }` over two defaulted manifest fields: the names
   * are those of both fields, a `devDependencies` entry wins on a shared
   * name, the `dependencies` names come first in their own order, and the
   * names found only in `devDependencies` follow in theirs.
   */
  function MergeDependencies(deps: Json, devDeps: Json): (r: Props)
    requires IsObjectType(deps) && IsObjectType(devDeps)
    ensures Names(r) == Names(PropsOf(deps)) + Names(PropsOf(devDeps))
    ensures forall n :: n in Names(PropsOf(devDeps)) ==> Lookup(r, n) == Lookup(PropsOf(devDeps), n)
    ensures forall n :: n !in Names(PropsOf(devDeps)) ==> Lookup(r, n) == Lookup(PropsOf(deps), n)
    ensures |r| >= |PropsOf(deps)|
    ensures forall i :: 0 <= i < |PropsOf(deps)| ==> r[i].0 == PropsOf(deps)[i].0
    ensures r[|PropsOf(deps)|..] == Fresh(Names(PropsOf(deps)), PropsOf(devDeps))
  {
    SpreadIntoEmpty(PropsOf(deps));
    Spread(Spread([], PropsOf(deps)), PropsOf(devDeps))
  }

  /**
   * Defaulting both fields first makes the merge total: whatever the two
   * fields hold, the merged map is defined, a field that was not an object
   * contributes no name, and the result has one entry per distinct name.
   */
  lemma DefaultedMergeIsTotal(deps: Json, devDeps: Json)
    ensures IsObjectType(DefaultToObject(deps)) && IsObjectType(DefaultToObject(devDeps))
    ensures var r := MergeDependencies(DefaultToObject(deps), DefaultToObject(devDeps));
      && Names(r) == Names(PropsOf(deps)) + Names(PropsOf(devDeps))
      && |r| == |Names(PropsOf(deps)) + Names(PropsOf(devDeps))|
  {
    var r := MergeDependencies(DefaultToObject(deps), DefaultToObject(devDeps));
    KeyedSize(r);
  }

  /** Spreading an object into `{}` copies it exactly. */
  lemma {:induction false} SpreadIntoEmpty(src: Props)
    ensures Spread([], src) == src
  {
    SpreadCopies([], src);
  }

  /** Spreading into an object none of whose names occur in `src` appends `src`. */
  lemma {:induction false} SpreadCopies(target: Props, src: Props)
    requires Names(target) !! Names(src)
    ensures Spread(target, src) == target + src
    decreases src
  {
    if src != [] {
      var rest: Props := src[1..];
      var first: Props := Single(src[0]);
      NamesAppend(target, first);
      KeyedAppend(target, first);
      var t': Props := target + first;
      AssignAppends(target, src[0].0, src[0].1);
      assert Spread(target, src) == Spread(t', rest);
      assert Names(t') !! Names(rest);
      SpreadCopies(t', rest);
      assert t' + rest == target + src;
    }
  }

  /** A one-property object. */
  function Single(e: (string, string)): (r: Props)
    ensures r == [e] && Names(r) == {e.0}
  {
    assert [e][1..] == [] && Names([]) == {} && Keyed([]);
    [e]
  }

  /** The names of a concatenation are the names of its parts. */
  lemma {:induction false} NamesAppend(a: seq<(string, string)>, b: seq<(string, string)>)
    ensures Names(a + b) == Names(a) + Names(b)
  {
    if a == [] {
      assert a + b == b;
    } else {
      assert (a + b)[0] == a[0];
      assert (a + b)[1..] == a[1..] + b;
      NamesAppend(a[1..], b);
    }
  }

  /** Two objects with no name in common concatenate to an object. */
  lemma {:induction false} KeyedAppend(a: Props, b: Props)
    requires Names(a) !! Names(b)
    ensures Keyed(a + b)
  {
    if a == [] {
      assert a + b == b;
    } else {
      var tail: Props := a[1..];
      assert (a + b)[0] == a[0];
      assert (a + b)[1..] == tail + b;
      NamesAppend(tail, b);
      KeyedAppend(tail, b);
    }
  }

  /** Assigning a new name appends it. */
  lemma {:induction false} AssignAppends(obj: Props, name: string, version: string)
    requires name !in Names(obj)
    ensures Assign(obj, name, version) == obj + [(name, version)]
  {
    if obj != [] {
      var tail: Props := obj[1..];
      AssignAppends(tail, name, version);
      assert [obj[0]] + (tail + [(name, version)]) == obj + [(name, version)];
    }
  }
}
