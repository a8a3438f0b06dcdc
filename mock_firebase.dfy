/**
 * The in-memory stand-in for Firebase (`backend/mock_firebase.py`): one
 * module-global tree of nested dicts, addressed by slash-separated paths, that
 * realtime-database references, Firestore-style collections and the mock
 * authentication service all read and write.
 *
 * A dict is a sequence of entries in insertion order, as a Python dict
 * iterates; the model never stores a key twice, and lookups take the last
 * entry with the key. Python objects are values here: the aliasing of a dict
 * handed out by `get` and later mutated is not modelled.
 */
module MockFirebase {
  import opened Common

  datatype Value =
    | Dict(entries: seq<Entry>)
    | Str(s: string)
    | Int(i: int)
    | Real(r: real)
    | Bool(b: bool)
    | Null

  datatype Entry = Entry(key: string, value: Value)

  /** What a Python call does: return `value`, or raise the exception named by `error`. */
  datatype Res<T> = Ok(value: T) | Raised(error: string)

  const EmptyDict: Value := Dict([])

  // ---------------------------------------------------------------------------
  // Dicts
  // ---------------------------------------------------------------------------

  /** `d.get(k)`: the value stored under `k`, if any. */
  function Lookup(es: seq<Entry>, k: string): Option<Value>
    decreases |es|
  {
    if es == [] then None
    else if es[|es| - 1].key == k then Some(es[|es| - 1].value)
    else Lookup(es[..|es| - 1], k)
  }

  /** `d[k] = v`: replaces the value of a present key in its place, appends an absent one. */
  function Assign(es: seq<Entry>, k: string, v: Value): seq<Entry>
  {
    if Lookup(es, k).None? then es + [Entry(k, v)] else Replace(es, k, v)
  }

  function Replace(es: seq<Entry>, k: string, v: Value): (r: seq<Entry>)
    decreases |es|
  {
    if es == [] then []
    else if es[|es| - 1].key == k then es[..|es| - 1] + [Entry(k, v)]
    else Replace(es[..|es| - 1], k, v) + [es[|es| - 1]]
  }

  /** `del d[k]`. */
  function Delete(es: seq<Entry>, k: string): seq<Entry>
    decreases |es|
  {
    if es == [] then []
    else Delete(es[..|es| - 1], k) + (if es[|es| - 1].key == k then [] else [es[|es| - 1]])
  }

  /** `a.update(b)`: the entries of `b` assigned into `a` one after the other. */
  function Merge(a: seq<Entry>, b: seq<Entry>): seq<Entry>
    decreases |b|
  {
    if b == [] then a
    else Assign(Merge(a, b[..|b| - 1]), b[|b| - 1].key, b[|b| - 1].value)
  }

  lemma {:induction false} LookupReplace(es: seq<Entry>, k: string, v: Value, k2: string)
    requires Lookup(es, k).Some?
    ensures Lookup(Replace(es, k, v), k2) == if k2 == k then Some(v) else Lookup(es, k2)
    ensures |Replace(es, k, v)| == |es|
    ensures forall i :: 0 <= i < |es| ==> Replace(es, k, v)[i].key == es[i].key
    decreases |es|
  {
    var init := es[..|es| - 1];
    var last := es[|es| - 1];
    if last.key == k {
      assert (init + [Entry(k, v)])[..|es| - 1] == init;
    } else {
      LookupReplace(init, k, v, k2);
      var r := Replace(init, k, v);
      assert (r + [last])[..|r|] == r;
    }
  }

  /** Assignment makes `k` read `v` and leaves every other key as it was. */
  lemma LookupAssign(es: seq<Entry>, k: string, v: Value, k2: string)
    ensures Lookup(Assign(es, k, v), k2) == if k2 == k then Some(v) else Lookup(es, k2)
  {
    if Lookup(es, k).None? {
      assert (es + [Entry(k, v)])[..|es|] == es;
    } else {
      LookupReplace(es, k, v, k2);
    }
  }

  /**
   * Python's insertion order: assigning a present key keeps every key in its
   * place, assigning an absent one appends it.
   */
  lemma AssignKeepsOrder(es: seq<Entry>, k: string, v: Value)
    ensures Lookup(es, k).Some? ==> |Assign(es, k, v)| == |es|
    ensures Lookup(es, k).None? ==> |Assign(es, k, v)| == |es| + 1 && Assign(es, k, v)[|es|] == Entry(k, v)
    ensures forall i :: 0 <= i < |es| ==> Assign(es, k, v)[i].key == es[i].key
  {
    if Lookup(es, k).Some? {
      LookupReplace(es, k, v, k);
    }
  }

  /** After `del d[k]`, `k` is absent and every other key reads as before. */
  lemma {:induction false} LookupDelete(es: seq<Entry>, k: string, k2: string)
    ensures Lookup(Delete(es, k), k2) == if k2 == k then None else Lookup(es, k2)
    decreases |es|
  {
    if es != [] {
      var init := es[..|es| - 1];
      var last := es[|es| - 1];
      LookupDelete(init, k, k2);
      var d := Delete(init, k);
      if last.key != k {
        assert (d + [last])[..|d|] == d;
      } else {
        assert d + [] == d;
      }
    }
  }

  /** `a.update(b)`: the keys of `b` read as in `b`, every other key as in `a`. */
  lemma {:induction false} LookupMerge(a: seq<Entry>, b: seq<Entry>, k: string)
    ensures Lookup(Merge(a, b), k) == if Lookup(b, k).Some? then Lookup(b, k) else Lookup(a, k)
    decreases |b|
  {
    if b != [] {
      LookupMerge(a, b[..|b| - 1], k);
      LookupAssign(Merge(a, b[..|b| - 1]), b[|b| - 1].key, b[|b| - 1].value, k);
    }
  }

  /** `a.update(b)` keeps the keys of `a` in their places; new keys come after them. */
  lemma {:induction false} MergeKeepsOrder(a: seq<Entry>, b: seq<Entry>)
    ensures |Merge(a, b)| >= |a|
    ensures forall i :: 0 <= i < |a| ==> Merge(a, b)[i].key == a[i].key
    decreases |b|
  {
    if b != [] {
      MergeKeepsOrder(a, b[..|b| - 1]);
      AssignKeepsOrder(Merge(a, b[..|b| - 1]), b[|b| - 1].key, b[|b| - 1].value);
    }
  }

  // ---------------------------------------------------------------------------
  // Paths: `path.strip('/').split('/')`
  // ---------------------------------------------------------------------------

  /** `s.lstrip('/')`: drops the leading slashes and nothing else. */
  function StripLeft(s: string): (r: string)
    ensures |r| <= |s| && r == s[|s| - |r|..]
    ensures r == [] || r[0] != '/'
    ensures forall k :: 0 <= k < |s| - |r| ==> s[k] == '/'
    decreases |s|
  {
    if s != [] && s[0] == '/' then StripLeft(s[1..]) else s
  }

  /** `s.rstrip('/')`: drops the trailing slashes and nothing else. */
  function StripRight(s: string): (r: string)
    ensures |r| <= |s| && r == s[..|r|]
    ensures r == [] || r[|r| - 1] != '/'
    ensures forall k :: |r| <= k < |s| ==> s[k] == '/'
    decreases |s|
  {
    if s != [] && s[|s| - 1] == '/' then StripRight(s[..|s| - 1]) else s
  }

  function StripSlashes(s: string): string
  {
    StripRight(StripLeft(s))
  }

  /** The first position of `c` in `s`. */
  function IndexOf(s: string, c: char): (i: nat)
    requires c in s
    ensures i < |s| && s[i] == c && c !in s[..i]
    decreases |s|
  {
    if s[0] == c then 0
    else
      var j := IndexOf(s[1..], c);
      assert s[..j + 1] == [s[0]] + s[1..][..j];
      j + 1
  }

  lemma IndexOfUnique(s: string, c: char, j: nat)
    requires j < |s| && s[j] == c && c !in s[..j]
    ensures IndexOf(s, c) == j
  {
  }

  /** `s.split('/')`: the pieces between the slashes, never none. */
  function Split(s: string): (parts: seq<string>)
    ensures |parts| >= 1
    decreases |s|
  {
    if '/' !in s then [s]
    else
      var i := IndexOf(s, '/');
      [s[..i]] + Split(s[i + 1..])
  }

  /** `'/'.join(parts)`. */
  function Join(parts: seq<string>): string
    requires |parts| >= 1
    decreases |parts|
  {
    if |parts| == 1 then parts[0] else parts[0] + "/" + Join(parts[1..])
  }

  /** The components a reference walks for `path`. */
  function PathParts(path: string): seq<string>
  {
    Split(StripSlashes(path))
  }

  /** A path component: not empty and without a slash. */
  predicate Segment(s: string)
  {
    s != [] && '/' !in s
  }

  /** Neither empty nor starting or ending with a slash: `strip('/')` leaves it alone. */
  predicate Clean(s: string)
  {
    s != [] && s[0] != '/' && s[|s| - 1] != '/'
  }

  lemma StripClean(s: string)
    requires Clean(s)
    ensures StripSlashes(s) == s
  {
    assert StripLeft(s) == s;
  }

  /** The first slash of `s` ends its first piece. */
  lemma SplitAt(s: string, i: nat)
    requires i < |s| && s[i] == '/' && '/' !in s[..i]
    ensures Split(s) == [s[..i]] + Split(s[i + 1..])
  {
    IndexOfUnique(s, '/', i);
  }

  /** Splitting at a slash splits the two sides independently. */
  lemma {:induction false} SplitAppend(a: string, b: string)
    ensures Split(a + "/" + b) == Split(a) + Split(b)
    decreases |a|
  {
    if '/' !in a {
      SplitAppendFirst(a, b);
    } else {
      var i := IndexOf(a, '/');
      SplitAppend(a[i + 1..], b);
      SplitAppendLater(a, b, i);
    }
  }

  /** When `a` has no slash, the slash after it ends the first piece. */
  lemma SplitAppendFirst(a: string, b: string)
    requires '/' !in a
    ensures Split(a + "/" + b) == [a] + Split(b)
  {
    var s := a + "/" + b;
    assert s[..|a|] == a && s[|a|] == '/' && s[|a| + 1..] == b;
    SplitAt(s, |a|);
  }

  /** When `a` has a slash at `i`, both `a` and `a/b` lose the same first piece. */
  lemma SplitAppendLater(a: string, b: string, i: nat)
    requires i < |a| && a[i] == '/' && '/' !in a[..i]
    requires Split(a[i + 1..] + "/" + b) == Split(a[i + 1..]) + Split(b)
    ensures Split(a + "/" + b) == Split(a) + Split(b)
  {
    var s := a + "/" + b;
    SlashInPrefix(a, b, i);
    SplitAt(s, i);
    SplitAt(a, i);
    ConsAppend(a[..i], Split(a[i + 1..]), Split(b));
  }

  /** The first slash of `a` is also the first slash of `a/b`. */
  lemma SlashInPrefix(a: string, b: string, i: nat)
    requires i < |a| && a[i] == '/' && '/' !in a[..i]
    ensures var s := a + "/" + b;
      i < |s| && s[i] == '/' && s[..i] == a[..i] && s[i + 1..] == a[i + 1..] + "/" + b
  {
  }

  lemma ConsAppend(head: string, rest: seq<string>, tail: seq<string>)
    ensures [head] + (rest + tail) == ([head] + rest) + tail
  {
  }

  /** Joining components without slashes and splitting again gives them back. */
  lemma {:induction false} SplitJoin(parts: seq<string>)
    requires |parts| >= 1
    requires forall k :: 0 <= k < |parts| ==> '/' !in parts[k]
    ensures Split(Join(parts)) == parts
    decreases |parts|
  {
    if |parts| > 1 {
      SplitJoin(parts[1..]);
      SplitJoinStep(parts);
    }
  }

  /** One component more: the step of `SplitJoin`. */
  lemma SplitJoinStep(parts: seq<string>)
    requires |parts| > 1 && '/' !in parts[0]
    requires Split(Join(parts[1..])) == parts[1..]
    ensures Split(Join(parts)) == parts
  {
    assert Join(parts) == parts[0] + "/" + Join(parts[1..]);
    SplitAppend(parts[0], Join(parts[1..]));
    assert Split(parts[0]) == [parts[0]];
    assert parts == [parts[0]] + parts[1..];
  }

  lemma {:induction false} JoinClean(parts: seq<string>)
    requires |parts| >= 1
    requires forall k :: 0 <= k < |parts| ==> Segment(parts[k])
    ensures Clean(Join(parts))
    decreases |parts|
  {
    if |parts| > 1 {
      JoinClean(parts[1..]);
      var rest := Join(parts[1..]);
      var s := parts[0] + "/" + rest;
      assert s[0] == parts[0][0];
      assert s[|s| - 1] == rest[|rest| - 1];
    }
  }

  /** A path written as slash-joined segments is walked component by component. */
  lemma JoinedPath(parts: seq<string>)
    requires |parts| >= 1
    requires forall k :: 0 <= k < |parts| ==> Segment(parts[k])
    ensures PathParts(Join(parts)) == parts
  {
    JoinClean(parts);
    StripClean(Join(parts));
    SplitJoin(parts);
  }

  lemma {:induction false} JoinSnoc(parts: seq<string>, p: string)
    requires |parts| >= 1
    ensures Join(parts + [p]) == Join(parts) + "/" + p
    decreases |parts|
  {
    if |parts| > 1 {
      assert (parts + [p])[1..] == parts[1..] + [p];
      JoinSnoc(parts[1..], p);
    } else {
      assert (parts + [p])[1..] == [p];
    }
  }

  /** `child(p)` on a clean path walks the parent's components and then those of `p`. */
  lemma ChildPath(path: string, p: string)
    requires Clean(path) && Clean(p)
    ensures PathParts(path + "/" + p) == PathParts(path) + PathParts(p)
  {
    var s := path + "/" + p;
    assert s[0] == path[0] && s[|s| - 1] == p[|p| - 1];
    StripClean(s);
    StripClean(path);
    StripClean(p);
    SplitAppend(path, p);
  }

  // ---------------------------------------------------------------------------
  // Walking the tree
  // ---------------------------------------------------------------------------

  /** `p in s` on a string `s` is a substring test. */
  predicate IsSubstring(p: string, s: string)
  {
    exists i :: 0 <= i <= |s| && OccursAt(p, s, i)
  }

  predicate OccursAt(p: string, s: string, i: nat)
  {
    i + |p| <= |s| && s[i..i + |p|] == p
  }

  /**
   * `_get_value_at_path`: walks the components from `cur`; a missing component
   * gives `{}`. On a string, `part not in current` is a substring test, and a
   * component that does occur fails when the string is indexed by it; any
   * other leaf fails the membership test.
   */
  function GetAt(cur: Value, parts: seq<string>): Res<Value>
    decreases |parts|
  {
    if parts == [] then Ok(cur)
    else if cur.Dict? then
      var c := Lookup(cur.entries, parts[0]);
      if c.None? then Ok(EmptyDict) else GetAt(c.value, parts[1..])
    else if cur.Str? && !IsSubstring(parts[0], cur.s) then Ok(EmptyDict)
    else Raised("TypeError")
  }

  /** The node stored at `parts`, when every component is present. */
  function NodeAt(cur: Value, parts: seq<string>): Option<Value>
    decreases |parts|
  {
    if parts == [] then Some(cur)
    else if cur.Dict? && Lookup(cur.entries, parts[0]).Some? then NodeAt(Lookup(cur.entries, parts[0]).value, parts[1..])
    else None
  }

  /** The child a walk that creates missing components steps into. */
  function ChildOrEmpty(es: seq<Entry>, k: string): Value
  {
    var c := Lookup(es, k);
    if c.Some? then c.value else EmptyDict
  }

  /**
   * `_set_value_at_path`: creates an empty dict for each missing intermediate
   * component and assigns the last one; meeting a leaf on the way fails.
   */
  function SetAt(cur: Value, parts: seq<string>, v: Value): (r: Res<Value>)
    requires parts != []
    ensures r.Ok? ==> r.value.Dict?
    decreases |parts|
  {
    if !cur.Dict? then Raised("TypeError")
    else if |parts| == 1 then Ok(Dict(Assign(cur.entries, parts[0], v)))
    else
      var r := SetAt(ChildOrEmpty(cur.entries, parts[0]), parts[1..], v);
      if r.Raised? then r else Ok(Dict(Assign(cur.entries, parts[0], r.value)))
  }

  /** `_ensure_path_exists`: creates an empty dict for each missing component. */
  function EnsureAt(cur: Value, parts: seq<string>): (r: Res<Value>)
    ensures parts != [] && r.Ok? ==> r.value.Dict?
    decreases |parts|
  {
    if parts == [] then Ok(cur)
    else if !cur.Dict? then Raised("TypeError")
    else
      var r := EnsureAt(ChildOrEmpty(cur.entries, parts[0]), parts[1..]);
      if r.Raised? then r else Ok(Dict(Assign(cur.entries, parts[0], r.value)))
  }

  /** `del parent[key]` on the dict stored at `parts`; the tree is unchanged when there is none. */
  function DeleteAt(cur: Value, parts: seq<string>, key: string): (r: Value)
    ensures cur.Dict? ==> r.Dict?
    decreases |parts|
  {
    if !cur.Dict? then cur
    else if parts == [] then Dict(Delete(cur.entries, key))
    else
      var c := Lookup(cur.entries, parts[0]);
      if c.None? then cur else Dict(Assign(cur.entries, parts[0], DeleteAt(c.value, parts[1..], key)))
  }

  /**
   * `remove`: on a path of two or more components, reads the parent (the
   * components but the last, joined and split again) and deletes the last
   * component from it when it is a dict holding it; a one-component path is
   * left alone.
   */
  function RemoveAt(root: Value, parts: seq<string>): (r: Res<Value>)
    ensures |parts| <= 1 ==> r == Ok(root)
  {
    if |parts| <= 1 then Ok(root)
    else
      var parent := PathParts(Join(parts[..|parts| - 1]));
      var last := parts[|parts| - 1];
      var pv := GetAt(root, parent);
      if pv.Raised? then Raised(pv.error)
      else if pv.value.Dict? && Lookup(pv.value.entries, last).Some? then Ok(DeleteAt(root, parent, last))
      else Ok(root)
  }

  /** `update`: merges a dict into the dict stored at the path; otherwise sets the value. */
  function UpdateAt(root: Value, parts: seq<string>, v: Value): Res<Value>
    requires parts != []
  {
    var current := GetAt(root, parts);
    if current.Raised? then Raised(current.error)
    else if current.value.Dict? && v.Dict? then SetAt(root, parts, Dict(Merge(current.value.entries, v.entries)))
    else SetAt(root, parts, v)
  }

  /** Two paths that part ways at some component. */
  predicate Diverge(p: seq<string>, q: seq<string>)
    decreases |p|
  {
    p != [] && q != [] && (p[0] != q[0] || Diverge(p[1..], q[1..]))
  }

  lemma GetEmpty(q: seq<string>)
    ensures GetAt(EmptyDict, q) == Ok(EmptyDict)
  {
  }

  /** A node stored at a path is what `get` returns there. */
  lemma {:induction false} GetPresent(cur: Value, q: seq<string>)
    requires NodeAt(cur, q).Some?
    ensures GetAt(cur, q) == Ok(NodeAt(cur, q).value)
    decreases |q|
  {
    if q != [] {
      GetPresent(Lookup(cur.entries, q[0]).value, q[1..]);
    }
  }

  /** `get` after `set` on the same path reads the value set. */
  lemma {:induction false} GetAfterSet(cur: Value, parts: seq<string>, v: Value)
    requires parts != [] && SetAt(cur, parts, v).Ok?
    ensures GetAt(SetAt(cur, parts, v).value, parts) == Ok(v)
    decreases |parts|
  {
    var es := cur.entries;
    if |parts| == 1 {
      LookupAssign(es, parts[0], v, parts[0]);
      assert parts[1..] == [];
    } else {
      var r := SetAt(ChildOrEmpty(es, parts[0]), parts[1..], v);
      GetAfterSet(ChildOrEmpty(es, parts[0]), parts[1..], v);
      LookupAssign(es, parts[0], r.value, parts[0]);
    }
  }

  /** `set` leaves what `get` reads on every path that parts ways with its own. */
  lemma {:induction false} SetKeepsOthers(cur: Value, parts: seq<string>, v: Value, q: seq<string>)
    requires parts != [] && SetAt(cur, parts, v).Ok? && Diverge(parts, q)
    ensures GetAt(SetAt(cur, parts, v).value, q) == GetAt(cur, q)
    decreases |parts|
  {
    var es := cur.entries;
    var child := ChildOrEmpty(es, parts[0]);
    if |parts| == 1 {
      LookupAssign(es, parts[0], v, q[0]);
    } else {
      var r := SetAt(child, parts[1..], v);
      LookupAssign(es, parts[0], r.value, q[0]);
      if parts[0] == q[0] {
        SetKeepsOthers(child, parts[1..], v, q[1..]);
        GetEmpty(q[1..]);
      }
    }
  }

  /** `_ensure_path_exists` leaves what `get` reads on every path that parts ways with its own. */
  lemma {:induction false} EnsureKeepsOthers(cur: Value, parts: seq<string>, q: seq<string>)
    requires EnsureAt(cur, parts).Ok? && Diverge(parts, q)
    ensures GetAt(EnsureAt(cur, parts).value, q) == GetAt(cur, q)
    decreases |parts|
  {
    var es := cur.entries;
    var child := ChildOrEmpty(es, parts[0]);
    var r := EnsureAt(child, parts[1..]);
    LookupAssign(es, parts[0], r.value, q[0]);
    if parts[0] == q[0] {
      EnsureKeepsOthers(child, parts[1..], q[1..]);
      GetEmpty(q[1..]);
    }
  }

  /** Once the path exists, the node there is the one that was there, or a new `{}`. */
  lemma {:induction false} EnsureReaches(cur: Value, parts: seq<string>)
    requires EnsureAt(cur, parts).Ok?
    ensures NodeAt(EnsureAt(cur, parts).value, parts) ==
      Some(if NodeAt(cur, parts).Some? then NodeAt(cur, parts).value else EmptyDict)
    decreases |parts|
  {
    if parts != [] {
      var es := cur.entries;
      var child := ChildOrEmpty(es, parts[0]);
      var r := EnsureAt(child, parts[1..]);
      EnsureReaches(child, parts[1..]);
      LookupAssign(es, parts[0], r.value, parts[0]);
    }
  }

  /** Creating a path never overwrites a stored leaf, wherever it is. */
  lemma {:induction false} EnsureKeepsLeaves(cur: Value, parts: seq<string>, q: seq<string>)
    requires EnsureAt(cur, parts).Ok? && NodeAt(cur, q).Some? && !NodeAt(cur, q).value.Dict?
    ensures NodeAt(EnsureAt(cur, parts).value, q) == NodeAt(cur, q)
    decreases |q|
  {
    if parts != [] && q != [] {
      var es := cur.entries;
      var child := ChildOrEmpty(es, parts[0]);
      var r := EnsureAt(child, parts[1..]);
      LookupAssign(es, parts[0], r.value, q[0]);
      if parts[0] == q[0] {
        EnsureKeepsLeaves(child, parts[1..], q[1..]);
      }
    }
  }

  lemma {:induction false} ReplaceSame(es: seq<Entry>, k: string, v: Value)
    requires Lookup(es, k) == Some(v)
    ensures Replace(es, k, v) == es
    decreases |es|
  {
    if es[|es| - 1].key != k {
      ReplaceSame(es[..|es| - 1], k, v);
    }
  }

  /** A reference to a path that already exists changes nothing. */
  lemma {:induction false} EnsurePresent(cur: Value, parts: seq<string>)
    requires NodeAt(cur, parts).Some?
    ensures EnsureAt(cur, parts) == Ok(cur)
    decreases |parts|
  {
    if parts != [] {
      var c := Lookup(cur.entries, parts[0]).value;
      EnsurePresent(c, parts[1..]);
      ReplaceSame(cur.entries, parts[0], c);
    }
  }

  lemma {:induction false} NodeAtSnoc(cur: Value, ps: seq<string>, k: string)
    ensures NodeAt(cur, ps + [k]) ==
      if NodeAt(cur, ps).Some? && NodeAt(cur, ps).value.Dict? then Lookup(NodeAt(cur, ps).value.entries, k) else None
    decreases |ps|
  {
    if ps == [] {
      assert (ps + [k])[1..] == [];
    } else {
      assert (ps + [k])[1..] == ps[1..] + [k];
      if cur.Dict? && Lookup(cur.entries, ps[0]).Some? {
        NodeAtSnoc(Lookup(cur.entries, ps[0]).value, ps[1..], k);
      }
    }
  }

  /** A dict `get` returns that holds a key is a node of the tree, not the `{}` of a missing path. */
  lemma {:induction false} GetFindsNode(cur: Value, q: seq<string>, k: string)
    requires GetAt(cur, q).Ok? && GetAt(cur, q).value.Dict? && Lookup(GetAt(cur, q).value.entries, k).Some?
    ensures NodeAt(cur, q) == Some(GetAt(cur, q).value)
    decreases |q|
  {
    if q != [] {
      GetFindsNode(Lookup(cur.entries, q[0]).value, q[1..], k);
    }
  }

  lemma {:induction false} DeleteAtTarget(cur: Value, ps: seq<string>, key: string)
    requires NodeAt(cur, ps).Some? && NodeAt(cur, ps).value.Dict?
    ensures NodeAt(DeleteAt(cur, ps, key), ps) == Some(Dict(Delete(NodeAt(cur, ps).value.entries, key)))
    decreases |ps|
  {
    if ps != [] {
      var c := Lookup(cur.entries, ps[0]).value;
      DeleteAtTarget(c, ps[1..], key);
      LookupAssign(cur.entries, ps[0], DeleteAt(c, ps[1..], key), ps[0]);
    }
  }

  lemma {:induction false} DeleteAtOthers(cur: Value, ps: seq<string>, key: string, q: seq<string>)
    requires NodeAt(cur, ps).Some? && Diverge(ps, q)
    ensures NodeAt(DeleteAt(cur, ps, key), q) == NodeAt(cur, q)
    decreases |ps|
  {
    var c := Lookup(cur.entries, ps[0]).value;
    LookupAssign(cur.entries, ps[0], DeleteAt(c, ps[1..], key), q[0]);
    if ps[0] == q[0] {
      DeleteAtOthers(c, ps[1..], key, q[1..]);
    }
  }

  /**
   * `remove` on a path of segments: afterwards nothing is stored at the path,
   * the parent's other keys read as before, and so does every path that parts
   * ways with the parent's.
   */
  lemma RemoveDeletesOnlyTarget(root: Value, parts: seq<string>, k: string, q: seq<string>)
    requires |parts| >= 2 && forall i :: 0 <= i < |parts| ==> Segment(parts[i])
    requires RemoveAt(root, parts).Ok?
    ensures NodeAt(RemoveAt(root, parts).value, parts) == None
    ensures k != parts[|parts| - 1] ==>
      NodeAt(RemoveAt(root, parts).value, parts[..|parts| - 1] + [k]) == NodeAt(root, parts[..|parts| - 1] + [k])
    ensures Diverge(parts[..|parts| - 1], q) ==> NodeAt(RemoveAt(root, parts).value, q) == NodeAt(root, q)
  {
    var parent := parts[..|parts| - 1];
    var last := parts[|parts| - 1];
    RemoveAtParent(root, parts);
    DropLast(parts);
    var pv := GetAt(root, parent);
    if pv.value.Dict? && Lookup(pv.value.entries, last).Some? {
      RemoveFound(root, parent, last, k, q);
    } else {
      RemoveMissing(root, parent, last);
    }
  }

  lemma DropLast(s: seq<string>)
    requires s != []
    ensures s == s[..|s| - 1] + [s[|s| - 1]]
  {
  }

  /** `remove` looks the parent up along the path's own segments. */
  lemma RemoveAtParent(root: Value, parts: seq<string>)
    requires |parts| >= 2 && forall i :: 0 <= i < |parts| ==> Segment(parts[i])
    requires RemoveAt(root, parts).Ok?
    ensures var parent := parts[..|parts| - 1];
      var last := parts[|parts| - 1];
      var pv := GetAt(root, parent);
      pv.Ok? && RemoveAt(root, parts).value ==
        if pv.value.Dict? && Lookup(pv.value.entries, last).Some? then DeleteAt(root, parent, last) else root
  {
    var parent := parts[..|parts| - 1];
    forall i | 0 <= i < |parent|
      ensures Segment(parent[i])
    {
      assert parent[i] == parts[i];
    }
    JoinedPath(parent);
  }

  /** Deleting a key the parent holds: the key is gone, nothing else moves. */
  lemma RemoveFound(root: Value, parent: seq<string>, last: string, k: string, q: seq<string>)
    requires GetAt(root, parent).Ok? && GetAt(root, parent).value.Dict?
    requires Lookup(GetAt(root, parent).value.entries, last).Some?
    ensures var n := DeleteAt(root, parent, last);
      && NodeAt(n, parent + [last]) == None
      && (k != last ==> NodeAt(n, parent + [k]) == NodeAt(root, parent + [k]))
      && (Diverge(parent, q) ==> NodeAt(n, q) == NodeAt(root, q))
  {
    var n := DeleteAt(root, parent, last);
    var pv := GetAt(root, parent);
    GetFindsNode(root, parent, last);
    DeleteAtTarget(root, parent, last);
    NodeAtSnoc(n, parent, last);
    NodeAtSnoc(n, parent, k);
    NodeAtSnoc(root, parent, k);
    LookupDelete(pv.value.entries, last, last);
    LookupDelete(pv.value.entries, last, k);
    if Diverge(parent, q) {
      DeleteAtOthers(root, parent, last, q);
    }
  }

  /** A key the parent does not hold reads as nothing already. */
  lemma RemoveMissing(root: Value, parent: seq<string>, last: string)
    requires GetAt(root, parent).Ok?
    requires !(GetAt(root, parent).value.Dict? && Lookup(GetAt(root, parent).value.entries, last).Some?)
    ensures NodeAt(root, parent + [last]) == None
  {
    NodeAtSnoc(root, parent, last);
    if NodeAt(root, parent).Some? {
      GetPresent(root, parent);
    }
  }

  /**
   * `update`: a dict merged into a dict reads the new keys from the argument
   * and every other key as before; otherwise the path reads the argument.
   * Paths that part ways with this one read as before.
   */
  lemma UpdateMerges(root: Value, parts: seq<string>, v: Value, k: string, q: seq<string>)
    requires parts != [] && UpdateAt(root, parts, v).Ok?
    ensures var before := GetAt(root, parts).value;
      var after := GetAt(UpdateAt(root, parts, v).value, parts);
      if before.Dict? && v.Dict? then
        after.Ok? && after.value.Dict? &&
        Lookup(after.value.entries, k) == (if Lookup(v.entries, k).Some? then Lookup(v.entries, k) else Lookup(before.entries, k))
      else after == Ok(v)
    ensures Diverge(parts, q) ==> GetAt(UpdateAt(root, parts, v).value, q) == GetAt(root, q)
  {
    var before := GetAt(root, parts).value;
    var w := if before.Dict? && v.Dict? then Dict(Merge(before.entries, v.entries)) else v;
    GetAfterSet(root, parts, w);
    if before.Dict? && v.Dict? {
      LookupMerge(before.entries, v.entries, k);
    }
    if Diverge(parts, q) {
      SetKeepsOthers(root, parts, w, q);
    }
  }

  // ---------------------------------------------------------------------------
  // References and queries
  // ---------------------------------------------------------------------------

  /** A `MockDatabaseReference`: its path, and what the query methods recorded on it. */
  datatype Ref = Ref(path: string, orderBy: Option<string>, limit: Option<int>)

  /** `order_by_child` records the key and returns the same reference: the path is kept. */
  function OrderByChild(r: Ref, child: string): (q: Ref)
    ensures q.path == r.path && q.orderBy == Some(child) && q.limit == r.limit
  {
    r.(orderBy := Some(child))
  }

  /** `limit_to_last` records the limit and returns the same reference: the path is kept. */
  function LimitToLast(r: Ref, n: int): (q: Ref)
    ensures q.path == r.path && q.orderBy == r.orderBy && q.limit == Some(n)
  {
    r.(limit := Some(n))
  }

  /** The module-global tree as the module creates it. */
  const InitialRoot: Value := Dict([Entry("users", EmptyDict), Entry("predictions", EmptyDict),
                                    Entry("alerts", EmptyDict), Entry("user_status", EmptyDict)])

  /** A dict a walk descended through and the key it took. */
  datatype Frame = Frame(entries: seq<Entry>, key: string)

  /** Puts `v` back under the keys a walk descended through, innermost last. */
  function Plug(frames: seq<Frame>, v: Value): Value
    decreases |frames|
  {
    if frames == [] then v
    else
      var f := frames[|frames| - 1];
      Plug(frames[..|frames| - 1], Dict(Assign(f.entries, f.key, v)))
  }

  function Lift(frames: seq<Frame>, r: Res<Value>): Res<Value>
  {
    if r.Raised? then r else Ok(Plug(frames, r.value))
  }

  lemma LiftSnoc(frames: seq<Frame>, f: Frame, r: Res<Value>)
    ensures Lift(frames + [f], r) == Lift(frames, if r.Raised? then r else Ok(Dict(Assign(f.entries, f.key, r.value))))
  {
    assert (frames + [f])[..|frames|] == frames;
  }

  /** One step of the walk in `_ensure_path_exists`: descend into (or create) the child. */
  lemma EnsureDescend(frames: seq<Frame>, current: Value, parts: seq<string>, i: nat)
    requires current.Dict? && i < |parts|
    ensures Lift(frames, EnsureAt(current, parts[i..])) ==
      Lift(frames + [Frame(current.entries, parts[i])], EnsureAt(ChildOrEmpty(current.entries, parts[i]), parts[i + 1..]))
  {
    assert parts[i..][1..] == parts[i + 1..];
    LiftSnoc(frames, Frame(current.entries, parts[i]), EnsureAt(ChildOrEmpty(current.entries, parts[i]), parts[i + 1..]));
  }

  /** The end of the walk: the tree with every component present, which is a dict when the tree was one. */
  lemma EnsureEnd(frames: seq<Frame>, current: Value, parts: seq<string>, i: nat, root: Value)
    requires i == |parts| && root.Dict?
    requires Lift(frames, EnsureAt(current, parts[i..])) == EnsureAt(root, parts)
    ensures EnsureAt(root, parts) == Ok(Plug(frames, current)) && Plug(frames, current).Dict?
  {
    assert parts[i..] == [];
  }

  /** A walk that meets a leaf before the last component fails. */
  lemma EnsureStuck(frames: seq<Frame>, current: Value, parts: seq<string>, i: nat, root: Value)
    requires !current.Dict? && i < |parts|
    requires Lift(frames, EnsureAt(current, parts[i..])) == EnsureAt(root, parts)
    ensures EnsureAt(root, parts) == Raised("TypeError")
  {
  }

  lemma SetStuck(frames: seq<Frame>, current: Value, parts: seq<string>, i: nat, v: Value, root: Value)
    requires !current.Dict? && i < |parts|
    requires Lift(frames, SetAt(current, parts[i..], v)) == SetAt(root, parts, v)
    ensures SetAt(root, parts, v) == Raised("TypeError")
  {
  }

  /** One step of the walk in `_set_value_at_path`: descend into (or create) the child. */
  lemma SetDescend(frames: seq<Frame>, current: Value, parts: seq<string>, i: nat, v: Value)
    requires current.Dict? && i + 1 < |parts|
    ensures Lift(frames, SetAt(current, parts[i..], v)) ==
      Lift(frames + [Frame(current.entries, parts[i])], SetAt(ChildOrEmpty(current.entries, parts[i]), parts[i + 1..], v))
  {
    assert parts[i..][1..] == parts[i + 1..];
    LiftSnoc(frames, Frame(current.entries, parts[i]), SetAt(ChildOrEmpty(current.entries, parts[i]), parts[i + 1..], v));
  }

  /** The last step of the walk: assign the value under the last component. */
  lemma SetLast(frames: seq<Frame>, current: Value, parts: seq<string>, i: nat, v: Value)
    requires current.Dict? && i == |parts| - 1
    ensures Lift(frames, SetAt(current, parts[i..], v)) == Ok(Plug(frames, Dict(Assign(current.entries, parts[i], v))))
  {
    assert parts[i..] == [parts[i]];
  }

  // ---------------------------------------------------------------------------
  // Firestore collections and documents
  // ---------------------------------------------------------------------------

  /** `MockCollection(name)`: an empty top-level dict for the collection unless the name is taken. */
  function WithCollection(root: Value, name: string): (r: Value)
    requires root.Dict?
    ensures r.Dict? && Lookup(r.entries, name) == Some(ChildOrEmpty(root.entries, name))
    ensures forall k :: k != name ==> Lookup(r.entries, k) == Lookup(root.entries, k)
  {
    assert forall k :: (Lookup(root.entries + [Entry(name, EmptyDict)], k) ==
      (if k == name then Some(EmptyDict) else Lookup(root.entries, k))) by {
      assert (root.entries + [Entry(name, EmptyDict)])[..|root.entries|] == root.entries;
    }
    if Lookup(root.entries, name).Some? then root else Dict(root.entries + [Entry(name, EmptyDict)])
  }

  /** `_mock_database[coll][key] = v`: KeyError without the collection, TypeError when it is not a dict. */
  function AssignIn(root: Value, coll: string, key: string, v: Value): (r: Res<Value>)
    requires root.Dict?
    ensures r.Ok? ==> r.value.Dict?
  {
    var c := Lookup(root.entries, coll);
    if c.None? then Raised("KeyError")
    else if !c.value.Dict? then Raised("TypeError")
    else Ok(Dict(Assign(root.entries, coll, Dict(Assign(c.value.entries, key, v)))))
  }

  /** `key in _mock_database.get(coll, {})`, a substring test when the collection is a string. */
  function InCollection(root: Value, coll: string, key: string): Res<bool>
    requires root.Dict?
  {
    var c := Lookup(root.entries, coll);
    if c.None? then Ok(false)
    else if c.value.Dict? then Ok(Lookup(c.value.entries, key).Some?)
    else if c.value.Str? then Ok(IsSubstring(key, c.value.s))
    else Raised("TypeError")
  }

  /** `MockCollection.document`: an empty document when the id is not in the collection. */
  function DocumentAt(root: Value, coll: string, id: string): Res<Value>
    requires root.Dict?
  {
    var present := InCollection(root, coll, id);
    if present.Raised? then Raised(present.error)
    else if present.value then Ok(root)
    else AssignIn(root, coll, id, EmptyDict)
  }

  /**
   * `MockDocument.update`: merges into a present document, otherwise stores
   * `data` as the document. Merging needs a dict document; `dict.update` takes
   * an empty string as an empty sequence of pairs, refuses any other string
   * (ValueError) and any other scalar (TypeError).
   */
  function DocUpdateAt(root: Value, coll: string, id: string, data: Value): Res<Value>
    requires root.Dict?
  {
    var present := InCollection(root, coll, id);
    if present.Raised? then Raised(present.error)
    else if !present.value then AssignIn(root, coll, id, data)
    else
      var c := Lookup(root.entries, coll).value;
      if !c.Dict? then Raised("TypeError")
      else
        var d := Lookup(c.entries, id).value;
        if !d.Dict? then Raised("AttributeError")
        else if data == Str("") then Ok(root)
        else if data.Str? then Raised("ValueError")
        else if !data.Dict? then Raised("TypeError")
        else AssignIn(root, coll, id, Dict(Merge(d.entries, data.entries)))
  }

  /** `MockDocumentSnapshot`: `present` is the snapshot's `exists`. */
  datatype DocSnapshot = DocSnapshot(id: string, data: Value, present: bool)

  /** `MockDocument.get`. */
  function DocGetAt(root: Value, coll: string, id: string): Res<DocSnapshot>
    requires root.Dict?
  {
    var present := InCollection(root, coll, id);
    var c := Lookup(root.entries, coll);
    if present.Raised? then Raised(present.error)
    else if c.None? then Ok(DocSnapshot(id, EmptyDict, false))
    else if !c.value.Dict? then Raised("AttributeError")
    else Ok(DocSnapshot(id, ChildOrEmpty(c.value.entries, id), present.value))
  }

  lemma AssignInReads(root: Value, coll: string, key: string, v: Value)
    requires root.Dict? && AssignIn(root, coll, key, v).Ok?
    ensures var c := Lookup(AssignIn(root, coll, key, v).value.entries, coll);
      c.Some? && c.value.Dict? && Lookup(c.value.entries, key) == Some(v)
  {
    var c := Lookup(root.entries, coll).value;
    LookupAssign(root.entries, coll, Dict(Assign(c.entries, key, v)), coll);
    LookupAssign(c.entries, key, v, key);
  }

  /** A document taken from a collection exists, holding what it held or `{}`. */
  lemma DocumentExists(root: Value, coll: string, id: string)
    requires root.Dict? && Lookup(root.entries, coll).Some? && Lookup(root.entries, coll).value.Dict?
    ensures DocumentAt(root, coll, id).Ok?
    ensures DocumentAt(root, coll, id).value.Dict?
    ensures DocGetAt(DocumentAt(root, coll, id).value, coll, id) ==
      Ok(DocSnapshot(id, ChildOrEmpty(Lookup(root.entries, coll).value.entries, id), true))
  {
    if Lookup(Lookup(root.entries, coll).value.entries, id).None? {
      AssignInReads(root, coll, id, EmptyDict);
    }
  }

  /** `MockDocument.set` then `get` reads the data, and the document exists. */
  lemma DocSetThenGet(root: Value, coll: string, id: string, data: Value)
    requires root.Dict? && AssignIn(root, coll, id, data).Ok?
    ensures DocGetAt(AssignIn(root, coll, id, data).value, coll, id) == Ok(DocSnapshot(id, data, true))
  {
    AssignInReads(root, coll, id, data);
  }

  /** `MockDocument.update` merges into a present document and creates an absent one. */
  lemma DocUpdateMerges(root: Value, coll: string, id: string, data: Value, k: string)
    requires root.Dict? && DocUpdateAt(root, coll, id, data).Ok?
    ensures DocGetAt(root, coll, id).Ok?
    ensures var before := DocGetAt(root, coll, id).value;
      var after := DocGetAt(DocUpdateAt(root, coll, id, data).value, coll, id);
      after.Ok? && after.value.present &&
      if before.present && !data.Dict? then after.value == before
      else if before.present then
        after.value.data.Dict? &&
        Lookup(after.value.data.entries, k) == (if Lookup(data.entries, k).Some? then Lookup(data.entries, k) else Lookup(before.data.entries, k))
      else after.value.data == data
  {
    var c := Lookup(root.entries, coll).value;
    if Lookup(c.entries, id).Some? && !data.Dict? {
    } else if Lookup(c.entries, id).Some? {
      var d := Lookup(c.entries, id).value;
      AssignInReads(root, coll, id, Dict(Merge(d.entries, data.entries)));
      LookupMerge(d.entries, data.entries, k);
    } else {
      AssignInReads(root, coll, id, data);
    }
  }

  // ---------------------------------------------------------------------------
  // Authentication
  // ---------------------------------------------------------------------------

  datatype MockUser = MockUser(email: string, uid: string, displayName: Value)

  /** `uid or f"mock-uid-..."`: an empty uid is falsy and gives way to the hash-derived one. */
  function UidOr(uid: string, fallback: string): string
  {
    if uid == "" then fallback else uid
  }

  /** What `create_user` stores for a user. */
  function UserRecord(email: string, displayName: Option<string>, createdAt: string): Value
  {
    Dict([Entry("email", Str(email)), Entry("display_name", NameValue(displayName)), Entry("created_at", Str(createdAt))])
  }

  function NameValue(displayName: Option<string>): Value
  {
    if displayName.Some? then Str(displayName.value) else Null
  }

  predicate HasEmail(v: Value, email: string)
  {
    v.Dict? && Lookup(v.entries, "email") == Some(Str(email))
  }

  function DisplayNameOf(es: seq<Entry>): Value
  {
    var d := Lookup(es, "display_name");
    if d.Some? then d.value else Null
  }

  /**
   * The loop of `get_user_by_email` over the stored users in insertion order;
   * without a match, a user with the hash-derived uid that is not stored.
   * `uidOf` stands for `f"mock-uid-{hash(email) % 10000}"`.
   */
  function FirstUser(users: seq<Entry>, email: string, uidOf: string -> string): Res<MockUser>
    decreases |users|
  {
    if users == [] then Ok(MockUser(email, uidOf(email), Null))
    else if !users[0].value.Dict? then Raised("AttributeError")
    else if HasEmail(users[0].value, email) then
      Ok(MockUser(email, UidOr(users[0].key, uidOf(email)), DisplayNameOf(users[0].value.entries)))
    else FirstUser(users[1..], email, uidOf)
  }

  function UserByEmailAt(root: Value, email: string, uidOf: string -> string): Res<MockUser>
    requires root.Dict?
  {
    var users := Lookup(root.entries, "users");
    if users.None? then Raised("KeyError")
    else if !users.value.Dict? then Raised("AttributeError")
    else FirstUser(users.value.entries, email, uidOf)
  }

  /** `create_user`: stores the record under the hash-derived uid and returns that user. */
  function CreateUserAt(root: Value, email: string, displayName: Option<string>, createdAt: string,
                        uidOf: string -> string): Res<(Value, MockUser)>
    requires root.Dict?
  {
    var uid := uidOf(email);
    var stored := AssignIn(root, "users", uid, UserRecord(email, displayName, createdAt));
    if stored.Raised? then Raised(stored.error)
    else Ok((stored.value, MockUser(email, uid, NameValue(displayName))))
  }

  /** The first stored user with the email is the one returned. */
  lemma {:induction false} FirstStoredUser(users: seq<Entry>, email: string, uidOf: string -> string, i: nat)
    requires i < |users| && HasEmail(users[i].value, email)
    requires forall j :: 0 <= j < i ==> users[j].value.Dict? && !HasEmail(users[j].value, email)
    ensures FirstUser(users, email, uidOf) ==
      Ok(MockUser(email, UidOr(users[i].key, uidOf(email)), DisplayNameOf(users[i].value.entries)))
    decreases i
  {
    if i > 0 {
      FirstStoredUser(users[1..], email, uidOf, i - 1);
    }
  }

  /** An email no stored user has gives the hash-derived uid and no display name. */
  lemma {:induction false} UnknownEmail(users: seq<Entry>, email: string, uidOf: string -> string)
    requires forall j :: 0 <= j < |users| ==> users[j].value.Dict? && !HasEmail(users[j].value, email)
    ensures FirstUser(users, email, uidOf) == Ok(MockUser(email, uidOf(email), Null))
    decreases |users|
  {
    if users != [] {
      UnknownEmail(users[1..], email, uidOf);
    }
  }

  /** A user created under a new uid is the one later found by its email. */
  lemma CreatedUserIsFound(root: Value, email: string, displayName: Option<string>, createdAt: string,
                           uidOf: string -> string)
    requires root.Dict? && Lookup(root.entries, "users").Some? && Lookup(root.entries, "users").value.Dict?
    requires var us := Lookup(root.entries, "users").value.entries;
      Lookup(us, uidOf(email)).None? &&
      forall j :: 0 <= j < |us| ==> us[j].value.Dict? && !HasEmail(us[j].value, email)
    ensures CreateUserAt(root, email, displayName, createdAt, uidOf).Ok?
    ensures var n := CreateUserAt(root, email, displayName, createdAt, uidOf).value.0;
      n.Dict? && UserByEmailAt(n, email, uidOf) == Ok(MockUser(email, uidOf(email), NameValue(displayName)))
  {
    var us := Lookup(root.entries, "users").value.entries;
    var rec := UserRecord(email, displayName, createdAt);
    var us2 := us + [Entry(uidOf(email), rec)];
    LookupAssign(root.entries, "users", Dict(us2), "users");
    var es := rec.entries;
    assert es[..|es| - 1] == [es[0], es[1]] && es[..|es| - 1][..1] == [es[0]];
    assert |es[2].key| != |"email"| && |es[1].key| != |"email"| && |es[2].key| != |"display_name"|;
    assert Lookup(es, "email") == Lookup([es[0], es[1]], "email") == Lookup([es[0]], "email");
    assert Lookup(es, "display_name") == Lookup([es[0], es[1]], "display_name");
    assert HasEmail(rec, email);
    assert DisplayNameOf(rec.entries) == NameValue(displayName);
    FirstStoredUser(us2, email, uidOf, |us|);
  }

  // ---------------------------------------------------------------------------
  // The store
  // ---------------------------------------------------------------------------

  /**
   * The module-global `_mock_database` and the operations that walk it. A
   * method that raises leaves the tree as it was: the walks only create dicts
   * below a missing key, where nothing can fail any more.
   */
  class MockDatabase {
    var root: Value

    predicate Valid()
      reads this
    {
      root.Dict?
    }

    constructor()
      ensures root == InitialRoot && Valid()
    {
      root := InitialRoot;
    }

    /** `MockDatabaseReference(path)`, whose constructor creates the missing components. */
    method Reference(path: string) returns (r: Res<Ref>)
      requires Valid()
      modifies this
      ensures Valid()
      ensures var e := EnsureAt(old(root), PathParts(path));
        if e.Ok? then r == Ok(Ref(path, None, None)) && root == e.value
        else r == Raised(e.error) && root == old(root)
    {
      var parts := PathParts(path);
      var current := root;
      var frames: seq<Frame> := [];
      var i := 0;
      while i < |parts|
        invariant 0 <= i <= |parts|
        invariant root == old(root)
        invariant Lift(frames, EnsureAt(current, parts[i..])) == EnsureAt(root, parts)
      {
        if !current.Dict? {
          EnsureStuck(frames, current, parts, i, root);
          return Raised("TypeError");
        }
        EnsureDescend(frames, current, parts, i);
        frames := frames + [Frame(current.entries, parts[i])];
        current := ChildOrEmpty(current.entries, parts[i]);
        i := i + 1;
      }
      EnsureEnd(frames, current, parts, i, root);
      root := Plug(frames, current);
      r := Ok(Ref(path, None, None));
    }

    /** `child(p)`: a new reference to `path/p`. */
    method Child(ref: Ref, p: string) returns (r: Res<Ref>)
      requires Valid()
      modifies this
      ensures Valid()
      ensures var e := EnsureAt(old(root), PathParts(ref.path + "/" + p));
        if e.Ok? then r == Ok(Ref(ref.path + "/" + p, None, None)) && root == e.value
        else r == Raised(e.error) && root == old(root)
    {
      r := Reference(ref.path + "/" + p);
    }

    /** `push()`: a new reference below this one; `key` is the time-and-identity key it makes up. */
    method Push(ref: Ref, key: string) returns (r: Res<Ref>)
      requires Valid()
      modifies this
      ensures Valid()
      ensures var e := EnsureAt(old(root), PathParts(ref.path + "/" + key));
        if e.Ok? then r == Ok(Ref(ref.path + "/" + key, None, None)) && root == e.value
        else r == Raised(e.error) && root == old(root)
    {
      r := Reference(ref.path + "/" + key);
    }

    /** `get()`: the value at the reference's path; the recorded ordering and limit play no part. */
    method Get(ref: Ref) returns (r: Res<Value>)
      ensures r == GetAt(root, PathParts(ref.path))
    {
      var parts := PathParts(ref.path);
      var current := root;
      var i := 0;
      while i < |parts|
        invariant 0 <= i <= |parts|
        invariant GetAt(current, parts[i..]) == GetAt(root, parts)
      {
        assert parts[i..][1..] == parts[i + 1..];
        if current.Dict? {
          var c := Lookup(current.entries, parts[i]);
          if c.None? {
            return Ok(EmptyDict);
          }
          current := c.value;
        } else if current.Str? && !IsSubstring(parts[i], current.s) {
          return Ok(EmptyDict);
        } else {
          return Raised("TypeError");
        }
        i := i + 1;
      }
      assert parts[i..] == [];
      r := Ok(current);
    }

    /** `set(v)`. */
    method Set(ref: Ref, v: Value) returns (r: Res<bool>)
      requires Valid()
      modifies this
      ensures Valid()
      ensures var s := SetAt(old(root), PathParts(ref.path), v);
        if s.Ok? then r == Ok(true) && root == s.value
        else r == Raised(s.error) && root == old(root)
    {
      var parts := PathParts(ref.path);
      var current := root;
      var frames: seq<Frame> := [];
      var i := 0;
      while i < |parts| - 1
        invariant 0 <= i < |parts|
        invariant root == old(root)
        invariant Lift(frames, SetAt(current, parts[i..], v)) == SetAt(root, parts, v)
      {
        if !current.Dict? {
          SetStuck(frames, current, parts, i, v, root);
          return Raised("TypeError");
        }
        SetDescend(frames, current, parts, i, v);
        frames := frames + [Frame(current.entries, parts[i])];
        current := ChildOrEmpty(current.entries, parts[i]);
        i := i + 1;
      }
      if !current.Dict? {
        SetStuck(frames, current, parts, i, v, root);
        return Raised("TypeError");
      }
      SetLast(frames, current, parts, i, v);
      root := Plug(frames, Dict(Assign(current.entries, parts[i], v)));
      r := Ok(true);
    }

    /** `update(v)`. */
    method Update(ref: Ref, v: Value) returns (r: Res<bool>)
      requires Valid()
      modifies this
      ensures Valid()
      ensures var u := UpdateAt(old(root), PathParts(ref.path), v);
        if u.Ok? then r == Ok(true) && root == u.value
        else r == Raised(u.error) && root == old(root)
    {
      var current := Get(ref);
      if current.Raised? {
        return Raised(current.error);
      }
      if current.value.Dict? && v.Dict? {
        r := Set(ref, Dict(Merge(current.value.entries, v.entries)));
      } else {
        r := Set(ref, v);
      }
    }

    /** `remove()`. */
    method Remove(ref: Ref) returns (r: Res<bool>)
      requires Valid()
      modifies this
      ensures Valid()
      ensures var d := RemoveAt(old(root), PathParts(ref.path));
        if d.Ok? then r == Ok(true) && root == d.value
        else r == Raised(d.error) && root == old(root)
    {
      var parts := PathParts(ref.path);
      if |parts| > 1 {
        var parentPath := Join(parts[..|parts| - 1]);
        var last := parts[|parts| - 1];
        var parent := Get(Ref(parentPath, None, None));
        if parent.Raised? {
          return Raised(parent.error);
        }
        if parent.value.Dict? && Lookup(parent.value.entries, last).Some? {
          root := DeleteAt(root, PathParts(parentPath), last);
        }
      }
      r := Ok(true);
    }

    /** `MockCollection(name)`. */
    method Collection(name: string)
      requires Valid()
      modifies this
      ensures Valid() && root == WithCollection(old(root), name)
    {
      if Lookup(root.entries, name).None? {
        root := Dict(root.entries + [Entry(name, EmptyDict)]);
      }
    }

    /** `MockCollection.document(id)`. */
    method Document(coll: string, id: string) returns (r: Res<bool>)
      requires Valid()
      modifies this
      ensures Valid()
      ensures var d := DocumentAt(old(root), coll, id);
        if d.Ok? then r == Ok(true) && root == d.value
        else r == Raised(d.error) && root == old(root)
    {
      var present := InCollection(root, coll, id);
      if present.Raised? {
        return Raised(present.error);
      }
      if !present.value {
        var stored := AssignIn(root, coll, id, EmptyDict);
        if stored.Raised? {
          return Raised(stored.error);
        }
        root := stored.value;
      }
      r := Ok(true);
    }

    /** `MockDocument.set(data)`. */
    method DocSet(coll: string, id: string, data: Value) returns (r: Res<bool>)
      requires Valid()
      modifies this
      ensures Valid()
      ensures var d := AssignIn(old(root), coll, id, data);
        if d.Ok? then r == Ok(true) && root == d.value
        else r == Raised(d.error) && root == old(root)
    {
      var stored := AssignIn(root, coll, id, data);
      if stored.Raised? {
        return Raised(stored.error);
      }
      root := stored.value;
      r := Ok(true);
    }

    /** `MockDocument.update(data)`. */
    method DocUpdate(coll: string, id: string, data: Value) returns (r: Res<bool>)
      requires Valid()
      modifies this
      ensures Valid()
      ensures var d := DocUpdateAt(old(root), coll, id, data);
        if d.Ok? then r == Ok(true) && root == d.value
        else r == Raised(d.error) && root == old(root)
    {
      var updated := DocUpdateAt(root, coll, id, data);
      if updated.Raised? {
        return Raised(updated.error);
      }
      root := updated.value;
      r := Ok(true);
    }

    /** `MockDocument.get()`. */
    method DocGet(coll: string, id: string) returns (r: Res<DocSnapshot>)
      requires Valid()
      ensures r == DocGetAt(root, coll, id)
    {
      r := DocGetAt(root, coll, id);
    }

    /** `MockAuth.create_user`; the password and phone number are not stored. */
    method CreateUser(email: string, displayName: Option<string>, createdAt: string, uidOf: string -> string)
      returns (r: Res<MockUser>)
      requires Valid()
      modifies this
      ensures Valid()
      ensures var c := CreateUserAt(old(root), email, displayName, createdAt, uidOf);
        if c.Ok? then r == Ok(c.value.1) && root == c.value.0
        else r == Raised(c.error) && root == old(root)
    {
      var stored := AssignIn(root, "users", uidOf(email), UserRecord(email, displayName, createdAt));
      if stored.Raised? {
        return Raised(stored.error);
      }
      root := stored.value;
      r := Ok(MockUser(email, uidOf(email), NameValue(displayName)));
    }

    /** `MockAuth.get_user_by_email`: reads the users in insertion order and stores nothing. */
    method GetUserByEmail(email: string, uidOf: string -> string) returns (r: Res<MockUser>)
      requires Valid()
      ensures r == UserByEmailAt(root, email, uidOf)
    {
      var users := Lookup(root.entries, "users");
      if users.None? {
        return Raised("KeyError");
      }
      if !users.value.Dict? {
        return Raised("AttributeError");
      }
      var es := users.value.entries;
      var i := 0;
      while i < |es|
        invariant 0 <= i <= |es|
        invariant FirstUser(es[i..], email, uidOf) == FirstUser(es, email, uidOf)
      {
        assert es[i..][1..] == es[i + 1..];
        var data := es[i].value;
        if !data.Dict? {
          return Raised("AttributeError");
        }
        if HasEmail(data, email) {
          return Ok(MockUser(email, UidOr(es[i].key, uidOf(email)), DisplayNameOf(data.entries)));
        }
        i := i + 1;
      }
      assert es[i..] == [];
      r := Ok(MockUser(email, uidOf(email), Null));
    }
  }
}
