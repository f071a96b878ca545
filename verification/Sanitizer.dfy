/** The recursive check that keeps secrets, internal paths and signed URLs out of a result. */
module Sanitizer {
  import opened Prelude
  import opened Json

  const SECRET_KEY_FRAGMENTS: seq<string> := [
    "api_key", "apikey", "authorization", "credential", "password", "private_key", "registry_token", "secret", "token"
  ]

  const SECRET_VALUE_FRAGMENTS: seq<string> := ["bearer ", "ghp_", "github_pat_", "rpa_", "x-amz-signature="]

  datatype Url = Url(scheme: string, query: string)

  /** The library calls: Unicode lower-casing, and URL splitting (None when it raises). */
  datatype Library = Library(lower: string -> string, urlsplit: string -> Option<Url>)

  datatype Kind = SECRET_KEY | SECRET_VALUE | ABSOLUTE_PATH | URL_QUERY

  /** A finding names a position by the child indices that lead to it. */
  datatype Finding = Finding(kind: Kind, path: seq<nat>)

  predicate OccursAt(fragment: string, s: string, i: nat) {
    i + |fragment| <= |s| && s[i..i + |fragment|] == fragment
  }

  predicate Occurs(fragment: string, s: string) {
    exists i :: 0 <= i <= |s| && OccursAt(fragment, s, i)
  }

  predicate HasFragment(s: string, fragments: seq<string>) {
    exists f :: f in fragments && Occurs(f, s)
  }

  predicate SecretKey(lib: Library, key: string) {
    HasFragment(lib.lower(key), SECRET_KEY_FRAGMENTS)
  }

  predicate Offensive(lib: Library, s: string, kind: Kind) {
    match kind
    case SECRET_KEY => false
    case SECRET_VALUE => HasFragment(lib.lower(s), SECRET_VALUE_FRAGMENTS)
    case ABSOLUTE_PATH => |s| > 0 && s[0] == '/'
    case URL_QUERY =>
      match lib.urlsplit(s)
      case None => true
      case Some(url) => lib.lower(url.scheme) in {"http", "https"} && url.query != ""
  }

  // ---------------------------------------------------------------- the recursion

  /** `visit`: the first finding in document order, if there is one. */
  function Visit(lib: Library, item: Json): Option<Finding>
    decreases item, 1, 0
  {
    match item
    case Obj(fields) => VisitFields(lib, item, 0)
    case Arr(items) => VisitItems(lib, item, 0)
    case Str(s) =>
      if Offensive(lib, s, SECRET_VALUE) then Some(Finding(SECRET_VALUE, []))
      else if Offensive(lib, s, ABSOLUTE_PATH) then Some(Finding(ABSOLUTE_PATH, []))
      else if Offensive(lib, s, URL_QUERY) then Some(Finding(URL_QUERY, []))
      else None
    case _ => None
  }

  function VisitFields(lib: Library, item: Json, k: nat): Option<Finding>
    requires item.Obj? && k <= |item.fields|
    decreases item, 0, |item.fields| - k
  {
    if k == |item.fields| then None
    else if SecretKey(lib, item.fields[k].0) then Some(Finding(SECRET_KEY, [k]))
    else
      match Visit(lib, item.fields[k].1)
      case Some(f) => Some(Finding(f.kind, [k] + f.path))
      case None => VisitFields(lib, item, k + 1)
  }

  function VisitItems(lib: Library, item: Json, k: nat): Option<Finding>
    requires item.Arr? && k <= |item.items|
    decreases item, 0, |item.items| - k
  {
    if k == |item.items| then None
    else
      match Visit(lib, item.items[k])
      case Some(f) => Some(Finding(f.kind, [k] + f.path))
      case None => VisitItems(lib, item, k + 1)
  }

  // ---------------------------------------------------------------- what it decides

  function Children(item: Json): seq<Json> {
    match item
    case Obj(fields) => seq(|fields|, i requires 0 <= i < |fields| => fields[i].1)
    case Arr(items) => items
    case _ => []
  }

  /** The subtree at a position. */
  function At(item: Json, path: seq<nat>): Option<Json>
    decreases |path|
  {
    if path == [] then Some(item)
    else if path[0] >= |Children(item)| then None
    else At(Children(item)[path[0]], path[1..])
  }

  predicate SecretKeyAt(lib: Library, owner: Option<Json>, k: nat) {
    owner.Some? && owner.value.Obj? && k < |owner.value.fields| && SecretKey(lib, owner.value.fields[k].0)
  }

  predicate OffensiveStringAt(lib: Library, node: Option<Json>, kind: Kind) {
    node.Some? && node.value.Str? && Offensive(lib, node.value.s, kind)
  }

  /** The finding describes a prohibited key or string that is really in the tree. */
  ghost predicate Offends(lib: Library, root: Json, f: Finding) {
    if f.kind == SECRET_KEY then
      f.path != [] && SecretKeyAt(lib, At(root, f.path[..|f.path| - 1]), f.path[|f.path| - 1])
    else
      OffensiveStringAt(lib, At(root, f.path), f.kind)
  }

  ghost predicate Sanitary(lib: Library, root: Json) {
    forall f :: !Offends(lib, root, f)
  }

  lemma AtStep(item: Json, k: nat, path: seq<nat>)
    requires k < |Children(item)|
    ensures At(item, [k] + path) == At(Children(item)[k], path)
  {
    assert ([k] + path)[1..] == path;
  }

  /** A finding in a child is a finding in the whole tree, at the longer position. */
  lemma RiseOne(lib: Library, item: Json, k: nat, f: Finding)
    requires k < |Children(item)| && Offends(lib, Children(item)[k], f)
    ensures Offends(lib, item, Finding(f.kind, [k] + f.path))
  {
    var whole := [k] + f.path;
    if f.kind == SECRET_KEY {
      var n := |f.path| - 1;
      AtStep(item, k, f.path[..n]);
      assert whole[..|whole| - 1] == [k] + f.path[..n] && whole[|whole| - 1] == f.path[n];
    } else {
      AtStep(item, k, f.path);
    }
  }

  /** Acceptance is inherited by every subtree. */
  lemma {:induction false} SubtreesAreSanitary(lib: Library, root: Json, p: seq<nat>)
    requires Sanitary(lib, root) && At(root, p).Some?
    ensures Sanitary(lib, At(root, p).value)
    decreases |p|
  {
    if p != [] {
      var child := Children(root)[p[0]];
      forall f ensures !Offends(lib, child, f) {
        if Offends(lib, child, f) { RiseOne(lib, root, p[0], f); }
      }
      SubtreesAreSanitary(lib, child, p[1..]);
    }
  }

  /** A finding below the root lies in one child, or is a key of the root. */
  lemma OffenceDescends(lib: Library, item: Json, f: Finding)
    requires Offends(lib, item, f) && f.path != []
    ensures f.path[0] < |Children(item)|
    ensures || Offends(lib, Children(item)[f.path[0]], Finding(f.kind, f.path[1..]))
            || (item.Obj? && SecretKey(lib, item.fields[f.path[0]].0))
  {
    if f.kind == SECRET_KEY {
      var n := |f.path| - 1;
      if n > 0 {
        assert f.path[..n][1..] == f.path[1..][..n - 1];
        assert f.path[..n][0] == f.path[0];
      } else {
        assert f.path[..n] == [];
      }
    }
  }

  lemma {:induction false} VisitFieldsExact(lib: Library, item: Json, k: nat)
    requires item.Obj? && k <= |item.fields|
    ensures VisitFields(lib, item, k).Some? ==> Offends(lib, item, VisitFields(lib, item, k).value)
    ensures VisitFields(lib, item, k).None? ==> forall i :: k <= i < |item.fields| ==>
      !SecretKey(lib, item.fields[i].0) && Sanitary(lib, item.fields[i].1)
    decreases item, 0, |item.fields| - k
  {
    if k < |item.fields| {
      VisitExact(lib, item.fields[k].1);
      VisitFieldsExact(lib, item, k + 1);
      if SecretKey(lib, item.fields[k].0) {
        assert [k][..0] == [];
      } else if Visit(lib, item.fields[k].1).Some? {
        RiseOne(lib, item, k, Visit(lib, item.fields[k].1).value);
      }
    }
  }

  lemma {:induction false} VisitItemsExact(lib: Library, item: Json, k: nat)
    requires item.Arr? && k <= |item.items|
    ensures VisitItems(lib, item, k).Some? ==> Offends(lib, item, VisitItems(lib, item, k).value)
    ensures VisitItems(lib, item, k).None? ==> forall i :: k <= i < |item.items| ==> Sanitary(lib, item.items[i])
    decreases item, 0, |item.items| - k
  {
    if k < |item.items| {
      VisitExact(lib, item.items[k]);
      VisitItemsExact(lib, item, k + 1);
      if Visit(lib, item.items[k]).Some? { RiseOne(lib, item, k, Visit(lib, item.items[k]).value); }
    }
  }

  /**
   * A tree is accepted exactly when no key and no string at any depth is prohibited, and a
   * rejection names one that is there.
   */
  lemma {:induction false} VisitExact(lib: Library, item: Json)
    ensures Visit(lib, item).None? <==> Sanitary(lib, item)
    ensures Visit(lib, item).Some? ==> Offends(lib, item, Visit(lib, item).value)
    decreases item, 1, 0
  {
    match item {
      case Obj(fields) => VisitFieldsExact(lib, item, 0);
      case Arr(items) => VisitItemsExact(lib, item, 0);
      case _ =>
    }
    if Visit(lib, item).None? {
      forall f ensures !Offends(lib, item, f) {
        if Offends(lib, item, f) && f.path != [] { OffenceDescends(lib, item, f); }
      }
    } else {
      assert Offends(lib, item, Visit(lib, item).value);
    }
  }
}
