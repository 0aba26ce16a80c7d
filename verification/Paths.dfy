/** Where a path leads: its components are taken one after the other from the root. */
module Paths {

  /** The parts of a path between its slashes. */
  function Components(path: string): (parts: seq<string>)
    ensures parts != []
  {
    if path == "" then [""]
    else
      var rest := Components(path[1..]);
      if path[0] == '/' then [""] + rest else [[path[0]] + rest[0]] + rest[1..]
  }

  /** The directory or file reached from `at` by one component. */
  function Enter(at: seq<string>, part: string): seq<string> {
    if part == "" || part == "." then at
    else if part == ".." then (if at == [] then [] else at[..|at| - 1])
    else at + [part]
  }

  function Walk(at: seq<string>, parts: seq<string>): seq<string>
    decreases |parts|
  {
    if parts == [] then at else Walk(Enter(at, parts[0]), parts[1..])
  }

  /** The place a path leads to. */
  function Place(path: string): seq<string> {
    Walk([], Components(path))
  }

  /** In every directory the name leads to the entry of that directory with this name, and nowhere else. */
  ghost predicate Contained(name: string) {
    forall dir: string :: Place(dir + "/" + name) == Place(dir) + [name]
  }

  lemma {:induction false} ComponentsJoin(a: string, b: string)
    ensures Components(a + "/" + b) == Components(a) + Components(b)
  {
    var s := a + "/" + b;
    if a == "" {
      assert s[0] == '/' && s[1..] == b;
    } else {
      assert s[0] == a[0] && s[1..] == a[1..] + "/" + b;
      ComponentsJoin(a[1..], b);
    }
  }

  lemma {:induction false} OneComponent(name: string)
    requires '/' !in name
    ensures Components(name) == [name]
  {
    if name != "" {
      assert name[0] in name;
      assert forall c :: c in name[1..] ==> c in name;
      OneComponent(name[1..]);
      assert [name[0]] + name[1..] == name;
    }
  }

  lemma {:induction false} WalkJoin(at: seq<string>, a: seq<string>, b: seq<string>)
    ensures Walk(at, a + b) == Walk(Walk(at, a), b)
    decreases |a|
  {
    if a == [] {
      assert a + b == b;
    } else {
      assert (a + b)[0] == a[0] && (a + b)[1..] == a[1..] + b;
      WalkJoin(Enter(at, a[0]), a[1..], b);
    }
  }

  predicate NoSlashes(parts: seq<string>) {
    forall i :: 0 <= i < |parts| ==> '/' !in parts[i]
  }

  lemma {:induction false} ComponentsHaveNoSlash(path: string)
    ensures NoSlashes(Components(path))
  {
    if path != "" {
      ComponentsHaveNoSlash(path[1..]);
    }
  }

  lemma {:induction false} WalkHasNoSlash(at: seq<string>, parts: seq<string>)
    requires NoSlashes(at) && NoSlashes(parts)
    ensures NoSlashes(Walk(at, parts))
    decreases |parts|
  {
    if parts != [] {
      WalkHasNoSlash(Enter(at, parts[0]), parts[1..]);
    }
  }

  lemma PlaceInDirectory(dir: string, name: string)
    ensures Place(dir + "/" + name) == Walk(Place(dir), Components(name))
  {
    ComponentsJoin(dir, name);
    WalkJoin([], Components(dir), Components(name));
  }

  /** Exactly the names without a slash, other than the empty one, `.` and `..`, stay in their directory. */
  lemma ContainedExactly(name: string)
    ensures Contained(name) <==> '/' !in name && name != "" && name != "." && name != ".."
  {
    hide Place, Components;
    if '/' in name {
      SlashLeadsElsewhere("", name);
    } else {
      OneComponent(name);
      forall dir: string
        ensures Place(dir + "/" + name) == Enter(Place(dir), name)
      {
        PlaceInDirectory(dir, name);
        assert [name][1..] == [];
      }
      if name == "" || name == "." || name == ".." {
        assert Place("" + "/" + name) == Enter(Place(""), name);
        assert |Enter(Place(""), name)| <= |Place("")|;
      }
    }
  }

  lemma SlashLeadsElsewhere(dir: string, name: string)
    requires '/' in name
    ensures Place(dir + "/" + name) != Place(dir) + [name]
  {
    hide Place;
    PlaceHasNoSlash(dir + "/" + name);
    var at := |Place(dir)|;
    assert (Place(dir) + [name])[at] == name;
  }

  lemma PlaceHasNoSlash(path: string)
    ensures NoSlashes(Place(path))
  {
    ComponentsHaveNoSlash(path);
    WalkHasNoSlash([], Components(path));
  }
}
