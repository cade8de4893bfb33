/** The path search of routers/files/files_delete.py (`delete_file`): find
    every file or every folder with a given name in the platform's file tree,
    and issue one DELETE request per path with its `/` encoded. The file
    tree is an input; a node without children and a node with an empty
    children list are the same here, as the source only tests the list's
    truth value. The platform's answer to each request is `deleted`. */
module FilesDelete {
  import opened Wrappers
  import Text

  datatype Item = Item(name: string, children: seq<Item>)

  /** `delete.type`: "folders" or "files". */
  datatype Mode = Folders | Files

  const Root := "default_repo"

  /** The node is of the kind being deleted: a folder has children, a file
      (or an empty folder) has none. */
  predicate OfKind(item: Item, mode: Mode) {
    if mode == Folders then item.children != [] else item.children == []
  }

  /** `find_all_paths` (lines 40-49): for each node, its own path when it
      matches, then the paths found below it. */
  function FindAllPaths(structure: seq<Item>, current: string, target: string, mode: Mode): seq<string>
    decreases structure
  {
    if structure == [] then []
    else ItemPaths(structure[0], current, target, mode) + FindAllPaths(structure[1..], current, target, mode)
  }

  function ItemPaths(item: Item, current: string, target: string, mode: Mode): seq<string>
    decreases item
  {
    var path := current + "/" + item.name;
    (if item.name == target && OfKind(item, mode) then [path] else [])
    + (if item.children != [] then FindAllPaths(item.children, path, target, mode) else [])
  }

  // ---------------------------------------------------------------------
  // Reference: the pre-order listing of the tree

  /** Every node of the forest with its path, parents before children,
      siblings in order. */
  function Listing(structure: seq<Item>, current: string): seq<(string, Item)>
    decreases structure
  {
    if structure == [] then []
    else ItemListing(structure[0], current) + Listing(structure[1..], current)
  }

  function ItemListing(item: Item, current: string): seq<(string, Item)>
    decreases item
  {
    var path := current + "/" + item.name;
    [(path, item)] + Listing(item.children, path)
  }

  /** The paths of the listed nodes that match. */
  function Matching(nodes: seq<(string, Item)>, target: string, mode: Mode): seq<string> {
    if nodes == [] then []
    else (if nodes[0].1.name == target && OfKind(nodes[0].1, mode) then [nodes[0].0] else [])
         + Matching(nodes[1..], target, mode)
  }

  lemma {:induction false} MatchingAppend(a: seq<(string, Item)>, b: seq<(string, Item)>, target: string, mode: Mode)
    ensures Matching(a + b, target, mode) == Matching(a, target, mode) + Matching(b, target, mode)
  {
    if a == [] {
      assert a + b == b;
    } else {
      assert (a + b)[0] == a[0] && (a + b)[1..] == a[1..] + b;
      MatchingAppend(a[1..], b, target, mode);
    }
  }

  /** The search reports exactly the matching nodes of the tree, in
      pre-order. */
  lemma {:induction false} FindAllPathsIsPreorder(structure: seq<Item>, current: string, target: string, mode: Mode)
    ensures FindAllPaths(structure, current, target, mode) == Matching(Listing(structure, current), target, mode)
    decreases structure
  {
    if structure != [] {
      ItemPathsIsPreorder(structure[0], current, target, mode);
      FindAllPathsIsPreorder(structure[1..], current, target, mode);
      MatchingAppend(ItemListing(structure[0], current), Listing(structure[1..], current), target, mode);
    }
  }

  lemma {:induction false} ItemPathsIsPreorder(item: Item, current: string, target: string, mode: Mode)
    ensures ItemPaths(item, current, target, mode) == Matching(ItemListing(item, current), target, mode)
    decreases item
  {
    var path := current + "/" + item.name;
    MatchingAppend([(path, item)], Listing(item.children, path), target, mode);
    assert Matching([(path, item)], target, mode) == if item.name == target && OfKind(item, mode) then [path] else [];
    if item.children != [] {
      FindAllPathsIsPreorder(item.children, path, target, mode);
    } else {
      assert Listing(item.children, path) == [];
    }
  }

  // ---------------------------------------------------------------------
  // Shape of the paths

  /** Every listed path extends the parent path with `/` and ends with `/`
      and the node's name. */
  lemma {:induction false} ListingPaths(structure: seq<Item>, current: string)
    ensures forall k :: 0 <= k < |Listing(structure, current)| ==>
      var (p, item) := Listing(structure, current)[k];
      Text.StartsWith(p, current + "/") && Text.EndsWith(p, "/" + item.name)
    decreases structure
  {
    if structure != [] {
      ItemListingPaths(structure[0], current);
      ListingPaths(structure[1..], current);
      var a, b := ItemListing(structure[0], current), Listing(structure[1..], current);
      var l: seq<(string, Item)> := a + b;
      forall k | 0 <= k < |l|
        ensures var (p, item) := l[k]; Text.StartsWith(p, current + "/") && Text.EndsWith(p, "/" + item.name)
      {
        if k < |a| { assert l[k] == a[k]; } else { assert l[k] == b[k - |a|]; }
      }
    }
  }

  lemma {:induction false} ItemListingPaths(item: Item, current: string)
    ensures forall k :: 0 <= k < |ItemListing(item, current)| ==>
      var (p, it) := ItemListing(item, current)[k];
      Text.StartsWith(p, current + "/") && Text.EndsWith(p, "/" + it.name)
    decreases item
  {
    var path := current + "/" + item.name;
    ListingPaths(item.children, path);
    var l := ItemListing(item, current);
    forall k | 0 <= k < |l|
      ensures var (p, it) := l[k]; Text.StartsWith(p, current + "/") && Text.EndsWith(p, "/" + it.name)
    {
      if k == 0 {
        assert l[0] == (path, item);
        assert path[..|current + "/"|] == current + "/";
        assert path[|path| - |"/" + item.name|..] == "/" + item.name;
      } else {
        var (p, it) := l[k];
        assert l[k] == Listing(item.children, path)[k - 1];
        assert Text.StartsWith(p, path + "/");
        assert p[..|current + "/"|] == (path + "/")[..|current + "/"|] == current + "/";
      }
    }
  }

  lemma {:induction false} MatchingPaths(nodes: seq<(string, Item)>, target: string, mode: Mode, prefix: string)
    requires forall k :: 0 <= k < |nodes| ==>
      Text.StartsWith(nodes[k].0, prefix) && Text.EndsWith(nodes[k].0, "/" + nodes[k].1.name)
    ensures forall p :: p in Matching(nodes, target, mode) ==> Text.StartsWith(p, prefix) && Text.EndsWith(p, "/" + target)
  {
    if nodes != [] {
      MatchingPaths(nodes[1..], target, mode, prefix);
      assert forall k :: 0 <= k < |nodes[1..]| ==> nodes[1..][k] == nodes[k + 1];
    }
  }

  /** Every reported path lies under the start path and ends with `/` and
      the target name. */
  lemma FoundPathsShape(structure: seq<Item>, current: string, target: string, mode: Mode)
    ensures forall p :: p in FindAllPaths(structure, current, target, mode) ==>
      Text.StartsWith(p, current + "/") && Text.EndsWith(p, "/" + target)
  {
    FindAllPathsIsPreorder(structure, current, target, mode);
    ListingPaths(structure, current);
    var l := Listing(structure, current);
    forall k | 0 <= k < |l| ensures Text.StartsWith(l[k].0, current + "/") && Text.EndsWith(l[k].0, "/" + l[k].1.name) {
      var (p, it) := l[k];
    }
    MatchingPaths(l, target, mode, current + "/");
  }

  // ---------------------------------------------------------------------
  // The requests

  /** `path.replace("/", "%2F")`. */
  function Encode(path: string): (r: string)
    ensures '/' !in r
  {
    Text.ReplaceCharIsMapChar(path, '/', "%2F");
    Text.MapCharRemoves(path, '/', "%2F");
    Text.ReplaceAll(path, "/", "%2F")
  }

  function ModeName(mode: Mode): string {
    if mode == Folders then "folders" else "files"
  }

  /** The API path a deletion is requested at. */
  function Request(mode: Mode, path: string): string {
    "api/" + ModeName(mode) + "/" + Encode(path)
  }

  /** One request per path, in order. */
  function Requests(mode: Mode, paths: seq<string>): (r: seq<string>)
    ensures |r| == |paths| && forall i :: 0 <= i < |paths| ==> r[i] == Request(mode, paths[i])
  {
    seq(|paths|, i requires 0 <= i < |paths| => Request(mode, paths[i]))
  }

  /** Some request is refused, after every earlier one succeeded. */
  predicate RefusedAt(requests: seq<string>, deleted: string -> bool) {
    exists i :: 0 <= i < |requests| && !deleted(requests[i]) && forall j :: 0 <= j < i ==> deleted(requests[j])
  }

  /** `delete_file` after fetching the tree: check the kind, find the paths
      under `default_repo`, and request each deletion in order, stopping at
      the first the platform refuses. The result lists the requests made. */
  method DeleteFile(kind: string, name: string, tree: seq<Item>, deleted: string -> bool) returns (r: Result<seq<string>, string>)
    ensures kind != "files" && kind != "folders" ==> r == Failure("Type can only be files or folders!")
    ensures kind == "files" || kind == "folders" ==>
      var mode := if kind == "folders" then Folders else Files;
      var all := Requests(mode, FindAllPaths(tree, Root, name, mode));
      && (r.Success? ==> r.value == all && forall q :: q in all ==> deleted(q))
      && (r.Failure? ==> r.error == "Error deleting file!" && RefusedAt(all, deleted))
  {
    if kind != "files" && kind != "folders" {
      return Failure("Type can only be files or folders!");
    }
    var mode := if kind == "folders" then Folders else Files;
    var paths := FindAllPaths(tree, Root, name, mode);
    ghost var all := Requests(mode, paths);
    var made: seq<string> := [];
    var i := 0;
    while i < |paths|
      invariant 0 <= i <= |paths|
      invariant made == all[..i]
      invariant forall j :: 0 <= j < i ==> deleted(all[j])
    {
      var request := Request(mode, paths[i]);
      if !deleted(request) {
        assert request == all[i];
        return Failure("Error deleting file!");
      }
      made := made + [request];
      i := i + 1;
    }
    assert all[..|paths|] == all;
    r := Success(made);
  }
}
