/**
 * The documentation outline and its flattening into generation tasks
 * (`extractDocFiles` and its inner `traverse`).
 *
 * The outline is the mapping the YAML file parses to. The reserved key
 * `_docs` of a mapping is kept apart from its other keys: when its value is
 * an array each entry describes one document to generate; any other value
 * is inert (`NotAList`). Every other key maps either to a nested mapping or
 * to a scalar, and the keys are kept in the order `Object.keys` lists them.
 *
 * An entry's fields are only ever shown in the prompt, so the parser hands
 * them over as the prompt shows them: `title` as the template literal
 * renders it (a missing title is "undefined"), `description` as `None`
 * when it is falsy (missing, null, "", 0, false) and otherwise as the
 * string it renders to.
 */
module Outline {
  import opened Wrappers
  import opened Paths

  /** One entry of a `_docs` array. */
  datatype DocSpec = DocSpec(name: string, title: string, description: Option<string>)

  /** The value under `_docs`: an array of entries, or anything else (absent included). */
  datatype DocsField = DocsList(entries: seq<DocSpec>) | NotAList

  /** The value under any other key. */
  datatype Value = Nested(node: Node) | Scalar

  /** A mapping of the outline. */
  datatype Node = Node(docs: DocsField, children: seq<(string, Value)>)

  /** The reserved key whose array lists a mapping's documents. */
  const DocsKey: string := "_docs"

  /** `key !== '_docs' && typeof obj[key] === 'object'`: the walk descends into this key. */
  predicate Descends(child: (string, Value)) {
    child.0 != DocsKey && child.1.Nested?
  }

  /** A document to generate (`DocFile`): the entry's fields and where its text goes. */
  datatype DocFile = DocFile(name: string, title: string, description: Option<string>, outputPath: string)

  /** The task for `spec` found in the directory `dir`. */
  function DocFileIn(dir: string, spec: DocSpec): DocFile {
    DocFile(spec.name, spec.title, spec.description, Join(dir, spec.name))
  }

  /** The tasks of a node's own `_docs` value, in array order; nothing unless it is an array. */
  function OwnDocFiles(docs: DocsField, outputPath: string): seq<DocFile> {
    match docs
    case NotAList => []
    case DocsList(entries) => seq(|entries|, k requires 0 <= k < |entries| => DocFileIn(outputPath, entries[k]))
  }

  /** `traverse(obj, _, outputPath)`: own entries first, then every nested key in key order. */
  function Traverse(n: Node, outputPath: string): seq<DocFile>
    decreases n, 1
  {
    OwnDocFiles(n.docs, outputPath) + TraverseKeys(n, 0, outputPath)
  }

  /** The `Object.keys(obj).forEach` loop of `traverse`, from the `i`-th key on. */
  function TraverseKeys(n: Node, i: nat, outputPath: string): seq<DocFile>
    requires i <= |n.children|
    decreases n, 0, |n.children| - i
  {
    if i == |n.children| then []
    else if !Descends(n.children[i]) then TraverseKeys(n, i + 1, outputPath)
    else Traverse(n.children[i].1.node, Join(outputPath, n.children[i].0)) + TraverseKeys(n, i + 1, outputPath)
  }

  /** `extractDocFiles(outline, '', outputBasePath)`. */
  function ExtractDocFiles(outline: Node, outputBasePath: string): seq<DocFile> {
    Traverse(outline, outputBasePath)
  }

  // ---------------------------------------------------------------------------
  // An independent account of where the entries of an outline are.
  // ---------------------------------------------------------------------------

  /**
   * Where an entry sits: the child indices leading to its mapping, the keys
   * along that way, its index in that mapping's `_docs` array, and the entry.
   */
  datatype Location = Location(position: seq<nat>, keys: seq<string>, index: nat, spec: DocSpec)

  /** The mapping reached from `n` along `position`, with the keys passed, if every step is a nested mapping. */
  function Subtree(n: Node, position: seq<nat>): Option<(seq<string>, Node)>
    decreases |position|
  {
    if position == [] then Some(([], n))
    else if position[0] < |n.children| && Descends(n.children[position[0]]) then
      match Subtree(n.children[position[0]].1.node, position[1..])
      case None => None
      case Some(found) => Some(([n.children[position[0]].0] + found.0, found.1))
    else None
  }

  /** `l` describes an actual entry of an actual `_docs` array of `n`. */
  predicate IsEntry(n: Node, l: Location) {
    var s := Subtree(n, l.position);
    && s.Some?
    && s.value.0 == l.keys
    && s.value.1.docs.DocsList?
    && l.index < |s.value.1.docs.entries|
    && s.value.1.docs.entries[l.index] == l.spec
  }

  /** Entry `(p, i)` comes before entry `(q, j)` in a depth-first walk that visits a mapping's own entries first. */
  predicate Precedes(p: seq<nat>, i: nat, q: seq<nat>, j: nat)
    decreases |p|
  {
    if p == [] then (q == [] ==> i < j)
    else q != [] && (p[0] < q[0] || (p[0] == q[0] && Precedes(p[1..], i, q[1..], j)))
  }

  predicate Before(a: Location, b: Location) {
    Precedes(a.position, a.index, b.position, b.index)
  }

  /** The locations of a node's own entries. */
  function OwnLocations(docs: DocsField): seq<Location> {
    match docs
    case NotAList => []
    case DocsList(entries) => seq(|entries|, k requires 0 <= k < |entries| => Location([], [], k, entries[k]))
  }

  /** Locations of a child's entries, seen from its parent through key number `i`, `key`. */
  function Under(i: nat, key: string, ls: seq<Location>): (r: seq<Location>)
    ensures |r| == |ls|
  {
    seq(|ls|, k requires 0 <= k < |ls| => Location([i] + ls[k].position, [key] + ls[k].keys, ls[k].index, ls[k].spec))
  }

  /** Every entry of `n`, listed in the order the walk meets them. */
  function Locate(n: Node): seq<Location>
    decreases n, 1
  {
    OwnLocations(n.docs) + LocateKeys(n, 0)
  }

  function LocateKeys(n: Node, i: nat): seq<Location>
    requires i <= |n.children|
    decreases n, 0, |n.children| - i
  {
    if i == |n.children| then []
    else if !Descends(n.children[i]) then LocateKeys(n, i + 1)
    else Under(i, n.children[i].0, Locate(n.children[i].1.node)) + LocateKeys(n, i + 1)
  }

  /** The task an entry at `l` yields when the walk starts at `root`. */
  function DocFileAt(root: string, l: Location): DocFile {
    DocFile(l.spec.name, l.spec.title, l.spec.description, JoinAll(root, l.keys + [l.spec.name]))
  }

  function DocFilesAt(root: string, ls: seq<Location>): seq<DocFile> {
    seq(|ls|, k requires 0 <= k < |ls| => DocFileAt(root, ls[k]))
  }

  /** The number of entries in all `_docs` arrays of the outline. */
  function EntryCount(n: Node): nat
    decreases n, 1
  {
    (match n.docs case NotAList => 0 case DocsList(entries) => |entries|) + EntryCountKeys(n, 0)
  }

  function EntryCountKeys(n: Node, i: nat): nat
    requires i <= |n.children|
    decreases n, 0, |n.children| - i
  {
    if i == |n.children| then 0
    else if !Descends(n.children[i]) then EntryCountKeys(n, i + 1)
    else EntryCount(n.children[i].1.node) + EntryCountKeys(n, i + 1)
  }

  // ---------------------------------------------------------------------------
  // Properties of the flattening.
  // ---------------------------------------------------------------------------

  /** Flattening emits one task per entry of every `_docs` array, at any depth. */
  lemma {:induction false} TraverseCount(n: Node, outputPath: string)
    ensures |Traverse(n, outputPath)| == EntryCount(n)
    decreases n, 1
  {
    TraverseKeysCount(n, 0, outputPath);
  }

  lemma {:induction false} TraverseKeysCount(n: Node, i: nat, outputPath: string)
    requires i <= |n.children|
    ensures |TraverseKeys(n, i, outputPath)| == EntryCountKeys(n, i)
    decreases n, 0, |n.children| - i
  {
    if i < |n.children| {
      TraverseKeysCount(n, i + 1, outputPath);
      if Descends(n.children[i]) {
        TraverseCount(n.children[i].1.node, Join(outputPath, n.children[i].0));
      }
    }
  }

  lemma DocFilesAtAppend(root: string, a: seq<Location>, b: seq<Location>)
    ensures DocFilesAt(root, a + b) == DocFilesAt(root, a) + DocFilesAt(root, b)
  {
    forall k | 0 <= k < |a + b|
      ensures DocFilesAt(root, a + b)[k] == (DocFilesAt(root, a) + DocFilesAt(root, b))[k]
    {
      if k >= |a| {
        assert (a + b)[k] == b[k - |a|];
      }
    }
  }

  lemma DocFilesAtUnder(root: string, i: nat, key: string, ls: seq<Location>)
    ensures DocFilesAt(root, Under(i, key, ls)) == DocFilesAt(Join(root, key), ls)
  {
    forall k | 0 <= k < |ls|
      ensures DocFilesAt(root, Under(i, key, ls))[k] == DocFilesAt(Join(root, key), ls)[k]
    {
      assert ([key] + ls[k].keys + [ls[k].spec.name])[1..] == ls[k].keys + [ls[k].spec.name];
    }
  }

  /**
   * Each task carries its entry's `name`, `title` and `description` unchanged,
   * and its `outputPath` is the output root joined with the keys from the
   * top of the outline down to the entry's mapping, then the entry's `name`;
   * the tasks come in the order of `Locate`.
   */
  lemma {:induction false} TraverseIsLocate(n: Node, outputPath: string)
    ensures Traverse(n, outputPath) == DocFilesAt(outputPath, Locate(n))
    decreases n, 1
  {
    TraverseKeysIsLocate(n, 0, outputPath);
    DocFilesAtAppend(outputPath, OwnLocations(n.docs), LocateKeys(n, 0));
    match n.docs
    case NotAList =>
    case DocsList(entries) =>
      var own := OwnLocations(n.docs);
      forall k | 0 <= k < |own| ensures DocFilesAt(outputPath, own)[k] == OwnDocFiles(n.docs, outputPath)[k] {
        assert own[k] == Location([], [], k, entries[k]);
        assert [entries[k].name][1..] == [];
        assert JoinAll(outputPath, [] + [entries[k].name]) == Join(outputPath, entries[k].name);
      }
  }

  lemma {:induction false} TraverseKeysIsLocate(n: Node, i: nat, outputPath: string)
    requires i <= |n.children|
    ensures TraverseKeys(n, i, outputPath) == DocFilesAt(outputPath, LocateKeys(n, i))
    decreases n, 0, |n.children| - i
  {
    if i < |n.children| {
      TraverseKeysIsLocate(n, i + 1, outputPath);
      if Descends(n.children[i]) {
        var child := n.children[i].1.node;
        var key := n.children[i].0;
        TraverseIsLocate(child, Join(outputPath, key));
        DocFilesAtUnder(outputPath, i, key, Locate(child));
        DocFilesAtAppend(outputPath, Under(i, key, Locate(child)), LocateKeys(n, i + 1));
      }
    }
  }

  /** Everything `Locate` lists is an entry of the outline. */
  lemma {:induction false} LocateSound(n: Node, l: Location)
    requires l in Locate(n)
    ensures IsEntry(n, l)
    decreases n, 1
  {
    if l in LocateKeys(n, 0) {
      LocateKeysSound(n, 0, l);
    }
  }

  lemma {:induction false} LocateKeysSound(n: Node, i: nat, l: Location)
    requires i <= |n.children|
    requires l in LocateKeys(n, i)
    ensures IsEntry(n, l)
    decreases n, 0, |n.children| - i
  {
    if !Descends(n.children[i]) {
      LocateKeysSound(n, i + 1, l);
    } else {
      var child := n.children[i].1.node;
      var u := Under(i, n.children[i].0, Locate(child));
      if l in u {
        var k :| 0 <= k < |u| && u[k] == l;
        var inner := Locate(child)[k];
        LocateSound(child, inner);
        assert l.position[1..] == inner.position;
      } else {
        LocateKeysSound(n, i + 1, l);
      }
    }
  }

  /** The locations under key number `i` are among those the key loop lists from any `j <= i` on. */
  lemma {:induction false} LocateKeysIncludes(n: Node, j: nat, i: nat, l: Location)
    requires j <= i < |n.children| && Descends(n.children[i])
    requires l in Under(i, n.children[i].0, Locate(n.children[i].1.node))
    ensures l in LocateKeys(n, j)
    decreases i - j
  {
    if j < i {
      LocateKeysIncludes(n, j + 1, i, l);
    }
  }

  /** Every entry of the outline is listed by `Locate`. */
  lemma {:induction false} LocateComplete(n: Node, l: Location)
    requires IsEntry(n, l)
    ensures l in Locate(n)
    decreases |l.position|
  {
    if l.position == [] {
      assert OwnLocations(n.docs)[l.index] == l;
    } else {
      var i := l.position[0];
      var key := n.children[i].0;
      var child := n.children[i].1.node;
      var found := Subtree(child, l.position[1..]).value;
      var inner := Location(l.position[1..], found.0, l.index, l.spec);
      LocateComplete(child, inner);
      var k :| 0 <= k < |Locate(child)| && Locate(child)[k] == inner;
      assert Under(i, key, Locate(child))[k] == l;
      LocateKeysIncludes(n, 0, i, l);
    }
  }

  /** `Locate` lists exactly the entries of the outline. */
  lemma LocateExact(n: Node)
    ensures forall l :: l in Locate(n) <==> IsEntry(n, l)
  {
    forall l | l in Locate(n) ensures IsEntry(n, l) {
      LocateSound(n, l);
    }
    forall l | IsEntry(n, l) ensures l in Locate(n) {
      LocateComplete(n, l);
    }
  }

  lemma {:induction false} PrecedesIrreflexive(p: seq<nat>, i: nat)
    ensures !Precedes(p, i, p, i)
    decreases |p|
  {
    if p != [] {
      PrecedesIrreflexive(p[1..], i);
    }
  }

  /** Every location the key loop lists from `i` on lies under key number `i` or later. */
  lemma {:induction false} LocateKeysBelow(n: Node, i: nat)
    requires i <= |n.children|
    ensures forall l :: l in LocateKeys(n, i) ==> l.position != [] && i <= l.position[0]
    decreases |n.children| - i
  {
    if i < |n.children| {
      LocateKeysBelow(n, i + 1);
    }
  }

  /**
   * The walk lists a mapping's own entries in array order before anything
   * beneath it, and the keys of a mapping in key order.
   */
  lemma {:induction false} LocateOrdered(n: Node)
    ensures forall a, b :: 0 <= a < b < |Locate(n)| ==> Before(Locate(n)[a], Locate(n)[b])
    decreases n, 1
  {
    var own := OwnLocations(n.docs);
    var rest := LocateKeys(n, 0);
    LocateKeysOrdered(n, 0);
    LocateKeysBelow(n, 0);
    forall a, b | 0 <= a < b < |Locate(n)| ensures Before(Locate(n)[a], Locate(n)[b]) {
      if b < |own| {
        assert Locate(n)[a] == own[a] && Locate(n)[b] == own[b];
      } else if a < |own| {
        assert Locate(n)[a] == own[a] && Locate(n)[b] == rest[b - |own|];
        assert rest[b - |own|] in rest;
      } else {
        assert Locate(n)[a] == rest[a - |own|] && Locate(n)[b] == rest[b - |own|];
      }
    }
  }

  lemma {:induction false} LocateKeysOrdered(n: Node, i: nat)
    requires i <= |n.children|
    ensures forall a, b :: 0 <= a < b < |LocateKeys(n, i)| ==> Before(LocateKeys(n, i)[a], LocateKeys(n, i)[b])
    decreases n, 0, |n.children| - i
  {
    if i < |n.children| {
      LocateKeysOrdered(n, i + 1);
      if Descends(n.children[i]) {
        var child := n.children[i].1.node;
        var u := Under(i, n.children[i].0, Locate(child));
        var rest := LocateKeys(n, i + 1);
        LocateOrdered(child);
        LocateKeysBelow(n, i + 1);
        forall a, b | 0 <= a < b < |u + rest| ensures Before((u + rest)[a], (u + rest)[b]) {
          if b < |u| {
            assert Before(Locate(child)[a], Locate(child)[b]);
            assert u[a].position[1..] == Locate(child)[a].position;
            assert u[b].position[1..] == Locate(child)[b].position;
          } else if a < |u| {
            assert rest[b - |u|] in rest;
          }
        }
      }
    }
  }

  /** No entry is listed twice. */
  lemma LocateDistinct(n: Node)
    ensures forall a, b :: 0 <= a < b < |Locate(n)| ==> Locate(n)[a] != Locate(n)[b]
  {
    LocateOrdered(n);
    forall a, b | 0 <= a < b < |Locate(n)| ensures Locate(n)[a] != Locate(n)[b] {
      PrecedesIrreflexive(Locate(n)[a].position, Locate(n)[a].index);
    }
  }

  /**
   * Flattening yields nothing exactly when the outline has no entry in any
   * array-valued `_docs`: a non-array `_docs`, a scalar under another key
   * and an empty array all contribute nothing.
   */
  lemma TraverseEmptyIff(n: Node, outputPath: string)
    ensures Traverse(n, outputPath) == [] <==> forall l :: !IsEntry(n, l)
  {
    TraverseIsLocate(n, outputPath);
    LocateExact(n);
    if Traverse(n, outputPath) != [] {
      assert Locate(n)[0] in Locate(n);
    }
  }

  /**
   * The k-th task copies name, title and description from the k-th entry
   * the walk meets, and its output path joins the output root, the keys
   * leading to that entry's mapping, in order, and the entry's name.
   */
  lemma TraverseFields(n: Node, outputPath: string)
    ensures |Traverse(n, outputPath)| == |Locate(n)|
    ensures forall k :: 0 <= k < |Locate(n)| ==>
      var l := Locate(n)[k];
      && IsEntry(n, l)
      && Traverse(n, outputPath)[k] == DocFile(l.spec.name, l.spec.title, l.spec.description,
                                               JoinAll(outputPath, l.keys + [l.spec.name]))
  {
    TraverseIsLocate(n, outputPath);
    LocateExact(n);
  }

  /**
   * A mapping with no `_docs` array and nothing to descend into yields no
   * task. This is also how a top-level string fares: `Object.keys` lists its
   * character indices, each holding a string, so nothing is emitted.
   */
  lemma NothingToWalk(n: Node, outputPath: string)
    requires n.docs.NotAList?
    requires forall i :: 0 <= i < |n.children| ==> !Descends(n.children[i])
    ensures Traverse(n, outputPath) == []
  {
    assert forall l :: !IsEntry(n, l);
    TraverseEmptyIff(n, outputPath);
  }

  /** An array under a second `_docs` key is never walked: only the mapping's own `_docs` value counts. */
  lemma DocsKeyChildSkipped(docs: DocsField, v: Value, outputPath: string)
    ensures Traverse(Node(docs, [(DocsKey, v)]), outputPath) == OwnDocFiles(docs, outputPath)
  {
    var n := Node(docs, [(DocsKey, v)]);
    assert !Descends(n.children[0]);
    assert TraverseKeys(n, 1, outputPath) == [];
  }

  /**
   * The outlines whose paths `path.join` leaves alone: every entry name, and
   * every key on the way down to an entry, is a plain segment.
   */
  ghost predicate PlainOutline(n: Node) {
    forall l :: IsEntry(n, l) ==>
      && IsSegment(l.spec.name)
      && forall j :: 0 <= j < |l.keys| ==> IsSegment(l.keys[j])
  }

  /**
   * In a plain outline the directory of task k's file is the output root
   * joined with the keys down to its entry's mapping (`.` when that is
   * empty): this is the directory `generateDocs` creates before writing.
   */
  lemma TaskDirectory(n: Node, outputPath: string)
    requires PlainOutline(n)
    ensures |Traverse(n, outputPath)| == |Locate(n)|
    ensures forall k :: 0 <= k < |Traverse(n, outputPath)| ==>
      var dir := JoinAll(outputPath, Locate(n)[k].keys);
      Dirname(Traverse(n, outputPath)[k].outputPath) == if dir == "" then "." else dir
  {
    TraverseFields(n, outputPath);
    forall k | 0 <= k < |Traverse(n, outputPath)|
      ensures var dir := JoinAll(outputPath, Locate(n)[k].keys);
        Dirname(Traverse(n, outputPath)[k].outputPath) == if dir == "" then "." else dir
    {
      var l := Locate(n)[k];
      JoinAllSnoc(outputPath, l.keys, l.spec.name);
      DirnameOfJoin(JoinAll(outputPath, l.keys), l.spec.name);
    }
  }
}
