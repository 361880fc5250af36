/** The parse tree that BeautifulSoup builds from a page, reduced to what the
    scraper asks of it: elements with a tag name, attributes and children,
    character data that `get_text()` collects, and other strings (comments,
    doctype and the like) that it skips. Searching walks `.descendants`, the
    nodes below the document in document (pre-)order, as `find` and
    `find_all` do. The parser that produces the tree is not modelled. */
module Soup {
  import opened Wrappers
  import opened PyStr

  datatype Node =
    | Text(text: string)
    | Comment(text: string)
    | Element(tag: string, attrs: map<string, string>, children: seq<Node>)

  /** `.descendants` of a document or tag whose children are `f`. */
  function Descendants(f: seq<Node>): seq<Node>
  {
    if f == [] then []
    else [f[0]] + (if f[0].Element? then Descendants(f[0].children) else []) + Descendants(f[1..])
  }

  lemma {:induction false} DescendantsAppend(a: seq<Node>, b: seq<Node>)
    ensures Descendants(a + b) == Descendants(a) + Descendants(b)
  {
    if a != [] {
      assert (a + b)[0] == a[0];
      assert (a + b)[1..] == a[1..] + b;
      DescendantsAppend(a[1..], b);
    } else {
      assert a + b == b;
    }
  }

  /** Index of the first node of `s` that satisfies `p`. */
  function FirstIndex(s: seq<Node>, p: Node -> bool): (r: Option<nat>)
    ensures r.Some? ==> r.value < |s| && p(s[r.value])
    ensures r.Some? ==> forall j :: 0 <= j < r.value ==> !p(s[j])
    ensures r.None? ==> forall j :: 0 <= j < |s| ==> !p(s[j])
  {
    if s == [] then None
    else if p(s[0]) then Some(0)
    else match FirstIndex(s[1..], p)
      case None => None
      case Some(i) => Some(i + 1)
  }

  /** `find`: the first descendant, in document order, that satisfies `p`. */
  function Find(f: seq<Node>, p: Node -> bool): (r: Option<Node>)
    ensures r.Some? ==> p(r.value)
    ensures r.Some? ==> exists i :: 0 <= i < |Descendants(f)| && Descendants(f)[i] == r.value &&
                                  forall j :: 0 <= j < i ==> !p(Descendants(f)[j])
    ensures r.None? <==> forall j :: 0 <= j < |Descendants(f)| ==> !p(Descendants(f)[j])
  {
    var d := Descendants(f);
    match FirstIndex(d, p)
    case None => None
    case Some(i) => Some(d[i])
  }

  predicate HasTag(n: Node, tag: string) {
    n.Element? && n.tag == tag
  }

  /** The character data among `nodes`, in order. */
  function TextsOf(nodes: seq<Node>): seq<string>
  {
    if nodes == [] then []
    else (if nodes[0].Text? then [nodes[0].text] else []) + TextsOf(nodes[1..])
  }

  /** The strings `get_text()` visits below a node whose children are `f`. */
  function Strings(f: seq<Node>): seq<string> {
    TextsOf(Descendants(f))
  }

  /** `get_text()` with no separator: every string, concatenated. */
  function Concat(parts: seq<string>): string {
    if parts == [] then "" else parts[0] + Concat(parts[1..])
  }

  /** What stripping keeps of one string. */
  function Kept(x: string): seq<string> {
    if Strip(x) == "" then [] else [Strip(x)]
  }

  /** The stripped, non-empty strings, as `get_text(strip=True)` keeps them. */
  function StrippedNonEmpty(parts: seq<string>): (r: seq<string>)
    ensures forall k :: 0 <= k < |r| ==> r[k] != "" && r[k] == Strip(r[k])
  {
    if parts == [] then []
    else
      StripIdempotent(parts[0]);
      Kept(parts[0]) + StrippedNonEmpty(parts[1..])
  }

  /** Stripping the strings of two runs is stripping each run. */
  lemma {:induction false} StrippedNonEmptyAppend(a: seq<string>, b: seq<string>)
    ensures StrippedNonEmpty(a + b) == StrippedNonEmpty(a) + StrippedNonEmpty(b)
  {
    if a != [] {
      StrippedNonEmptyAppend(a[1..], b);
      StrippedNonEmptyAppendStep(a, b);
    } else {
      assert a + b == b;
    }
  }

  /** Reading the strings left to right, each one adds what stripping keeps
      of it after everything kept from the strings before it. */
  lemma StrippedNonEmptyInOrder(parts: seq<string>, k: nat)
    requires k < |parts|
    ensures StrippedNonEmpty(parts[..k + 1]) == StrippedNonEmpty(parts[..k]) + Kept(parts[k])
  {
    assert parts[..k + 1] == parts[..k] + [parts[k]];
    StrippedNonEmptyAppend(parts[..k], [parts[k]]);
    StrippedNonEmptyHead([parts[k]]);
    assert [parts[k]][1..] == [];
  }

  /** The inductive step of `StrippedNonEmptyAppend`. */
  lemma StrippedNonEmptyAppendStep(a: seq<string>, b: seq<string>)
    requires a != []
    requires StrippedNonEmpty(a[1..] + b) == StrippedNonEmpty(a[1..]) + StrippedNonEmpty(b)
    ensures StrippedNonEmpty(a + b) == StrippedNonEmpty(a) + StrippedNonEmpty(b)
  {
    StrippedNonEmptyHead(a);
    StrippedNonEmptyHeadOfAppend(a, b);
    ConcatAssoc(Kept(a[0]), StrippedNonEmpty(a[1..]), StrippedNonEmpty(b));
  }

  /** The first string of a concatenation is that of its first part. */
  lemma StrippedNonEmptyHeadOfAppend(a: seq<string>, b: seq<string>)
    requires a != []
    ensures StrippedNonEmpty(a + b) == Kept(a[0]) + StrippedNonEmpty(a[1..] + b)
  {
    assert (a + b)[0] == a[0] && (a + b)[1..] == a[1..] + b;
  }

  /** One step of the scan. */
  lemma StrippedNonEmptyHead(s: seq<string>)
    requires s != []
    ensures StrippedNonEmpty(s) == Kept(s[0]) + StrippedNonEmpty(s[1..])
  {
  }

  /** Concatenation is associative. */
  lemma ConcatAssoc<T>(x: seq<T>, y: seq<T>, z: seq<T>)
    ensures x + (y + z) == (x + y) + z
  {
  }

  /** What `get_text(strip=True)` keeps is exactly the non-empty stripped
      forms of the strings. */
  lemma {:induction false} StrippedNonEmptyMembers(parts: seq<string>, x: string)
    ensures x in StrippedNonEmpty(parts) <==> x != "" && exists k :: 0 <= k < |parts| && x == Strip(parts[k])
  {
    if parts != [] {
      StrippedNonEmptyHead(parts);
      StrippedNonEmptyMembers(parts[1..], x);
      StrippedFormShift(parts, x);
    }
  }

  /** `x` is the stripped form of a string of `parts` exactly when it is that of
      the first one or of one after it. */
  lemma StrippedFormShift(parts: seq<string>, x: string)
    requires parts != []
    ensures (exists k :: 0 <= k < |parts| && x == Strip(parts[k])) <==>
            x == Strip(parts[0]) || exists k :: 0 <= k < |parts[1..]| && x == Strip(parts[1..][k])
  {
    if exists k :: 0 <= k < |parts| && x == Strip(parts[k]) {
      var k :| 0 <= k < |parts| && x == Strip(parts[k]);
      if k > 0 {
        assert parts[1..][k - 1] == parts[k];
      }
    }
    if exists k :: 0 <= k < |parts[1..]| && x == Strip(parts[1..][k]) {
      var k :| 0 <= k < |parts[1..]| && x == Strip(parts[1..][k]);
      assert parts[k + 1] == parts[1..][k];
    }
  }

  lemma StripIdempotent(s: string)
    ensures Strip(Strip(s)) == Strip(s)
  {
    var t := Strip(s);
    if t != [] {
      StripPadded([], t, []);
      assert [] + t + [] == t;
    }
  }

  /** `tag.get_text(separator=sep, strip=True)` for a tag whose children are `f`. */
  function GetTextStripped(f: seq<Node>, sep: string): string {
    Join(sep, StrippedNonEmpty(Strings(f)))
  }

  /** `tag.string`: the one string below a chain of only-children, if there is one. */
  function StringOf(n: Node): Option<string>
  {
    match n
    case Text(s) => Some(s)
    case Comment(s) => Some(s)
    case Element(_, _, ch) => if |ch| == 1 then StringOf(ch[0]) else None
  }

  // ---------------------------------------------------------------------------
  // Removing subtrees

  /** The document with every element whose tag is in `tags` removed together
      with everything below it. */
  function RemoveTags(f: seq<Node>, tags: set<string>): seq<Node>
  {
    if f == [] then []
    else
      var rest := RemoveTags(f[1..], tags);
      match f[0]
      case Element(t, a, ch) => if t in tags then rest else [Element(t, a, RemoveTags(ch, tags))] + rest
      case _ => [f[0]] + rest
  }

  predicate Removed(n: Node, tags: set<string>) {
    n.Element? && n.tag in tags
  }

  /** No element with one of the removed tags is left anywhere in the result. */
  lemma {:induction false} RemoveTagsLeavesNone(f: seq<Node>, tags: set<string>)
    ensures forall j :: 0 <= j < |Descendants(RemoveTags(f, tags))| ==> !Removed(Descendants(RemoveTags(f, tags))[j], tags)
  {
    if f != [] {
      RemoveTagsLeavesNone(f[1..], tags);
      var rest := RemoveTags(f[1..], tags);
      match f[0]
      case Element(t, a, ch) =>
        if t !in tags {
          RemoveTagsLeavesNone(ch, tags);
          var n := Element(t, a, RemoveTags(ch, tags));
          DescendantsAppend([n], rest);
          assert [n][1..] == [];
        }
      case _ =>
        DescendantsAppend([f[0]], rest);
        assert [f[0]][1..] == [];
    }
  }

  /** A document that has none of the tags is left as it is. */
  lemma {:induction false} RemoveTagsNoop(f: seq<Node>, tags: set<string>)
    requires forall j :: 0 <= j < |Descendants(f)| ==> !Removed(Descendants(f)[j], tags)
    ensures RemoveTags(f, tags) == f
  {
    if f != [] {
      var d := Descendants(f);
      var below := if f[0].Element? then Descendants(f[0].children) else [];
      assert d == [f[0]] + below + Descendants(f[1..]);
      assert !Removed(d[0], tags);
      forall j | 0 <= j < |Descendants(f[1..])|
        ensures !Removed(Descendants(f[1..])[j], tags)
      {
        assert Descendants(f[1..])[j] == d[1 + |below| + j];
      }
      RemoveTagsNoop(f[1..], tags);
      if f[0].Element? {
        forall j | 0 <= j < |below|
          ensures !Removed(below[j], tags)
        {
          assert below[j] == d[1 + j];
        }
        RemoveTagsNoop(f[0].children, tags);
      }
    }
  }

  /** Two documents that differ only inside removed subtrees (the removed
      elements themselves may carry any attributes and children). */
  predicate SameOutside(f: seq<Node>, g: seq<Node>, tags: set<string>)
  {
    |f| == |g| &&
    (f == [] ||
      ((if Removed(f[0], tags) then Removed(g[0], tags)
        else if f[0].Element? then
          g[0].Element? && g[0].tag == f[0].tag && g[0].attrs == f[0].attrs &&
          SameOutside(f[0].children, g[0].children, tags)
        else g[0] == f[0])
       && SameOutside(f[1..], g[1..], tags)))
  }

  /** What lies inside removed subtrees cannot influence the cleaned document. */
  lemma {:induction false} RemoveTagsIgnoresRemoved(f: seq<Node>, g: seq<Node>, tags: set<string>)
    requires SameOutside(f, g, tags)
    ensures RemoveTags(f, tags) == RemoveTags(g, tags)
  {
    if f != [] {
      RemoveTagsIgnoresRemoved(f[1..], g[1..], tags);
      if !Removed(f[0], tags) && f[0].Element? {
        RemoveTagsIgnoresRemoved(f[0].children, g[0].children, tags);
      }
    }
  }

  // ---------------------------------------------------------------------------
  // Node identity and in-place decomposition

  /** An element is identified by its position in the tree the parser built:
      the child indices leading to it from the document. */
  type Path = seq<nat>

  /** `find_all(tags)`: the positions of all elements with one of the tags, in
      document order, nested ones included. Node `f[k]` sits at `base + [start + k]`. */
  function FindAll(f: seq<Node>, tags: set<string>, base: Path, start: nat): seq<Path>
  {
    if f == [] then []
    else
      var p := base + [start];
      (if Removed(f[0], tags) then [p] else [])
      + (if f[0].Element? then FindAll(f[0].children, tags, p, 0) else [])
      + FindAll(f[1..], tags, base, start + 1)
  }

  /** The tree as it stands after the elements at `gone` were decomposed. */
  function Prune(f: seq<Node>, gone: set<Path>, base: Path, start: nat): seq<Node>
  {
    if f == [] then []
    else
      var p := base + [start];
      var rest := Prune(f[1..], gone, base, start + 1);
      if p in gone then rest
      else match f[0]
        case Element(t, a, ch) => [Element(t, a, Prune(ch, gone, p, 0))] + rest
        case _ => [f[0]] + rest
  }

  /** `q` lies strictly below `base`, at or after child `start`. */
  predicate Under(q: Path, base: Path, start: nat) {
    |q| > |base| && q[..|base|] == base && q[|base|] >= start
  }

  lemma {:induction false} FindAllUnder(f: seq<Node>, tags: set<string>, base: Path, start: nat, q: Path)
    requires q in FindAll(f, tags, base, start)
    ensures Under(q, base, start) && q[|base|] < start + |f|
  {
    var p := base + [start];
    var inHead := if f[0].Element? then FindAll(f[0].children, tags, p, 0) else [];
    if q in FindAll(f[1..], tags, base, start + 1) {
      FindAllUnder(f[1..], tags, base, start + 1, q);
    } else if q in inHead {
      FindAllUnder(f[0].children, tags, p, 0, q);
      assert q[..|base|] == q[..|p|][..|base|];
      assert q[|base|] == q[..|p|][|base|];
    }
  }

  /** `gone` marks exactly the removable elements of `f`, at every level that survives. */
  predicate Marks(f: seq<Node>, gone: set<Path>, base: Path, start: nat, tags: set<string>)
  {
    f == [] ||
    (var p := base + [start];
     (if Removed(f[0], tags) then p in gone
      else p !in gone && (f[0].Element? ==> Marks(f[0].children, gone, p, 0, tags)))
     && Marks(f[1..], gone, base, start + 1, tags))
  }

  lemma {:induction false} PruneMarked(f: seq<Node>, gone: set<Path>, base: Path, start: nat, tags: set<string>)
    requires Marks(f, gone, base, start, tags)
    ensures Prune(f, gone, base, start) == RemoveTags(f, tags)
  {
    if f != [] {
      var p := base + [start];
      PruneMarked(f[1..], gone, base, start + 1, tags);
      if !Removed(f[0], tags) && f[0].Element? {
        PruneMarked(f[0].children, gone, p, 0, tags);
      }
    }
  }

  /** A set that agrees with `find_all` below `base` marks the document. */
  lemma {:induction false} FindAllMarks(f: seq<Node>, gone: set<Path>, base: Path, start: nat, tags: set<string>)
    requires forall q :: Under(q, base, start) ==> (q in gone <==> q in FindAll(f, tags, base, start))
    ensures Marks(f, gone, base, start, tags)
  {
    if f != [] {
      var p := base + [start];
      var all := FindAll(f, tags, base, start);
      var inHead := if f[0].Element? then FindAll(f[0].children, tags, p, 0) else [];
      var inRest := FindAll(f[1..], tags, base, start + 1);
      assert all == (if Removed(f[0], tags) then [p] else []) + inHead + inRest;
      assert p[..|base|] == base;
      assert Under(p, base, start);
      assert p !in inRest by {
        if p in inRest { FindAllUnder(f[1..], tags, base, start + 1, p); }
      }
      assert p !in inHead by {
        if p in inHead { FindAllUnder(f[0].children, tags, p, 0, p); }
      }
      forall q | Under(q, base, start + 1)
        ensures q in gone <==> q in inRest
      {
        if q in inHead {
          FindAllUnder(f[0].children, tags, p, 0, q);
        }
      }
      FindAllMarks(f[1..], gone, base, start + 1, tags);
      if !Removed(f[0], tags) && f[0].Element? {
        forall q | Under(q, p, 0)
          ensures q in gone <==> q in inHead
        {
          assert q[..|base|] == q[..|p|][..|base|];
          assert q[|base|] == q[..|p|][|base|];
          assert Under(q, base, start);
          if q in inRest {
            FindAllUnder(f[1..], tags, base, start + 1, q);
          }
        }
        FindAllMarks(f[0].children, gone, p, 0, tags);
      }
    }
  }

  /** A parsed page whose elements can be decomposed in place. */
  class Soup {
    /** The tree as the parser built it. */
    const tree: seq<Node>
    /** Positions (in `tree`) of the elements decomposed so far. */
    var detached: set<Path>

    constructor (tree: seq<Node>)
      ensures this.tree == tree && detached == {}
    {
      this.tree := tree;
      detached := {};
    }

    /** The document as it currently reads. */
    function Roots(): seq<Node>
      reads this
    {
      Prune(tree, detached, [], 0)
    }

    /** `tag.decompose()` for the element at position `p`: it and everything
        below it leave the document. Decomposing an element that already left
        with an ancestor changes nothing visible. */
    method Decompose(p: Path)
      modifies this
      ensures detached == old(detached) + {p}
    {
      detached := detached + {p};
    }

    /** `for tag in soup.find_all(tags): tag.decompose()`. */
    method DecomposeAll(tags: set<string>)
      requires detached == {}
      modifies this
      ensures Roots() == RemoveTags(tree, tags)
    {
      var targets := FindAll(tree, tags, [], 0);
      for k := 0 to |targets|
        invariant detached == set j | 0 <= j < k :: targets[j]
      {
        Decompose(targets[k]);
      }
      assert forall q :: q in detached <==> q in targets;
      FindAllMarks(tree, detached, [], 0, tags);
      PruneMarked(tree, detached, [], 0, tags);
    }
  }
}
