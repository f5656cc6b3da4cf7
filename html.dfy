/** The parsed HTML document and the BeautifulSoup navigation the extractor
    uses: `.string`, `find_all`, `find_next`, a tag's own `find`,
    `find_next_sibling` and `get_text(strip=True)`. Positions are indices
    into the document-order (pre-order) flattening of the tree. */
module Html {
  import opened Wrappers
  import Text

  /** A text piece (BeautifulSoup's NavigableString) or a tag with its children. */
  datatype Node = Str(value: string) | Tag(name: string, children: seq<Node>)

  /** The top-level nodes of a parsed page, in document order. */
  type Document = seq<Node>

  function Children(n: Node): seq<Node> {
    match n
    case Str(_) => []
    case Tag(_, cs) => cs
  }

  /** BeautifulSoup's `.string`: a text piece is its own string; a tag with
      exactly one child has that child's string; any other tag has None. */
  function StringOf(n: Node): Option<string> {
    match n
    case Str(s) => Some(s)
    case Tag(_, cs) => if |cs| == 1 then StringOf(cs[0]) else None
  }

  /** `n` followed by all its descendants, in document order. */
  function Flatten(n: Node): (r: seq<Node>)
    decreases n, 1
    ensures |r| >= 1 && r[0] == n
  {
    match n
    case Str(_) => [n]
    case Tag(_, cs) => [n] + FlattenAll(cs)
  }

  /** Every node of a forest, in document order. */
  function FlattenAll(ns: seq<Node>): seq<Node>
    decreases ns, 0
  {
    if ns == [] then [] else Flatten(ns[0]) + FlattenAll(ns[1..])
  }

  /** A search filter: a tag name and, optionally, a substring the tag's
      `.string` must contain (the script's `string=lambda text: text and L in text`). */
  datatype Query = Query(name: string, caption: Option<string>)

  predicate Hits(q: Query, n: Node) {
    && n.Tag?
    && n.name == q.name
    && match q.caption
       case None => true
       case Some(l) =>
         match StringOf(n)
         case None => false
         case Some(t) => t != "" && Text.Contains(t, l)
  }

  /** The first position at or after `start` whose node the query hits.
      `find_next` from the node at position `i` is `FindFrom(flat, i + 1, q)`:
      it sees the node's own descendants and everything after them. */
  function FindFrom(s: seq<Node>, start: nat, q: Query): (r: Option<nat>)
    decreases |s| - start
    ensures r.Some? ==> start <= r.value < |s|
  {
    if start >= |s| then None
    else if Hits(q, s[start]) then Some(start)
    else FindFrom(s, start + 1, q)
  }

  /** `FindFrom` returns the first hit at or after `start`, and None only
      when nothing from `start` on is hit. */
  lemma {:induction false} FindFromFirstHit(s: seq<Node>, start: nat, q: Query)
    decreases |s| - start
    ensures var r := FindFrom(s, start, q);
            && (r.Some? ==> Hits(q, s[r.value]) && forall k :: start <= k < r.value ==> !Hits(q, s[k]))
            && (r.None? ==> forall k :: start <= k < |s| ==> !Hits(q, s[k]))
  {
    if start < |s| && !Hits(q, s[start]) {
      FindFromFirstHit(s, start + 1, q);
    }
  }

  /** Every position at or after `start` whose node the query hits, in
      increasing order; `find_all` on the whole page is `FindAllFrom(flat, 0, q)`. */
  function FindAllFrom(s: seq<Node>, start: nat, q: Query): (r: seq<nat>)
    decreases |s| - start
  {
    if start >= |s| then []
    else if Hits(q, s[start]) then [start] + FindAllFrom(s, start + 1, q)
    else FindAllFrom(s, start + 1, q)
  }

  /** `FindAllFrom` lists exactly the hit positions from `start` on, each
      once, in increasing order. */
  lemma {:induction false} FindAllFromHits(s: seq<Node>, start: nat, q: Query)
    decreases |s| - start
    ensures var r := FindAllFrom(s, start, q);
            && (forall k :: 0 <= k < |r| ==> start <= r[k] < |s| && Hits(q, s[r[k]]))
            && (forall k, l :: 0 <= k < l < |r| ==> r[k] < r[l])
            && (forall j :: start <= j < |s| ==> (Hits(q, s[j]) <==> j in r))
  {
    if start < |s| {
      FindAllFromHits(s, start + 1, q);
    }
  }

  /** A node found inside a tag, with the siblings that follow it. */
  datatype Hit = Hit(node: Node, after: seq<Node>)

  /** `tag.find(name, string=...)` on a tag whose children are `ns`: a
      document-order search of the tag's descendants. The hit keeps the
      siblings that follow the node, where `find_next_sibling` looks. */
  function FindIn(ns: seq<Node>, q: Query): (r: Option<Hit>)
    decreases ns
  {
    if ns == [] then None
    else if Hits(q, ns[0]) then Some(Hit(ns[0], ns[1..]))
    else
      match ns[0]
      case Str(_) => FindIn(ns[1..], q)
      case Tag(_, cs) =>
        match FindIn(cs, q)
        case Some(h) => Some(h)
        case None => FindIn(ns[1..], q)
  }

  /** `get_text(strip=True)`: every text piece below the node, each stripped,
      joined with nothing between them. */
  function GetText(n: Node): string
    decreases n, 1
  {
    match n
    case Str(s) => Text.Strip(s)
    case Tag(_, cs) => GetTextAll(cs)
  }

  function GetTextAll(ns: seq<Node>): string
    decreases ns, 0
  {
    if ns == [] then "" else GetText(ns[0]) + GetTextAll(ns[1..])
  }

  // ---------------------------------------------------------------------
  // Properties of the navigation primitives
  // ---------------------------------------------------------------------

  /** A position that satisfies the first-hit property is the one `FindFrom` returns. */
  lemma {:induction false} FindFromIsFirst(s: seq<Node>, start: nat, q: Query, j: nat)
    requires start <= j < |s| && Hits(q, s[j])
    requires forall k :: start <= k < j ==> !Hits(q, s[k])
    decreases j - start
    ensures FindFrom(s, start, q) == Some(j)
  {
    if start < j {
      FindFromIsFirst(s, start + 1, q, j);
    }
  }

  /** Searching a concatenation: the first hit in `a`, or else the first hit
      in `b`, shifted past `a`. */
  lemma FindFromConcat(a: seq<Node>, b: seq<Node>, q: Query)
    ensures FindFrom(a + b, 0, q) ==
      match FindFrom(a, 0, q)
      case Some(i) => Some(i)
      case None =>
        match FindFrom(b, 0, q)
        case None => None
        case Some(j) => Some(|a| + j)
  {
    var ab := a + b;
    FindFromFirstHit(a, 0, q);
    FindFromFirstHit(b, 0, q);
    FindFromFirstHit(ab, 0, q);
    match FindFrom(a, 0, q)
    case Some(i) =>
      FindFromIsFirst(ab, 0, q, i);
    case None =>
      match FindFrom(b, 0, q)
      case None =>
        forall k | 0 <= k < |ab| ensures !Hits(q, ab[k]) {
          if k >= |a| { assert ab[k] == b[k - |a|]; }
        }
      case Some(j) =>
        forall k | 0 <= k < |a| + j ensures !Hits(q, ab[k]) {
          if k >= |a| { assert ab[k] == b[k - |a|]; }
        }
        FindFromIsFirst(ab, 0, q, |a| + j);
  }

  /** A tag's own `find` returns the first hit of a document-order walk over
      its descendants, exactly as a forward search over their flattening does. */
  lemma {:induction false} FindInIsFirstInOrder(ns: seq<Node>, q: Query)
    decreases ns
    ensures match FindFrom(FlattenAll(ns), 0, q)
            case None => FindIn(ns, q).None?
            case Some(j) => FindIn(ns, q).Some? && FindIn(ns, q).value.node == FlattenAll(ns)[j]
  {
    if ns != [] {
      var n := ns[0];
      var rest := FlattenAll(ns[1..]);
      assert FlattenAll(ns) == Flatten(n) + rest;
      FindInIsFirstInOrder(ns[1..], q);
      FindFromConcat(Flatten(n), rest, q);
      if Hits(q, n) {
        FindFromIsFirst(Flatten(n), 0, q, 0);
      } else {
        match n
        case Str(_) =>
          assert Flatten(n) == [n];
        case Tag(_, cs) =>
          FindInIsFirstInOrder(cs, q);
          FindFromConcat([n], FlattenAll(cs), q);
          assert FindFrom([n], 0, q).None?;
      }
    }
  }

  /** What a tag's own `find` returns is a hit, and one of the tag's descendants. */
  lemma {:induction false} FindInFound(ns: seq<Node>, q: Query)
    decreases ns
    requires FindIn(ns, q).Some?
    ensures Hits(q, FindIn(ns, q).value.node) && FindIn(ns, q).value.node in FlattenAll(ns)
  {
    var node := FindIn(ns, q).value.node;
    assert FlattenAll(ns) == Flatten(ns[0]) + FlattenAll(ns[1..]);
    if !Hits(q, ns[0]) {
      match ns[0]
      case Str(_) =>
        FindInFound(ns[1..], q);
      case Tag(_, cs) =>
        if FindIn(cs, q).Some? {
          FindInFound(cs, q);
          assert Flatten(ns[0]) == [ns[0]] + FlattenAll(cs);
        } else {
          FindInFound(ns[1..], q);
        }
    }
  }

  /** A tag's own `find` finds nothing when none of its descendants is a hit. */
  lemma {:induction false} FindInNone(ns: seq<Node>, q: Query)
    decreases ns
    requires forall n :: n in FlattenAll(ns) ==> !Hits(q, n)
    ensures FindIn(ns, q).None?
  {
    if ns != [] {
      assert FlattenAll(ns) == Flatten(ns[0]) + FlattenAll(ns[1..]);
      FindInNone(ns[1..], q);
      match ns[0]
      case Str(_) =>
      case Tag(_, cs) =>
        assert Flatten(ns[0]) == [ns[0]] + FlattenAll(cs);
        FindInNone(cs, q);
    }
  }

  /** The siblings after the node at position `j` of the flattening of the
      forest `ns`, in the child list that holds that node (for a top-level
      node, the rest of the forest): where `find_next_sibling` looks. */
  function SiblingsAt(ns: seq<Node>, j: nat): seq<Node>
    requires j < |FlattenAll(ns)|
    decreases ns
  {
    assert FlattenAll(ns) == Flatten(ns[0]) + FlattenAll(ns[1..]);
    match ns[0]
    case Str(_) => if j == 0 then ns[1..] else SiblingsAt(ns[1..], j - 1)
    case Tag(_, cs) =>
      if j == 0 then ns[1..]
      else if j <= |FlattenAll(cs)| then SiblingsAt(cs, j - 1)
      else SiblingsAt(ns[1..], j - 1 - |FlattenAll(cs)|)
  }

  /** What a tag's own `find` returns carries the siblings of the very node
      it found, the first hit in document order, so `find_next_sibling`
      searches that node's own parent. */
  lemma {:induction false} FindInKeepsSiblings(ns: seq<Node>, q: Query)
    decreases ns
    requires FindIn(ns, q).Some?
    ensures FindFrom(FlattenAll(ns), 0, q).Some?
    ensures FindIn(ns, q).value.after == SiblingsAt(ns, FindFrom(FlattenAll(ns), 0, q).value)
  {
    var n := ns[0];
    var rest := FlattenAll(ns[1..]);
    assert FlattenAll(ns) == Flatten(n) + rest;
    FindFromConcat(Flatten(n), rest, q);
    if Hits(q, n) {
      FindFromIsFirst(Flatten(n), 0, q, 0);
    } else {
      match n
      case Str(_) =>
        assert Flatten(n) == [n];
        FindInKeepsSiblings(ns[1..], q);
      case Tag(_, cs) =>
        FindFromConcat([n], FlattenAll(cs), q);
        assert FindFrom([n], 0, q).None?;
        if FindIn(cs, q).Some? {
          FindInKeepsSiblings(cs, q);
        } else {
          FindInIsFirstInOrder(cs, q);
          FindInKeepsSiblings(ns[1..], q);
        }
    }
  }

  /** Every node below a node of the forest is itself a node of the forest. */
  lemma {:induction false} DescendantsInForest(ns: seq<Node>, n: Node)
    decreases ns
    requires n in FlattenAll(ns)
    ensures forall m :: m in Flatten(n) ==> m in FlattenAll(ns)
  {
    var head := ns[0];
    assert FlattenAll(ns) == Flatten(head) + FlattenAll(ns[1..]);
    if n in FlattenAll(ns[1..]) {
      DescendantsInForest(ns[1..], n);
    } else if n != head {
      match head
      case Tag(_, cs) =>
        assert Flatten(head) == [head] + FlattenAll(cs);
        DescendantsInForest(cs, n);
    }
  }

  /** Text taken with `get_text(strip=True)` never begins or ends with whitespace. */
  lemma {:induction false} GetTextTrimmed(n: Node)
    decreases n, 1
    ensures Text.Trimmed(GetText(n))
  {
    match n
    case Str(s) => Text.StripSpec(s);
    case Tag(_, cs) => GetTextAllTrimmed(cs);
  }

  lemma {:induction false} GetTextAllTrimmed(ns: seq<Node>)
    decreases ns, 0
    ensures Text.Trimmed(GetTextAll(ns))
  {
    if ns != [] {
      GetTextTrimmed(ns[0]);
      GetTextAllTrimmed(ns[1..]);
      Text.TrimmedConcat(GetText(ns[0]), GetTextAll(ns[1..]));
    }
  }

  /** When a node has a `.string`, `get_text(strip=True)` is that string stripped. */
  lemma {:induction false} GetTextOfString(n: Node)
    requires StringOf(n).Some?
    ensures GetText(n) == Text.Strip(StringOf(n).value)
  {
    match n
    case Str(_) =>
    case Tag(_, cs) =>
      GetTextOfString(cs[0]);
      assert GetTextAll(cs) == GetText(cs[0]) + GetTextAll(cs[1..]);
      assert cs[1..] == [];
  }
}
