/**
 * The scene document as an ordered tree of XML elements, and the parts of
 * lxml's element interface the builder uses: `SubElement` (append a child at
 * the end), `set`/`get` of an attribute, `text` and a first-match search
 * over a child list; `find` along a tag path is used to state what the
 * subtrees contain.
 */
module SdfTree {

  datatype Option<T> = None | Some(value: T)

  /** An element: tag, attributes, optional text and the ordered children. */
  datatype Node = Node(tag: string, attrs: map<string, string>, text: Option<string>, children: seq<Node>)

  /** A fresh `SubElement` with children added below it and nothing else set. */
  function Elem(tag: string, children: seq<Node>): Node
  {
    Node(tag, map[], None, children)
  }

  /** A fresh `SubElement` whose only content is its text. */
  function Leaf(tag: string, text: string): Node
  {
    Node(tag, map[], Some(text), [])
  }

  /** A fresh `SubElement` on which `set('name', name)` was called. */
  function Named(tag: string, name: string, children: seq<Node>): Node
  {
    Node(tag, map["name" := name], None, children)
  }

  /** `SubElement(n, …)` repeated: the new children go after the old ones. */
  function Appended(n: Node, extra: seq<Node>): (r: Node)
    ensures r.tag == n.tag && r.attrs == n.attrs && r.text == n.text
    ensures |r.children| == |n.children| + |extra|
    ensures r.children[..|n.children|] == n.children
    ensures forall k :: 0 <= k < |extra| ==> r.children[|n.children| + k] == extra[k]
  {
    n.(children := n.children + extra)
  }

  lemma AppendedTwice(n: Node, a: seq<Node>, b: seq<Node>)
    ensures Appended(Appended(n, a), b) == Appended(n, a + b)
  {
    assert n.children + a + b == n.children + (a + b);
  }

  /** Appending below the last of `s + [x]` changes only that element. */
  lemma AppendBelowLast(s: seq<Node>, x: Node, c: Node)
    ensures (s + [x])[|s| := Appended(x, [c])] == s + [Appended(x, [c])]
  {
  }

  /** Appending the next element of `extra` extends the appended prefix of it by one. */
  lemma AppendedPrefixStep(n: Node, extra: seq<Node>, i: nat)
    requires i < |extra|
    ensures Appended(Appended(n, extra[..i]), [extra[i]]) == Appended(n, extra[..i + 1])
  {
    AppendedTwice(n, extra[..i], [extra[i]]);
    assert extra[..i + 1] == extra[..i] + [extra[i]];
  }

  /** One more element of `s` taken onto a prefix of it. */
  lemma PrefixStep<T>(s: seq<T>, j: nat)
    requires j < |s|
    ensures s[..j + 1] == s[..j] + [s[j]]
  {
  }

  /** lxml's `element.get(key)`: `None` when the attribute is absent. */
  function Get(n: Node, key: string): Option<string>
  {
    if key in n.attrs then Some(n.attrs[key]) else None
  }

  /** The index of the first child tagged `tag`, as lxml's `find(tag)` picks it. */
  function FindChild(cs: seq<Node>, tag: string): (r: Option<nat>)
    ensures r.Some? ==> r.value < |cs| && cs[r.value].tag == tag
  {
    if cs == [] then None
    else if cs[0].tag == tag then Some(0)
    else match FindChild(cs[1..], tag)
      case None => None
      case Some(i) => Some(i + 1)
  }

  /** `find(tag)` picks child i exactly when it is the first child tagged `tag`. */
  lemma {:induction false} FindChildAt(cs: seq<Node>, tag: string, i: nat)
    requires i < |cs| && cs[i].tag == tag
    requires forall j :: 0 <= j < i ==> cs[j].tag != tag
    ensures FindChild(cs, tag) == Some(i)
  {
    if i > 0 {
      assert cs[0].tag != tag;
      FindChildAt(cs[1..], tag, i - 1);
    }
  }

  /**
   * Follow the first child with each tag of `path` in turn. This agrees with
   * lxml's `find('a/b/c')` whenever it finds an element; lxml also searches
   * later `a` children when the first one has no `b`, which this does not.
   */
  function Find(n: Node, path: seq<string>): Option<Node>
    decreases |path|
  {
    if path == [] then Some(n)
    else match FindChild(n.children, path[0])
      case None => None
      case Some(i) => Find(n.children[i], path[1..])
  }

  /** One step of `find`: through the first child tagged `tag`, which is child i. */
  lemma FindVia(n: Node, tag: string, i: nat, rest: seq<string>)
    requires i < |n.children| && n.children[i].tag == tag
    requires forall j :: 0 <= j < i ==> n.children[j].tag != tag
    ensures Find(n, [tag] + rest) == Find(n.children[i], rest)
  {
    FindChildAt(n.children, tag, i);
    assert ([tag] + rest)[1..] == rest;
  }

  /** `find(a + '/' + b)` is `find(b)` below `find(a)`. */
  lemma {:induction false} FindConcat(n: Node, a: seq<string>, b: seq<string>)
    ensures Find(n, a + b) == match Find(n, a) case None => None case Some(m) => Find(m, b)
    decreases |a|
  {
    if a == [] {
      assert a + b == b;
    } else {
      assert (a + b)[0] == a[0];
      assert (a + b)[1..] == a[1..] + b;
      match FindChild(n.children, a[0])
      case None =>
      case Some(i) => FindConcat(n.children[i], a[1..], b);
    }
  }

  /** The text of the element `find(path)` reaches, if there is one with text. */
  function TextAt(n: Node, path: seq<string>): Option<string>
  {
    match Find(n, path)
    case None => None
    case Some(m) => m.text
  }

  /** The number of elements of `cs` tagged `tag`. */
  function CountTag(cs: seq<Node>, tag: string): (r: nat)
    ensures r <= |cs|
  {
    if cs == [] then 0 else (if cs[0].tag == tag then 1 else 0) + CountTag(cs[1..], tag)
  }

  lemma {:induction false} CountTagAppend(a: seq<Node>, b: seq<Node>, tag: string)
    ensures CountTag(a + b, tag) == CountTag(a, tag) + CountTag(b, tag)
  {
    if a != [] {
      assert (a + b)[1..] == a[1..] + b;
      CountTagAppend(a[1..], b, tag);
    } else {
      assert a + b == b;
    }
  }

  lemma {:induction false} CountTagAll(cs: seq<Node>, tag: string)
    requires forall j :: 0 <= j < |cs| ==> cs[j].tag == tag
    ensures CountTag(cs, tag) == |cs|
  {
    if cs != [] {
      CountTagAll(cs[1..], tag);
    }
  }

  lemma {:induction false} CountTagAbsent(cs: seq<Node>, tag: string)
    requires forall j :: 0 <= j < |cs| ==> cs[j].tag != tag
    ensures CountTag(cs, tag) == 0
  {
    if cs != [] {
      CountTagAbsent(cs[1..], tag);
    }
  }
}
