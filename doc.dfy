/** A parsed XML document as BeautifulSoup presents it: elements with a name, attributes
    and ordered children; `find_all` walks the descendants in document order. */
module Doc {
  import opened Wrappers

  datatype Node = Node(name: string, attrs: map<string, string>, children: seq<Node>)

  /** An element found in a document, with its ancestors nearest first: `ancestors[0]` is
      its `.parent`. The document itself is the last ancestor. */
  datatype Hit = Hit(node: Node, ancestors: seq<Node>)

  /** The name BeautifulSoup gives the document object itself. */
  const DocumentName: string := "[document]"

  /** A whole parsed page, before any `find`. */
  function Root(doc: Node): Hit {
    Hit(doc, [])
  }

  /** `tag.get(key)`. */
  function Get(n: Node, key: string): (r: Option<string>)
    ensures r.Some? <==> key in n.attrs
  {
    if key in n.attrs then Some(n.attrs[key]) else None
  }

  /** `tag.get(key, default)`. */
  function GetOr(n: Node, key: string, default: string): (r: string)
    ensures key in n.attrs ==> Get(n, key) == Some(r)
    ensures key !in n.attrs ==> r == default
  {
    Get(n, key).GetOr(default)
  }

  /** Every element below `n`, in document order (an element before its own descendants,
      and those before its next sibling). */
  function Descendants(n: Node, ancestors: seq<Node>): (r: seq<Hit>)
    ensures forall i :: 0 <= i < |r| ==> |r[i].ancestors| > |ancestors|
    decreases n
  {
    Within(n.children, [n] + ancestors)
  }

  /** The children `cs` of one element, each followed by its own descendants. */
  function Within(cs: seq<Node>, ancestors: seq<Node>): (r: seq<Hit>)
    ensures forall i :: 0 <= i < |r| ==> |r[i].ancestors| >= |ancestors|
    decreases cs
  {
    if cs == [] then []
    else [Hit(cs[0], ancestors)] + Descendants(cs[0], ancestors) + Within(cs[1..], ancestors)
  }

  /** The hits whose element is called `name`, in their original order. */
  function Named(hs: seq<Hit>, name: string): (r: seq<Hit>)
    ensures |r| <= |hs|
    ensures forall i :: 0 <= i < |r| ==> r[i].node.name == name && r[i] in hs
    ensures forall i :: 0 <= i < |hs| && hs[i].node.name == name ==> hs[i] in r
  {
    if hs == [] then []
    else
      var rest := Named(hs[1..], name);
      if hs[0].node.name == name then [hs[0]] + rest else rest
  }

  /** `tag.find_all(name)`. */
  function FindAll(h: Hit, name: string): (r: seq<Hit>)
    ensures forall i :: 0 <= i < |r| ==> r[i].node.name == name
    ensures forall i :: 0 <= i < |r| ==> |r[i].ancestors| > |h.ancestors|
  {
    Named(Descendants(h.node, h.ancestors), name)
  }

  /** The hits whose element has attribute `key` equal to `value`. */
  function WithAttr(hs: seq<Hit>, key: string, value: string): (r: seq<Hit>)
    ensures forall i :: 0 <= i < |r| ==> Get(r[i].node, key) == Some(value) && r[i] in hs
    ensures forall i :: 0 <= i < |hs| && Get(hs[i].node, key) == Some(value) ==> hs[i] in r
  {
    if hs == [] then []
    else
      var rest := WithAttr(hs[1..], key, value);
      if Get(hs[0].node, key) == Some(value) then [hs[0]] + rest else rest
  }

  /** The position of the first hit whose element has attribute `key` equal to `value`,
      or `|hs|` when there is none. */
  function FirstWith(hs: seq<Hit>, key: string, value: string): (k: nat)
    ensures k <= |hs|
    ensures forall j :: 0 <= j < k ==> Get(hs[j].node, key) != Some(value)
    ensures k < |hs| ==> Get(hs[k].node, key) == Some(value)
    ensures k < |hs| <==> |WithAttr(hs, key, value)| > 0
    ensures k < |hs| ==> WithAttr(hs, key, value)[0] == hs[k]
  {
    if hs == [] then 0
    else if Get(hs[0].node, key) == Some(value) then 0
    else FirstWith(hs[1..], key, value) + 1
  }

  /** `tag.find(name)`: the first of `find_all(name)`, or `None`. */
  function Find(h: Hit, name: string): (r: Option<Hit>)
    ensures r.Some? <==> |FindAll(h, name)| > 0
    ensures r.Some? ==> r.value == FindAll(h, name)[0] && r.value.node.name == name
  {
    var all := FindAll(h, name);
    if |all| > 0 then Some(all[0]) else None
  }

  /** `tag.find(name, key=value)`: the first element called `name` whose attribute `key`
      is `value`. */
  function FindWith(h: Hit, name: string, key: string, value: string): (r: Option<Hit>)
    ensures r.Some? ==> r.value.node.name == name && Get(r.value.node, key) == Some(value)
    ensures r.None? ==> forall i :: 0 <= i < |FindAll(h, name)| ==> Get(FindAll(h, name)[i].node, key) != Some(value)
    ensures var all := FindAll(h, name);
      var k := FirstWith(all, key, value);
      && (r.None? <==> k == |all|)
      && (r.Some? ==> r.value == all[k] && forall j :: 0 <= j < k ==> Get(all[j].node, key) != Some(value))
  {
    var all := WithAttr(FindAll(h, name), key, value);
    if |all| > 0 then Some(all[0]) else None
  }

  /** `tag.parent`: `None` only for the document itself. */
  function Parent(h: Hit): (r: Option<Node>)
    ensures r.Some? <==> |h.ancestors| >= 1
  {
    if |h.ancestors| >= 1 then Some(h.ancestors[0]) else None
  }

  /** `tag.parent.parent`, or `None` when there is no such element. */
  function Grandparent(h: Hit): (r: Option<Node>)
    ensures r.Some? <==> |h.ancestors| >= 2
  {
    if |h.ancestors| >= 2 then Some(h.ancestors[1]) else None
  }

  /** Every element that `find_all` returns has a parent. */
  lemma FoundHasParent(h: Hit, name: string, i: nat)
    requires i < |FindAll(h, name)|
    ensures Parent(FindAll(h, name)[i]).Some?
  {
  }

  /** The children of an element are among its descendants, each with that element as
      its parent. */
  lemma {:induction false} ChildrenFound(cs: seq<Node>, ancestors: seq<Node>, j: nat)
    requires j < |cs|
    ensures Hit(cs[j], ancestors) in Within(cs, ancestors)
    decreases j
  {
    if j > 0 {
      ChildrenFound(cs[1..], ancestors, j - 1);
      assert cs[1..][j - 1] == cs[j];
    }
  }
}
