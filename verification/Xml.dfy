/** Parsed XML: elements with local tag names, attributes and children (`xmi_interop` reads
    them with the helpers below, without regard to namespaces). */
module Xml {
  import opened Text

  datatype Node = Node(tag: string, attributes: map<string, string>, children: seq<Node>)

  /** `el.get(name)`. */
  function Get(el: Node, name: string): Option<string> {
    if name in el.attributes then Some(el.attributes[name]) else None
  }

  function GetOr(el: Node, name: string, default: string): string {
    if name in el.attributes then el.attributes[name] else default
  }

  /** Python's `value or None`. */
  function NonEmpty(value: Option<string>): Option<string> {
    if value == Some("") then None else value
  }

  /** `a or b` on optional texts. */
  function Or(a: Option<string>, b: Option<string>): Option<string> {
    if NonEmpty(a).Some? then a else b
  }

  // ---- children --------------------------------------------------------

  function KidsIn(children: seq<Node>, tag: string): (r: seq<Node>)
    ensures forall x :: x in r <==> x in children && x.tag == tag
  {
    if children == [] then []
    else
      var n := |children| - 1;
      KidsIn(children[..n], tag) + if children[n].tag == tag then [children[n]] else []
  }

  /** `_kids`. */
  function Kids(el: Node, tag: string): (r: seq<Node>)
    ensures forall x :: x in r ==> x in el.children
  {
    KidsIn(el.children, tag)
  }

  /** `_kid`: the first child with the tag. */
  function KidIn(children: seq<Node>, tag: string): (r: Option<Node>)
    ensures r.Some? ==> r.value in children && r.value.tag == tag
    ensures r.None? <==> forall x :: x in children ==> x.tag != tag
  {
    if children == [] then None
    else if children[0].tag == tag then Some(children[0])
    else KidIn(children[1..], tag)
  }

  function Kid(el: Node, tag: string): (r: Option<Node>)
    ensures r.Some? ==> r.value in el.children && r.value.tag == tag
  {
    KidIn(el.children, tag)
  }

  // ---- descendants -----------------------------------------------------

  /** The elements with the tag in `el.iter()`, in document order, the element itself included. */
  function Find(el: Node, tag: string): seq<Node>
    decreases el
  {
    (if el.tag == tag then [el] else []) + FindAll(el.children, tag)
  }

  function FindAll(children: seq<Node>, tag: string): seq<Node>
    decreases children
  {
    if children == [] then []
    else FindAll(children[..|children| - 1], tag) + Find(children[|children| - 1], tag)
  }

  lemma {:induction false} FindAllConcat(a: seq<Node>, b: seq<Node>, tag: string)
    ensures FindAll(a + b, tag) == FindAll(a, tag) + FindAll(b, tag)
  {
    if b == [] {
      assert a + b == a;
    } else {
      var n := |b| - 1;
      assert (a + b)[..|a + b| - 1] == a + b[..n];
      FindAllConcat(a, b[..n], tag);
    }
  }

  lemma {:induction false} FindNone(children: seq<Node>, tag: string)
    requires forall x :: x in children ==> Find(x, tag) == []
    ensures FindAll(children, tag) == []
  {
    if children != [] {
      FindNone(children[..|children| - 1], tag);
    }
  }

  /** `_idref_below`: the first non-empty `xmi.idref` in `el.iter()`. */
  function IdrefBelow(el: Node): Option<string>
    decreases el
  {
    var own := NonEmpty(Get(el, "xmi.idref"));
    if own.Some? then own else IdrefBelowAll(el.children)
  }

  function IdrefBelowAll(children: seq<Node>): Option<string>
    decreases children
  {
    if children == [] then None
    else
      match IdrefBelowAll(children[..|children| - 1])
      case Some(ref) => Some(ref)
      case None => IdrefBelow(children[|children| - 1])
  }

  // ---- tagged values ---------------------------------------------------

  function TagMap(tags: seq<Node>): map<string, string> {
    if tags == [] then map[]
    else
      var last := tags[|tags| - 1];
      TagMap(tags[..|tags| - 1])[GetOr(last, "tag", "") := GetOr(last, "value", "")]
  }

  /** `_tagged`. */
  function Tagged(el: Node): map<string, string> {
    match Kid(el, "ModelElement.taggedValue")
    case None => map[]
    case Some(holder) => TagMap(Kids(holder, "TaggedValue"))
  }

  function TagNode(tag: string, value: string): Node {
    Node("TaggedValue", map["tag" := tag, "value" := value], [])
  }

  function TagNodes(tags: seq<(string, string)>): seq<Node> {
    seq(|tags|, i requires 0 <= i < |tags| => TagNode(tags[i].0, tags[i].1))
  }

  /** `_tags`: the holder element with one child per tag. */
  function Tags(tags: seq<(string, string)>): Node {
    Node("ModelElement.taggedValue", map[], TagNodes(tags))
  }

  function PairMap(tags: seq<(string, string)>): map<string, string> {
    if tags == [] then map[]
    else PairMap(tags[..|tags| - 1])[tags[|tags| - 1].0 := tags[|tags| - 1].1]
  }

  lemma TagNodeReadsBack(tag: string, value: string)
    ensures GetOr(TagNode(tag, value), "tag", "") == tag && GetOr(TagNode(tag, value), "value", "") == value
  {
    assert "tag" != "value" by { assert "tag"[0] != "value"[0]; }
  }

  lemma KidsInStep(children: seq<Node>, last: Node, tag: string)
    ensures KidsIn(children + [last], tag) == KidsIn(children, tag) + if last.tag == tag then [last] else []
  {
    assert (children + [last])[..|children|] == children;
  }

  lemma TagMapStep(tags: seq<Node>, last: Node)
    ensures TagMap(tags + [last]) == TagMap(tags)[GetOr(last, "tag", "") := GetOr(last, "value", "")]
  {
    assert (tags + [last])[..|tags|] == tags;
  }

  /** Written tags are read back as a dictionary, later ones winning. */
  lemma {:induction false} TagsReadBack(tags: seq<(string, string)>)
    ensures TagMap(KidsIn(TagNodes(tags), "TaggedValue")) == PairMap(tags)
  {
    hide KidsIn, TagMap, GetOr;
    if tags == [] {
      NoTags();
    } else {
      var n := |tags| - 1;
      TagsReadBack(tags[..n]);
      var last := TagNode(tags[n].0, tags[n].1);
      assert TagNodes(tags) == TagNodes(tags[..n]) + [last];
      KidsInStep(TagNodes(tags[..n]), last, "TaggedValue");
      TagMapStep(KidsIn(TagNodes(tags[..n]), "TaggedValue"), last);
      TagNodeReadsBack(tags[n].0, tags[n].1);
    }
  }

  lemma NoTags()
    ensures TagMap(KidsIn(TagNodes([]), "TaggedValue")) == map[]
  {
  }

  /** The tags of an element whose tag holder comes first. */
  lemma TaggedFirst(el: Node, tags: seq<(string, string)>)
    requires el.children != [] && el.children[0] == Tags(tags)
    ensures Tagged(el) == PairMap(tags)
  {
    TagsReadBack(tags);
  }

  lemma PairMapStep(tags: seq<(string, string)>, last: (string, string))
    ensures PairMap(tags + [last]) == PairMap(tags)[last.0 := last.1]
  {
    assert (tags + [last])[..|tags|] == tags;
  }

  lemma PairMaps(p: (string, string), q: (string, string), r: (string, string))
    ensures PairMap([p]) == map[p.0 := p.1]
    ensures PairMap([p, q]) == map[p.0 := p.1][q.0 := q.1]
    ensures PairMap([p, q, r]) == map[p.0 := p.1][q.0 := q.1][r.0 := r.1]
  {
    PairMapStep([], p);
    PairMapStep([p], q);
    PairMapStep([p, q], r);
    assert [] + [p] == [p] && [p] + [q] == [p, q] && [p, q] + [r] == [p, q, r];
    assert PairMap([]) == map[];
    hide PairMap;
  }
}
