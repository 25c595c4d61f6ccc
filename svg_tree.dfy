/**
 * The in-place edits of a parsed SVG document in
 * easyapply/themes/filters.py: set_fill, set_stroke and add_attributes.
 *
 * An element keeps its tag and children; only its attribute map changes.
 * Parsing the SVG text into elements and serialising them back are not
 * part of this model: each operation starts from the parsed root element
 * and ends with the updated tree.
 */
module SvgTree {
  import opened Results
  import opened Dicts
  import Filters

  const PathTag := "{http://www.w3.org/2000/svg}path"

  class Element {
    const tag: string
    var attrib: Dict
    const children: seq<Element>
    /** One more than the tallest child: makes the tree finite. */
    const height: nat

    predicate Shaped()
      decreases height
    {
      forall c :: c in children ==> c.height < height && c.Shaped()
    }

    constructor (tag: string, attrib: Dict, children: seq<Element>)
      requires forall c :: c in children ==> c.Shaped()
      ensures this.tag == tag && this.attrib == attrib && this.children == children
      ensures Shaped()
    {
      this.tag := tag;
      this.attrib := attrib;
      this.children := children;
      this.height := 1 + MaxHeight(children);
    }

    /** The elements of the subtree in document order, as Element.iter() yields them. */
    function Nodes(): (ns: seq<Element>)
      requires Shaped()
      ensures |ns| > 0 && ns[0] == this
      decreases height, 1
    {
      [this] + NodesOf(children, height)
    }
  }

  function MaxHeight(cs: seq<Element>): (h: nat)
    ensures forall c :: c in cs ==> c.height <= h
  {
    if cs == [] then 0
    else
      var h := MaxHeight(cs[1..]);
      assert forall c :: c in cs ==> c == cs[0] || c in cs[1..];
      if cs[0].height > h then cs[0].height else h
  }

  function NodesOf(cs: seq<Element>, bound: nat): seq<Element>
    requires forall c :: c in cs ==> c.height < bound && c.Shaped()
    decreases bound, 0, |cs|
  {
    if cs == [] then [] else cs[0].Nodes() + NodesOf(cs[1..], bound)
  }

  /** No element occurs twice: what the XML parser builds is a tree. */
  predicate Distinct(ns: seq<Element>) {
    forall i, j :: 0 <= i < j < |ns| ==> ns[i] != ns[j]
  }

  predicate IsTree(root: Element) {
    root.Shaped() && Distinct(root.Nodes())
  }

  /**
   * `for element in parsed.iter(PathTag): element.attrib[name] = value`:
   * every path element, the root included, gets the attribute; all other
   * elements keep their attributes.
   */
  method SetOnPaths(root: Element, name: string, value: string)
    requires IsTree(root)
    modifies root.Nodes()
    ensures forall e :: e in root.Nodes() && old(allocated(e)) ==>
      e.attrib == if e.tag == PathTag then Assign(old(e.attrib), name, value) else old(e.attrib)
  {
    var nodes := root.Nodes();
    for i := 0 to |nodes|
      invariant forall j :: 0 <= j < i && old(allocated(nodes[j])) ==>
        nodes[j].attrib == if nodes[j].tag == PathTag then Assign(old(nodes[j].attrib), name, value) else old(nodes[j].attrib)
      invariant forall j :: i <= j < |nodes| && old(allocated(nodes[j])) ==> nodes[j].attrib == old(nodes[j].attrib)
    {
      var e := nodes[i];
      assert forall j :: 0 <= j < |nodes| && j != i ==> nodes[j] != e;
      if e.tag == PathTag {
        e.attrib := Assign(e.attrib, name, value);
      }
    }
  }

  /**
   * set_fill: afterwards every path element has `fill` equal to the
   * colour, its other attributes read as before, and no other element
   * changed.
   */
  method SetFill(root: Element, color: string)
    requires IsTree(root)
    modifies root.Nodes()
    ensures forall e :: e in root.Nodes() && old(allocated(e)) && e.tag == PathTag ==> Get(e.attrib, "fill") == Some(color)
    ensures forall e, k :: e in root.Nodes() && old(allocated(e)) && e.tag == PathTag && k != "fill" ==> Get(e.attrib, k) == Get(old(e.attrib), k)
    ensures forall e :: e in root.Nodes() && old(allocated(e)) && e.tag != PathTag ==> e.attrib == old(e.attrib)
    ensures forall e :: e in root.Nodes() && old(allocated(e)) ==>
      e.attrib == if e.tag == PathTag then Assign(old(e.attrib), "fill", color) else old(e.attrib)
  {
    SetOnPaths(root, "fill", color);
    forall e, k | e in root.Nodes() && old(allocated(e)) && e.tag == PathTag
      ensures Get(e.attrib, k) == if k == "fill" then Some(color) else Get(old(e.attrib), k)
    {
      AssignGet(old(e.attrib), "fill", color, k);
    }
  }

  /** set_stroke: set_fill for the `stroke` attribute. */
  method SetStroke(root: Element, color: string)
    requires IsTree(root)
    modifies root.Nodes()
    ensures forall e :: e in root.Nodes() && old(allocated(e)) && e.tag == PathTag ==> Get(e.attrib, "stroke") == Some(color)
    ensures forall e, k :: e in root.Nodes() && old(allocated(e)) && e.tag == PathTag && k != "stroke" ==> Get(e.attrib, k) == Get(old(e.attrib), k)
    ensures forall e :: e in root.Nodes() && old(allocated(e)) && e.tag != PathTag ==> e.attrib == old(e.attrib)
    ensures forall e :: e in root.Nodes() && old(allocated(e)) ==>
      e.attrib == if e.tag == PathTag then Assign(old(e.attrib), "stroke", color) else old(e.attrib)
  {
    SetOnPaths(root, "stroke", color);
    forall e, k | e in root.Nodes() && old(allocated(e)) && e.tag == PathTag
      ensures Get(e.attrib, k) == if k == "stroke" then Some(color) else Get(old(e.attrib), k)
    {
      AssignGet(old(e.attrib), "stroke", color, k);
    }
  }

  /** Filling twice with the same colour leaves the tree as filling once does. */
  method SetFillTwice(root: Element, color: string)
    requires IsTree(root)
    modifies root.Nodes()
    ensures forall e :: e in root.Nodes() && old(allocated(e)) ==>
      e.attrib == if e.tag == PathTag then Assign(old(e.attrib), "fill", color) else old(e.attrib)
  {
    SetFill(root, color);
    SetFill(root, color);
    forall e | e in root.Nodes() && old(allocated(e)) && e.tag == PathTag
      ensures Assign(Assign(old(e.attrib), "fill", color), "fill", color) == Assign(old(e.attrib), "fill", color)
    {
      AssignIdempotent(old(e.attrib), "fill", color);
    }
  }

  /**
   * add_attributes: the `class_` check and rename, then
   * `parsed.attrib.update(attributes)` on the root element.
   */
  method AddAttributes(root: Element, attributes: Dict) returns (error: Option<Error>)
    requires KeysDistinct(attributes)
    modifies root
    ensures Has(attributes, "class_") && Has(attributes, "class") ==>
      error == Some(ValueError("Cannot set both _class and class")) && root.attrib == old(root.attrib)
    ensures !(Has(attributes, "class_") && Has(attributes, "class")) ==>
      error == None && root.attrib == Update(old(root.attrib), Filters.ClassRenamed(attributes))
    ensures KeysDistinct(old(root.attrib)) ==> KeysDistinct(root.attrib)
    ensures error == None ==> forall k ::
      Get(root.attrib, k) == if Has(Filters.ClassRenamed(attributes), k) then Get(Filters.ClassRenamed(attributes), k) else Get(old(root.attrib), k)
  {
    var attrs := attributes;
    if Has(attrs, "class_") {
      if Has(attrs, "class") {
        return Some(ValueError("Cannot set both _class and class"));
      }
      attrs := Assign(attrs, "class", Get(attrs, "class_").value);
      attrs := Delete(attrs, "class_");
    }
    assert attrs == Filters.ClassRenamed(attributes);
    root.attrib := Update(root.attrib, attrs);
    error := None;
    forall k ensures Get(root.attrib, k) == if Has(attrs, k) then Get(attrs, k) else Get(old(root.attrib), k) {
      UpdateGet(old(root.attrib), attrs, k);
    }
    if KeysDistinct(old(root.attrib)) {
      UpdateKeysDistinct(old(root.attrib), attrs);
    }
  }
}
