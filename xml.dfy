/** The parts of a parsed scene document (a pugixml tree) that the loaders query.

    A node is its element name, its attributes in document order and its
    children in document order. pugixml's "null node", which every failed
    lookup returns and which answers every further query with nothing, is
    `None` in an `Option<Node>`; an absent attribute reads as the empty string,
    as `attribute(name).value()` does.
*/
module Xml {
  import opened Wrappers

  datatype Attribute = Attribute(name: string, value: string)

  datatype Node = Node(name: string, attributes: seq<Attribute>, children: seq<Node>)

  /** The value of the first attribute called `key`, if there is one. */
  function FindAttribute(attrs: seq<Attribute>, key: string): (r: Option<string>)
    ensures r.None? <==> forall i :: 0 <= i < |attrs| ==> attrs[i].name != key
    ensures r.Some? ==> exists i :: 0 <= i < |attrs| && attrs[i].name == key && attrs[i].value == r.value
  {
    if attrs == [] then None
    else if attrs[0].name == key then Some(attrs[0].value)
    else FindAttribute(attrs[1..], key)
  }

  /** `node.attribute(key)` converted to bool: the attribute exists. */
  predicate HasAttribute(node: Option<Node>, key: string) {
    node.Some? && FindAttribute(node.value.attributes, key).Some?
  }

  /** `node.attribute(key).value()`: the empty string when the node is null or has no such attribute. */
  function AttributeValue(node: Option<Node>, key: string): string {
    if node.None? then "" else FindAttribute(node.value.attributes, key).GetOr("")
  }

  /** The children of a node; a null node has none. */
  function Children(node: Option<Node>): seq<Node> {
    if node.None? then [] else node.value.children
  }

  /** The first node of `nodes` whose name is `name`. */
  function FirstNamed(nodes: seq<Node>, name: string): (r: Option<Node>)
    ensures r.None? <==> forall i :: 0 <= i < |nodes| ==> nodes[i].name != name
    ensures r.Some? ==> r.value in nodes && r.value.name == name
  {
    if nodes == [] then None
    else if nodes[0].name == name then Some(nodes[0])
    else FirstNamed(nodes[1..], name)
  }

  /** `node.child(name)`: the first child with that element name, or the null node. */
  function Child(node: Option<Node>, name: string): Option<Node> {
    FirstNamed(Children(node), name)
  }

  /** The nodes of `nodes` called `name`, in order. */
  function Named(nodes: seq<Node>, name: string): (r: seq<Node>)
    ensures |r| <= |nodes|
    ensures forall i :: 0 <= i < |r| ==> r[i].name == name && r[i] in nodes
    ensures r == [] <==> FirstNamed(nodes, name).None?
    ensures r != [] ==> r[0] == FirstNamed(nodes, name).value
  {
    if nodes == [] then []
    else if nodes[0].name == name then [nodes[0]] + Named(nodes[1..], name)
    else Named(nodes[1..], name)
  }

  /** `node.children(name)`: the children with that element name, in document order
      (also what walking `child(name)` and `next_sibling(name)` visits). */
  function ChildrenNamed(node: Option<Node>, name: string): seq<Node> {
    Named(Children(node), name)
  }

  /** True when some attribute of `n` is called `attrName` and has the value `attrValue`. */
  predicate HasAttributeValue(n: Node, attrName: string, attrValue: string) {
    exists i :: 0 <= i < |n.attributes| && n.attributes[i].name == attrName && n.attributes[i].value == attrValue
  }

  function FirstWithAttribute(nodes: seq<Node>, attrName: string, attrValue: string): (r: Option<Node>)
    ensures r.None? <==> forall i :: 0 <= i < |nodes| ==> !HasAttributeValue(nodes[i], attrName, attrValue)
    ensures r.Some? ==> r.value in nodes && HasAttributeValue(r.value, attrName, attrValue)
  {
    if nodes == [] then None
    else if HasAttributeValue(nodes[0], attrName, attrValue) then Some(nodes[0])
    else FirstWithAttribute(nodes[1..], attrName, attrValue)
  }

  /** `node.find_child_by_attribute(attrName, attrValue)`: the first direct child, of any
      element name, carrying that attribute with that value. */
  function FindChildByAttribute(node: Option<Node>, attrName: string, attrValue: string): Option<Node> {
    FirstWithAttribute(Children(node), attrName, attrValue)
  }
}
