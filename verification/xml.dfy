/** The document as the engine sees it: the root's element children, in
    document order, each an element tag plus its attribute map. */
module Xml {
  import opened Wrappers

  datatype Node = Node(tag: string, attrs: map<string, string>)

  /** All children of the streams root, in document order. */
  type Catalog = seq<Node>

  const ImmutableTag := "immutable_stream"
  const MutableTag := "stream"

  /** Attribute text, the empty string when the attribute is absent. */
  function Attribute(n: Node, key: string): string {
    if key in n.attrs then n.attrs[key] else ""
  }

  /** `n` is a `tag` element whose `name` attribute is present and equals `name`. */
  predicate Named(n: Node, name: string, tag: string) {
    n.tag == tag && "name" in n.attrs && n.attrs["name"] == name
  }

  /** First catalog index at or after `start` holding a `tag` element named `name`. */
  function FindFrom(cat: Catalog, name: string, tag: string, start: nat): (r: Option<nat>)
    requires start <= |cat|
    ensures r.Some? ==> start <= r.value < |cat| && Named(cat[r.value], name, tag)
    ensures r.Some? ==> forall j :: start <= j < r.value ==> !Named(cat[j], name, tag)
    ensures r.None? <==> forall j :: start <= j < |cat| ==> !Named(cat[j], name, tag)
    decreases |cat| - start
  {
    if start == |cat| then None
    else if Named(cat[start], name, tag) then Some(start)
    else FindFrom(cat, name, tag, start + 1)
  }

  /** Index of the first `tag` child named `name`, as `find_stream` scans `children(tag)`. */
  function FindStream(cat: Catalog, name: string, tag: string): (r: Option<nat>)
    ensures r.Some? ==> r.value < |cat| && Named(cat[r.value], name, tag)
    ensures r.Some? ==> forall j :: 0 <= j < r.value ==> !Named(cat[j], name, tag)
    ensures r.None? <==> forall j :: 0 <= j < |cat| ==> !Named(cat[j], name, tag)
  {
    FindFrom(cat, name, tag, 0)
  }

  /** The stream a reference to `name` designates: `immutable_stream` elements
      are searched before `stream` elements and the first match wins. */
  function LookupTarget(cat: Catalog, name: string): (r: Option<nat>)
    ensures r.Some? ==> r.value < |cat|
    ensures r.Some? ==> Named(cat[r.value], name, ImmutableTag) || Named(cat[r.value], name, MutableTag)
    ensures r.Some? ==> forall j :: 0 <= j < r.value ==> !Named(cat[j], name, cat[r.value].tag)
    ensures r.Some? && cat[r.value].tag == MutableTag ==>
              forall j :: 0 <= j < |cat| ==> !Named(cat[j], name, ImmutableTag)
    ensures (exists j :: 0 <= j < |cat| && Named(cat[j], name, ImmutableTag)) ==>
              r.Some? && cat[r.value].tag == ImmutableTag
    ensures r.None? <==>
              forall j :: 0 <= j < |cat| ==> !Named(cat[j], name, ImmutableTag) && !Named(cat[j], name, MutableTag)
  {
    match FindStream(cat, name, ImmutableTag)
    case Some(i) => Some(i)
    case None => FindStream(cat, name, MutableTag)
  }
}
