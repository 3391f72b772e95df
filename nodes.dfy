/**
  The virtual-node data model of the renderer: the `VNode` tagged union, its
  payloads (elements, text, fragments, components), node keys, attributes and
  listeners, and the type-erased component wrapper with its memoization
  comparator.

  Arena allocation is plain object creation. The element and component
  payloads, which `nodes.rs` allocates in the arena and whose `Cell`/`RefCell`
  fields the external mount code writes later, are classes: their immutable
  parts are `const` fields, their cells are `var` fields. A text payload is held
  by value inside its node; it is a class too, only so that its `Cell` is
  observable through `Clone`. Payloads without cells are datatypes.
*/
module Nodes {
  import opened Wrappers

  // ---------------------------------------------------------------------------
  // Collaborators defined outside this file, kept abstract
  // ---------------------------------------------------------------------------

  /** A handle to a node of the physical surface; `Empty` is `RealDomNode::empty()`. */
  datatype RealDomNode = Empty | Bound(id: nat)

  /** The index of a runtime scope. */
  type ScopeIdx = nat

  // ---------------------------------------------------------------------------
  // Keys
  // ---------------------------------------------------------------------------

  /** The key of a keyed child: an optional string. */
  datatype NodeKey = NodeKey(opt: Option<string>)
  {
    /** Is this key the `NONE` sentinel? */
    function IsNone(): (r: bool)
      ensures r <==> opt.None?
    {
      this == NONE
    }

    /** Is this key anything but the `NONE` sentinel? */
    function IsSome(): (r: bool)
      ensures r <==> opt.Some?
    {
      !IsNone()
    }

    /** A key holding the given string. */
    static function New(key: string): (r: NodeKey)
      ensures r.IsSome() && r.opt.value == key
    {
      NodeKey(Some(key))
    }

    /** `Default` for keys: the lack of a key. */
    static function Default(): (r: NodeKey)
      ensures r.IsNone()
    {
      NONE
    }
  }

  /** The sentinel for "no key". */
  const NONE: NodeKey := NodeKey(None)

  /** The key mapping shared by the component and fragment constructors:
      a given string becomes a key, no string becomes `NONE`. */
  function KeyFromOption(key: Option<string>): (r: NodeKey)
    ensures r.IsSome() <==> key.Some?
    ensures key.Some? ==> r == NodeKey.New(key.value)
    ensures key.None? ==> r == NONE
  {
    match key
    case Some(k) => NodeKey.New(k)
    case None => NodeKey(None)
  }

  /** Exactly one of `IsNone` and `IsSome` holds of every key. */
  lemma NoneSomeExclusive(k: NodeKey)
    ensures k.IsNone() != k.IsSome()
    ensures k.IsNone() <==> k == NONE
  {
  }

  // ---------------------------------------------------------------------------
  // Attributes and listeners
  // ---------------------------------------------------------------------------

  /** The attribute names whose physical value can change behind the virtual tree's back. */
  const VolatileNames: set<string> := {"value", "checked", "selected"}

  /** An attribute of an element, such as `id="my-thing"`; `name` and `value`
      are its two accessors. */
  datatype Attribute = Attribute(name: string, value: string)
  {
    /** A volatile attribute must be set again on the physical node even when
        the old and the new virtual value are the same. */
    function IsVolatile(): (r: bool)
      ensures r <==> name in VolatileNames
    {
      match name
      case "value" => true
      case "checked" => true
      case "selected" => true
      case _ => false
    }
  }

  /** An event listener, identified for the dispatch runtime by its scope and id.
      The erased callback is not modelled. */
  datatype Listener = Listener(event: string, scope: ScopeIdx, id: nat)

  /** The handle by which the dispatch runtime finds a listener. */
  datatype ListenerHandle = ListenerHandle(event: string, scope: ScopeIdx, id: nat)

  // ---------------------------------------------------------------------------
  // The node tagged union
  // ---------------------------------------------------------------------------

  /** A node of the virtual tree. `Element`, `Fragment` and `Component` hold a
      reference to their payload; `Text` holds its payload by value, and the
      `VText` object stands for the storage of that value. */
  datatype VNode =
    | Element(e: VElement)
    | Text(t: VText)
    | Fragment(f: VFragment)
    | Suspended
    | Component(c: VComponent)
  {
    /** The key this node is diffed by; text and suspended nodes are never keyed. */
    function Key(): (k: NodeKey)
      ensures Text? || Suspended? ==> k == NONE
      ensures Element? ==> k == e.key
      ensures Fragment? ==> k == f.key
      ensures Component? ==> k == c.key
    {
      match this
      case Text(_) => NONE
      case Element(el) => el.key
      case Fragment(frag) => frag.key
      case Component(comp) => comp.key
      case Suspended => NONE
    }
  }

  /** A text node's payload: the text and its physical-node cell. */
  class VText {
    const text: string
    var domId: RealDomNode

    constructor (text: string, domId: RealDomNode)
      ensures this.text == text && this.domId == domId
    {
      this.text := text;
      this.domId := domId;
    }
  }

  /** An element (`div`, `h1`, ...) with its parts and its physical-node cell. */
  class VElement {
    const key: NodeKey
    const tagName: string
    const listeners: seq<Listener>
    const attributes: seq<Attribute>
    const children: seq<VNode>
    const namespace: Option<string>
    var domId: RealDomNode

    constructor (key: NodeKey, tagName: string, listeners: seq<Listener>, attributes: seq<Attribute>,
                 children: seq<VNode>, namespace: Option<string>)
      ensures this.key == key && this.tagName == tagName && this.listeners == listeners
      ensures this.attributes == attributes && this.children == children && this.namespace == namespace
      ensures domId == Empty
    {
      this.key := key;
      this.tagName := tagName;
      this.listeners := listeners;
      this.attributes := attributes;
      this.children := children;
      this.namespace := namespace;
      this.domId := Empty;
    }
  }

  /** A keyed grouping of children with no physical node of its own. */
  datatype VFragment = VFragment(key: NodeKey, children: seq<VNode>)

  /** `VFragment::new`: maps the optional key and keeps the children. */
  function NewFragment(key: Option<string>, children: seq<VNode>): (r: VFragment)
    ensures r.key.IsSome() <==> key.Some?
    ensures key.Some? ==> r.key.opt.value == key.value
    ensures r.children == children
  {
    VFragment(KeyFromOption(key), children)
  }

  /** `VNode::element`: allocates an element whose physical-node cell starts empty. */
  method NewElement(key: NodeKey, tagName: string, listeners: seq<Listener>, attributes: seq<Attribute>,
                    children: seq<VNode>, namespace: Option<string>) returns (n: VNode)
    ensures n.Element? && fresh(n.e)
    ensures n.e.key == key && n.e.tagName == tagName && n.e.listeners == listeners
    ensures n.e.attributes == attributes && n.e.children == children && n.e.namespace == namespace
    ensures n.e.domId == Empty
    ensures n.Key() == key
  {
    var e := new VElement(key, tagName, listeners, attributes, children, namespace);
    n := Element(e);
  }

  /** `VNode::text`: a text node whose physical-node cell starts empty. */
  method NewText(text: string) returns (n: VNode)
    ensures n.Text? && fresh(n.t)
    ensures n.t.text == text && n.t.domId == Empty
    ensures n.Key().IsNone()
  {
    var t := new VText(text, Empty);
    n := Text(t);
  }

  /** `Clone` for nodes: reference variants share their payload; a text node
      gets a new cell holding the current value of the old one. */
  method Clone(n: VNode) returns (c: VNode)
    ensures !n.Text? ==> c == n
    ensures n.Text? ==> c.Text? && fresh(c.t) && c.t.text == n.t.text && c.t.domId == n.t.domId
    ensures c.Key() == n.Key()
  {
    match n
    case Text(t) =>
      var copy := new VText(t.text, t.domId);
      c := Text(copy);
    case _ =>
      c := n;
  }

  // ---------------------------------------------------------------------------
  // Physical-node handles, written by the external mount code
  // ---------------------------------------------------------------------------

  /** The objects holding a node's physical-node cell. */
  ghost function HandleOwner(n: VNode): set<object>
  {
    match n
    case Element(e) => {e}
    case Text(t) => {t}
    case Component(c) => {c}
    case _ => {}
  }

  /** The physical-node handle of a node: `dom_id` of elements and text,
      `mounted_root` of components; fragments and suspended nodes have none. */
  function DomHandle(n: VNode): (h: Option<RealDomNode>)
    reads HandleOwner(n)
    ensures h.None? <==> n.Fragment? || n.Suspended?
  {
    match n
    case Element(e) => Some(e.domId)
    case Text(t) => Some(t.domId)
    case Component(c) => Some(c.mountedRoot)
    case _ => None
  }

  /** `Cell::set` on a node's physical-node cell, as the mount code does it. */
  method SetHandle(n: VNode, id: RealDomNode)
    requires DomHandle(n).Some?
    modifies HandleOwner(n)
    ensures DomHandle(n) == Some(id)
    ensures n.Component? ==> n.c.assScope == old(n.c.assScope)
  {
    match n
    case Element(e) => e.domId := id;
    case Text(t) => t.domId := id;
    case Component(c) => c.mountedRoot := id;
  }

  /** Writing a handle through a clone: for elements and components the
      original sees the write, for a text node it keeps its old value. */
  method SetHandleThroughClone(n: VNode, id: RealDomNode) returns (c: VNode)
    requires DomHandle(n).Some?
    modifies HandleOwner(n)
    ensures DomHandle(c) == Some(id)
    ensures !n.Text? ==> DomHandle(n) == Some(id)
    ensures n.Text? ==> DomHandle(n) == old(DomHandle(n))
    ensures n.Component? ==> n.c.assScope == old(n.c.assScope)
  {
    c := Clone(n);
    SetHandle(c, id);
  }

  // ---------------------------------------------------------------------------
  // Components: type erasure and memoization
  // ---------------------------------------------------------------------------

  /** A props type `P` and its `Properties::CAN_BE_MEMOIZED`. */
  datatype PropsType = PropsType(name: string, canBeMemoized: bool)

  /** A props value; its derived `PartialEq` is equality of the values. */
  type PropsValue = seq<int>

  /** The address of a render function `FC<P>`. One function has one address,
      and a function's signature fixes its props type, so the model's address
      value carries that props type. */
  datatype FnPtr = FnPtr(addr: nat, propsType: PropsType)

  /** The erased pointer to arena-resident props: `ty` is the concrete type of
      the value pointed to, which only `Downcast` consults. */
  datatype ErasedProps = ErasedProps(ty: PropsType, data: PropsValue)

  /** Reinterprets an erased props pointer as a `&P`: sound only when `P` is
      the true type behind the pointer. */
  function Downcast(p: ErasedProps, ty: PropsType): (v: PropsValue)
    requires p.ty == ty
    ensures ErasedProps(ty, v) == p
  {
    p.data
  }

  /** The environment captured by the memoization closure: this component's
      render-function address and its typed props. */
  datatype Comparator = Comparator(callerRef: FnPtr, props: PropsValue)

  /** The environment captured by the render shim: the render function and the
      erased props it will reinterpret. Invoking it is not modelled. */
  datatype Caller = Caller(component: FnPtr, rawProps: ErasedProps)

  /** The memoization comparator applied to another component: `false` unless
      the other was built from the same render function, and then the value
      equality of the two props. The reinterpretation of the other's props
      happens only on the equal-address branch. */
  function Compare(cmp: Comparator, other: VComponent): (r: bool)
    requires other.Valid()
    ensures other.userFc != cmp.callerRef ==> !r
    ensures other.userFc == cmp.callerRef ==> (r <==> cmp.props == other.rawProps.data)
  {
    if cmp.callerRef == other.userFc then
      cmp.props == Downcast(other.rawProps, cmp.callerRef.propsType)
    else
      false
  }

  /** The comparator built by `VComponent::new`: present exactly when the props
      type opts into memoization. */
  function NewComparator(component: FnPtr, props: PropsValue): (r: Option<Comparator>)
    ensures r.Some? <==> component.propsType.canBeMemoized
    ensures r.Some? ==> r.value.callerRef == component && r.value.props == props
  {
    if component.propsType.canBeMemoized then Some(Comparator(component, props)) else None
  }

  /** A user-defined component instance. */
  class VComponent {
    const key: NodeKey
    var mountedRoot: RealDomNode
    var assScope: Option<ScopeIdx>
    const caller: Caller
    const children: seq<VNode>
    const comparator: Option<Comparator>
    const rawProps: ErasedProps
    const userFc: FnPtr

    /** What `VComponent::new` establishes: the tag is the render function's
        address, the erased props really have that function's props type, and
        the closures capture this tag and these props. */
    ghost predicate Valid()
    {
      && rawProps.ty == userFc.propsType
      && caller == Caller(userFc, rawProps)
      && comparator == NewComparator(userFc, rawProps.data)
    }

    /** `VComponent::new`. */
    constructor (component: FnPtr, props: PropsValue, key: Option<string>, children: seq<VNode>)
      ensures Valid()
      ensures userFc == component && rawProps == ErasedProps(component.propsType, props)
      ensures comparator.Some? <==> component.propsType.canBeMemoized
      ensures this.key.IsSome() <==> key.Some?
      ensures key.Some? ==> this.key == NodeKey.New(key.value)
      ensures this.children == children
      ensures mountedRoot == Empty && assScope == None
    {
      var raw := ErasedProps(component.propsType, props);
      this.key := KeyFromOption(key);
      this.assScope := None;
      this.userFc := component;
      this.comparator := NewComparator(component, props);
      this.rawProps := raw;
      this.children := children;
      this.caller := Caller(component, raw);
      this.mountedRoot := Empty;
    }
  }

  /** Memoization decides exactly "same render function and equal props". */
  lemma CompareIsSameFunctionAndEqualProps(a: VComponent, b: VComponent)
    requires a.Valid() && b.Valid() && a.comparator.Some?
    ensures Compare(a.comparator.value, b) <==> a.userFc == b.userFc && a.rawProps.data == b.rawProps.data
  {
  }

  /** Two components built from the same render function either both have a
      comparator or neither has. */
  lemma SameFunctionSameMemoization(a: VComponent, b: VComponent)
    requires a.Valid() && b.Valid() && a.userFc == b.userFc
    ensures a.comparator.Some? <==> b.comparator.Some?
  {
  }

  /** Memoization is symmetric: if `a` would skip re-rendering against `b`,
      then `b` would skip it against `a`. */
  lemma CompareSymmetric(a: VComponent, b: VComponent)
    requires a.Valid() && b.Valid() && a.comparator.Some?
    requires Compare(a.comparator.value, b)
    ensures b.comparator.Some? && Compare(b.comparator.value, a)
  {
  }

  // ---------------------------------------------------------------------------
  // Sibling keys
  // ---------------------------------------------------------------------------

  /** The keys of a list of siblings, in order. */
  function SiblingKeys(children: seq<VNode>): (ks: seq<NodeKey>)
    ensures |ks| == |children|
    ensures forall i :: 0 <= i < |children| ==> ks[i] == children[i].Key()
  {
    if children == [] then [] else [children[0].Key()] + SiblingKeys(children[1..])
  }

  /** The rule the key type documents for siblings: if any sibling is keyed they
      all are, and keys are unique among siblings. The constructors here do not
      establish or check it; the reconciler relies on it. */
  ghost predicate WellKeyedSiblings(children: seq<VNode>)
  {
    var ks := SiblingKeys(children);
    && ((forall i :: 0 <= i < |ks| ==> ks[i].IsSome()) || (forall i :: 0 <= i < |ks| ==> ks[i].IsNone()))
    && (forall i, j :: 0 <= i < j < |ks| && ks[i].IsSome() ==> ks[i] != ks[j])
  }

  /** A well-keyed sibling list holding a text or suspended node is entirely unkeyed. */
  lemma UnkeyedVariantUnkeysSiblings(children: seq<VNode>, i: nat)
    requires WellKeyedSiblings(children)
    requires i < |children| && (children[i].Text? || children[i].Suspended?)
    ensures forall j :: 0 <= j < |children| ==> children[j].Key().IsNone()
  {
    var ks := SiblingKeys(children);
    assert ks[i] == children[i].Key() == NONE;
  }

  /** `VFragment::new` accepts children that break the sibling rule. */
  lemma NewFragmentDoesNotCheckSiblings()
    ensures var f := NewFragment(None, [Suspended, Fragment(NewFragment(Some("a"), []))]);
            !WellKeyedSiblings(f.children)
  {
    var inner := NewFragment(Some("a"), []);
    var ks := SiblingKeys([Suspended, Fragment(inner)]);
    assert ks[0].IsNone() && ks[1].IsSome();
  }
}
