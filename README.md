# Virtual nodes of the renderer, in Dafny

This project models the virtual-node layer of the renderer's core
(`packages/core/src/nodes.rs`). That layer covers:

- the `VNode` tagged union over elements, text, fragments, suspended placeholders and components;
- node keys;
- element attributes and the volatile-attribute rule;
- listeners;
- the type-erased component wrapper `VComponent` with its memoization comparator;
- fragments.

It proves how keys are mapped and read, what a freshly built node starts with, how `clone`
shares or copies the physical-node cells, and what the comparator decides. It also proves that
the comparator reinterprets the other component's props only when both components come from the
same render function.

Layout:

- `wrappers.dfy`: `Option`.
- `nodes.dfy`: module `Nodes`, the whole layer.

How the entities of `nodes.rs` are represented:

- `VElement` and `VComponent` are allocated in the arena and carry a `Cell`/`RefCell`, so they
  are classes. Their immutable parts are `const` fields. Their cells are `var` fields, which only
  the external mount code writes (`SetHandle` stands for that write).
- The text payload `VText` is not allocated in the arena: `VNode::text` builds it inline and the
  `Text` variant holds it by value. It is a class only so that its `Cell` is observable through
  `Clone`; the object stands for the storage of that value.
- `VFragment`, `NodeKey`, `Attribute` and `Listener` have no cells, so they are datatypes.
- A render function `FC<P>` is represented by its address `FnPtr`. One function has one address,
  and its signature fixes its props type `P`, so the model's address value carries `P`.
- The erased `raw_props` pointer is an `ErasedProps` value that records the concrete type behind
  it. `Downcast`, the model of the pointer cast, requires that type to be the one cast to. For
  components built by `VComponent::new` and never changed afterwards, the verifier checks that
  the comparator casts only on the equal-address branch. The comparator's own comment argues
  only that `new` is the sole way to build a component. That argument does not cover a later
  write to the `pub` field `user_fc` (see "## Left out").
- `CAN_BE_MEMOIZED` is a flag of the props type.
- A props value is a `seq<int>`. Its `PartialEq` is value equality.

Cloning a `Text` node gives the clone a new cell, not a shared one. `VText` derives `Clone`, and
`Cell::clone` copies the current value into a new cell. A handle written through the clone is
therefore not seen through the original. `SetHandleThroughClone` states this.

## Model

| member | source | states |
|---|---|---|
| `Nodes.NodeKey.IsNone` | packages/core/src/nodes.rs:204-208 | a key is `NONE` exactly when its option is empty |
| `Nodes.NodeKey.IsSome` | packages/core/src/nodes.rs:210-214 | a key is "some" exactly when its option holds a string |
| `Nodes.NodeKey.New` | packages/core/src/nodes.rs:216-222 | a new key is always "some" and holds the given string |
| `Nodes.NodeKey.Default` | packages/core/src/nodes.rs:195-199 | the default key is the lack of a key |
| `Nodes.NoneSomeExclusive` | packages/core/src/nodes.rs:200-214 | for every key exactly one of `is_none`/`is_some` holds, and `is_none` means equal to `NONE` |
| `Nodes.KeyFromOption` | packages/core/src/nodes.rs:323-326 | `Some(k)` becomes `NodeKey::new(k)` and `None` becomes `NONE`, so the key is "some" iff the argument was `Some` |
| `Nodes.Attribute.IsVolatile` | packages/core/src/nodes.rs:156-166 | an attribute is volatile iff its name is `value`, `checked` or `selected` |
| `Nodes.VNode.Key` | packages/core/src/nodes.rs:101-112 | text and suspended nodes have no key; elements, fragments and components have their payload's key |
| `Nodes.VText.constructor` | packages/core/src/nodes.rs:115-119 | a text payload holds the given text and cell value |
| `Nodes.VElement.constructor` | packages/core/src/nodes.rs:124-133 | an element holds exactly the given parts and an empty physical-node cell |
| `Nodes.NewElement` | packages/core/src/nodes.rs:66-86 | `VNode::element` returns an element node over a fresh payload holding the given parts, with `dom_id` empty and the given key as the node's key |
| `Nodes.NewText` | packages/core/src/nodes.rs:88-95 | `VNode::text` returns a text node over a fresh payload holding the text, with `dom_id` empty and no key |
| `Nodes.Clone` | packages/core/src/nodes.rs:46-57 | element, fragment, component and suspended clones are the same node (same payload reference); a text clone has a new cell holding the same text and current handle; the key is preserved |
| `Nodes.DomHandle` | packages/core/src/nodes.rs:115-133 | elements, text nodes and components have a physical-node cell; fragments and suspended nodes have none |
| `Nodes.SetHandle` | packages/core/src/nodes.rs:237 | writing a node's cell (`dom_id`, or `mounted_root` for a component) makes it hold the written handle; a component's `ass_scope` keeps its value |
| `Nodes.SetHandleThroughClone` | packages/core/src/nodes.rs:47-57 | a write through a clone is seen through the original for every reference variant, and not for a text node, whose original cell keeps its value; a component's `ass_scope` keeps its value |
| `Nodes.Downcast` | packages/core/src/nodes.rs:291 | the cast is defined only when the erased props' recorded type is the type cast to, and it yields the pointed-to value: erasing the result at that type gives back the same erased pointer |
| `Nodes.NewComparator` | packages/core/src/nodes.rs:279-300 | a comparator is built iff the props type can be memoized, and it captures this component's render-function address and props |
| `Nodes.Compare` | packages/core/src/nodes.rs:281-296 | the comparator is false when the other component's `user_fc` differs, and otherwise is exactly the equality of the two props; the props are reinterpreted only on the equal-address branch |
| `Nodes.VComponent.constructor` | packages/core/src/nodes.rs:262-340 | `VComponent::new` records the render-function address as `user_fc`, builds the comparator iff memoizable, maps the key, keeps the children, and starts `mounted_root` empty and `ass_scope` as `None` |
| `Nodes.CompareIsSameFunctionAndEqualProps` | packages/core/src/nodes.rs:282-295 | for two constructed components, memoization holds iff they share the render function and their props are equal |
| `Nodes.SameFunctionSameMemoization` | packages/core/src/nodes.rs:283-288 | components built from the same render function share the props type, so both have a comparator or neither has |
| `Nodes.CompareSymmetric` | packages/core/src/nodes.rs:289-292 | if `a`'s comparator accepts `b`, then `b` has a comparator and it accepts `a` |
| `Nodes.NewFragment` | packages/core/src/nodes.rs:372-381 | `VFragment::new` maps the optional key (some iff given, holding the given string) and keeps the children |
| `Nodes.SiblingKeys` | packages/core/src/nodes.rs:101-112 | the keys of a sibling list are, position by position, the keys `key()` gives each sibling |
| `Nodes.UnkeyedVariantUnkeysSiblings` | packages/core/src/nodes.rs:187-191 | under the documented sibling rule, a list containing a text or suspended node has no keyed node at all |
| `Nodes.NewFragmentDoesNotCheckSiblings` | packages/core/src/nodes.rs:372-381 | `VFragment::new` accepts children that break the sibling rule (a suspended node beside a keyed fragment) |

## Left out

- `create_closure` and invoking the `caller` field. They depend on an unsafe lifetime `transmute`, `Rc<dyn Fn>` and the external `Scope`/`Context`. `caller` is kept only as the environment it captures: the render function and the erased props.
- `text_args`. It delegates to `text3` and `fmt::Arguments` formatting, and that file is not part of this model.
- Listener callbacks. `Listener` and `ListenerHandle` keep only their event name, scope and id.
- Arena allocation (`bump.alloc`, `alloc_with`). It is modelled as plain object creation. The `NodeCtx` argument of `VComponent::new` is dropped because it only supplies the arena.
- `RealDomNode`, `ScopeIdx`, `NodeCtx` and `FC` are defined outside `nodes.rs` and are kept abstract here. `RealDomNode` is `Empty | Bound(id)`, `ScopeIdx` is a `nat`, `FC` is its address `FnPtr`, and `NodeCtx` is dropped.
- Nodes.VComponent: its `pub` fields `key`, `user_fc`, `comparator`, `children` and `caller` are `const` here. So `Valid()`, which says that the erased props have the props type of `user_fc`, holds for the object's whole life. The model does not capture safe code reassigning `user_fc` after `new`; a comparator applied to such a component would reinterpret `raw_props` as the wrong type.
- Raw pointers. The erased props pointer is a value tagged with its concrete type. The model assumes that a function's address identifies it: its `FnPtr` value carries the props type. It does not model two distinct functions being placed at one address.
- `PartialEq` of props is modelled as value equality. A user-written `PartialEq` that is not structural is not captured.
- The sibling rule documented on `NodeKey` is a predicate (`WellKeyedSiblings`). No constructor establishes or checks it.
- The note that a key "must not be `u32::MAX`" has no counterpart for string keys. `NodeKey.New` has no precondition.
- Diffing and reconciliation are not in this layer.
