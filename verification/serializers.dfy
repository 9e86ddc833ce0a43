/**
  `buildSerializer` and `scrubMarkProps`: the user's flat map of overrides
  split into mark, list and block-style overrides plus a residual bucket of
  custom serializers, and the routing the resulting table performs when the
  external block renderer calls it.

  The serializers themselves are opaque: a `Fn` only has an identity. Calls
  into React and into the external renderer's default serializers are not
  evaluated; they are returned as a `Render` value saying who is called with
  what.
 */
module Serializers {
  import opened Wrappers
  import opened JsValues
  import opened Strings

  /** A user-supplied serializer (a truthy value of the override map). */
  datatype Fn = Fn(id: nat)

  /**
    The `serializers` prop: its own enumerable keys, each mapped to a
    serializer or to `None` when the value under that key is falsy.
   */
  type Config = map<string, Option<Fn>>

  /** Opaque rendered children handed over by the external renderer. */
  datatype Children = Children(id: nat)

  /** Props the external renderer passes to the `list` serializer. */
  datatype ListProps = ListProps(listType: Option<Value>, children: Children, rest: Fields)

  /** Props the external renderer passes to the `listItem` serializer. */
  datatype ItemProps = ItemProps(children: Children, rest: Fields)

  /** Props the external renderer passes to a `types` serializer: the node and its children. */
  datatype NodeProps = NodeProps(node: Fields, children: Children, rest: Fields)

  /** Props the external renderer passes to a `marks` serializer. */
  datatype MarkProps = MarkProps(mark: Fields, children: Children)

  /** What a serializer of the built table does when the external renderer calls it. */
  datatype Render =
      /** `serializer({ children })` */
    | Call(serializer: Fn, children: Children)
      /** `React.createElement(component, props)`, with `children` as third argument when present */
    | Element(component: Option<Fn>, props: Fields, elementChildren: Option<Children>)
      /** A function inherited from `Object.prototype`, called as `member({ children })` */
    | CallInherited(member: string, children: Children)
      /** A truthy value that is not a function, called anyway: a `TypeError` */
    | NotCallable(member: string)
      /** `SanityBlockContent.defaultSerializers.list(props)` */
    | DefaultList(listProps: ListProps)
      /** `SanityBlockContent.defaultSerializers.listItem(props)` */
    | DefaultListItem(itemProps: ItemProps)
      /** `SanityBlockContent.defaultSerializers.types.block(props)` */
    | DefaultBlock(blockProps: NodeProps)

  /** The wrapper `scrubMarkProps` stores for a truthy mark serializer. */
  datatype MarkWrapper = MarkWrapper(serializer: Fn, displayName: string)

  /** An entry of the `types` table: the block handler, or a wrapper around a custom serializer. */
  datatype TypeHandler = BlockHandler | NodeWrapper(serializer: Option<Fn>, displayName: string)

  /**
    The object `buildSerializer` returns. The `list`, `listItem` and
    `types.block` closures are represented by the values they capture.
   */
  datatype Table = Table(
    marks: map<string, MarkWrapper>,
    bullet: Option<Fn>,
    numbered: Option<Fn>,
    item: Option<Fn>,
    styles: map<string, Option<Fn>>,
    custom: map<string, Option<Fn>>,
    types: map<string, TypeHandler>)

  const MarkNames: set<string> := {"link", "strong", "em", "underline", "del", "code"}
  const ListNames: set<string> := {"ul", "ol", "li"}
  const StyleNames: set<string> := {"h1", "h2", "h3", "h4", "blockquote"}

  /** The keys `buildSerializer` destructures by name; every other key is custom. */
  const Recognised: set<string> := MarkNames + ListNames + StyleNames

  /** The mark names registered under their own key (`del` is registered as "strike-through"). */
  const DirectMarks: set<string> := {"link", "strong", "em", "underline", "code"}

  const StrikeThrough: string := "strike-through"

  /** The members of `Object.prototype`, which every plain-object lookup also finds. */
  const ObjectPrototypeMembers: set<string> := {
    "constructor", "hasOwnProperty", "isPrototypeOf", "propertyIsEnumerable",
    "toLocaleString", "toString", "valueOf", "__defineGetter__", "__defineSetter__",
    "__lookupGetter__", "__lookupSetter__", "__proto__"}

  /** The one member that reads as an object rather than a function: `Object.prototype` itself. */
  const ProtoAccessor: string := "__proto__"

  /** The members that read as functions. */
  const CallablePrototypeMembers: set<string> := ObjectPrototypeMembers - {ProtoAccessor}

  /** Destructuring `const { name } = serializers`: a missing key and a falsy value both read as `None`. */
  function Lookup(c: Config, name: string): (r: Option<Fn>)
    ensures r.Some? <==> name in c && c[name].Some?
    ensures r.Some? ==> r == c[name]
  {
    MapGet(c, name).GetOr(None)
  }

  /** `...customSerializers`: every own key that is not destructured by name, falsy or not. */
  function CustomSerializers(c: Config): (r: map<string, Option<Fn>>)
    ensures r.Keys == c.Keys - Recognised
    ensures forall k :: k in r ==> r[k] == c[k]
  {
    map k | k in c && k !in Recognised :: c[k]
  }

  /** The `blockSerializers` object: every style name is an own key, possibly undefined. */
  function BlockSerializers(c: Config): (r: map<string, Option<Fn>>)
    ensures r.Keys == StyleNames
    ensures forall k :: k in StyleNames ==> r[k] == Lookup(c, k)
  {
    map["h1" := Lookup(c, "h1"), "h2" := Lookup(c, "h2"), "h3" := Lookup(c, "h3"),
        "h4" := Lookup(c, "h4"), "blockquote" := Lookup(c, "blockquote")]
  }

  /** The `displayName` given to the wrapper registered under `name`. */
  function WrapperName(name: string): string
  {
    UpperFirst(name) + "Wrapper"
  }

  /**
    `scrubMarkProps`: keep the truthy serializers, each behind a named
    wrapper; falsy entries disappear.
   */
  function ScrubMarkProps(source: map<string, Option<Fn>>): (r: map<string, MarkWrapper>)
    ensures forall k :: k in r <==> k in source && source[k].Some?
    ensures forall k :: k in r ==> r[k] == MarkWrapper(source[k].value, WrapperName(k))
  {
    map k | k in source && source[k].Some? :: MarkWrapper(source[k].value, WrapperName(k))
  }

  /**
    The object literal handed to `scrubMarkProps`: the five marks under their
    own names, `del` under "strike-through", then `...customSerializers`,
    which is spread last and so wins on any shared key.
   */
  function MarkSource(c: Config): (r: map<string, Option<Fn>>)
    ensures r.Keys == DirectMarks + {StrikeThrough} + (c.Keys - Recognised)
    ensures forall k :: k in c && k !in Recognised ==> r[k] == c[k]
    ensures forall k :: k in DirectMarks ==> r[k] == Lookup(c, k)
    ensures StrikeThrough !in c ==> r[StrikeThrough] == Lookup(c, "del")
  {
    assert StrikeThrough !in Recognised && DirectMarks <= Recognised;
    var custom := CustomSerializers(c);
    map k | k in DirectMarks + {StrikeThrough} + custom.Keys ::
      if k in custom then custom[k]
      else if k == StrikeThrough then Lookup(c, "del")
      else Lookup(c, k)
  }

  /**
    The `types` object: the block handler, then one wrapper per custom key,
    spread after it, so a custom "block" key takes the handler's place.
   */
  function TypeTable(custom: map<string, Option<Fn>>): (r: map<string, TypeHandler>)
    ensures r.Keys == {"block"} + custom.Keys
    ensures forall k :: k in custom ==> r[k] == NodeWrapper(custom[k], WrapperName(k))
    ensures "block" !in custom ==> r["block"] == BlockHandler
  {
    map k | k in custom.Keys + {"block"} ::
      if k in custom then NodeWrapper(custom[k], WrapperName(k)) else BlockHandler
  }

  /**
    `buildSerializer(serializers)`. No key the function destructures by
    name ever reaches the custom bucket or the `types` table, and `types`
    always handles "block".
   */
  function BuildSerializer(c: Config): (t: Table)
    ensures forall k :: k in Recognised ==> k !in t.custom && k !in t.types
    ensures t.types.Keys == {"block"} + (c.Keys - Recognised)
    ensures forall k :: k in t.custom ==> k in c && t.custom[k] == c[k]
  {
    var custom := CustomSerializers(c);
    assert "block" !in Recognised;
    Table(
      marks := ScrubMarkProps(MarkSource(c)),
      bullet := Lookup(c, "ul"),
      numbered := Lookup(c, "ol"),
      item := Lookup(c, "li"),
      styles := BlockSerializers(c),
      custom := custom,
      types := TypeTable(custom))
  }

  // ---------------------------------------------------------------------
  // Dispatch: what each entry of the table does when it is called.
  // ---------------------------------------------------------------------

  /** The `list` serializer: "bullet" selects `ul`, every other type `ol`. */
  function RenderList(t: Table, p: ListProps): (r: Render)
    ensures r.Call? || r.DefaultList?
    ensures r.Call? ==> r.children == p.children
    ensures r.DefaultList? ==> r.listProps == p
    ensures r.Call? && p.listType == Some(Str("bullet")) ==> t.bullet == Some(r.serializer)
    ensures r.Call? && p.listType != Some(Str("bullet")) ==> t.numbered == Some(r.serializer)
    ensures (if p.listType == Some(Str("bullet")) then t.bullet else t.numbered).Some? ==> r.Call?
  {
    var chosen := if p.listType == Some(Str("bullet")) then t.bullet else t.numbered;
    if chosen.Some? then Call(chosen.value, p.children) else DefaultList(p)
  }

  /** The `listItem` serializer. */
  function RenderListItem(t: Table, p: ItemProps): (r: Render)
    ensures r.Call? || r.DefaultListItem?
    ensures r.Call? ==> t.item == Some(r.serializer) && r.children == p.children
    ensures r.DefaultListItem? ==> t.item.None? && r.itemProps == p
  {
    if t.item.Some? then Call(t.item.value, p.children) else DefaultListItem(p)
  }

  /** The key `blockSerializers[style]` looks up for a node. */
  function StyleKey(node: Fields): (k: string)
    ensures "style" !in node ==> k == "undefined"
    ensures "style" in node && node["style"] == Null ==> k == "null"
    ensures "style" in node && node["style"].Str? ==> k == node["style"].s
  {
    PropertyKey(MapGet(node, "style"))
  }

  /** The outcome of reading `obj[key]` on a plain object. */
  datatype Property = Own(value: Option<Fn>) | Inherited(member: string) | Missing {
    /** Whether the value read is truthy: every `Object.prototype` member is. */
    predicate Truthy()
    {
      (Own? && value.Some?) || Inherited?
    }
  }

  /** `obj[key]` on a plain object whose own properties are `own`. */
  function ReadProperty(own: map<string, Option<Fn>>, key: string): (r: Property)
    ensures key in own ==> r == Own(own[key])
    ensures key !in own && key !in ObjectPrototypeMembers ==> r == Missing
  {
    if key in own then Own(own[key])
    else if key in ObjectPrototypeMembers then Inherited(key)
    else Missing
  }

  /**
    Calling the value read by `ReadProperty`, which must be truthy: an own
    serializer or an inherited function is called, while `__proto__` reads
    `Object.prototype`, an object, and calling it throws.
   */
  function CallProperty(p: Property, children: Children): (r: Render)
    requires p.Truthy()
    ensures p.Own? ==> r == Call(p.value.value, children)
    ensures p.Inherited? && p.member != ProtoAccessor ==> r == CallInherited(p.member, children)
    ensures p.Inherited? && p.member == ProtoAccessor ==> r == NotCallable(ProtoAccessor)
  {
    if p.Own? then Call(p.value.value, children)
    else if p.member == ProtoAccessor then NotCallable(p.member)
    else CallInherited(p.member, children)
  }

  /**
    The `types.block` serializer exactly as written: both lookups are plain
    property reads, so a style named after an `Object.prototype` member finds
    that inherited function.
   */
  function RenderBlockAsWritten(t: Table, p: NodeProps): (r: Render)
    ensures r.CallInherited? ==> r.member == StyleKey(p.node) && r.member in CallablePrototypeMembers
    ensures r.NotCallable? ==> r.member == StyleKey(p.node) == ProtoAccessor
    ensures StyleKey(p.node) !in t.styles && StyleKey(p.node) in CallablePrototypeMembers ==>
              r == CallInherited(StyleKey(p.node), p.children)
    ensures StyleKey(p.node) !in t.styles && StyleKey(p.node) == ProtoAccessor ==>
              r == NotCallable(ProtoAccessor)
  {
    var key := StyleKey(p.node);
    var fromStyles := ReadProperty(t.styles, key);
    var fromCustom := ReadProperty(t.custom, key);
    if fromStyles.Truthy() then CallProperty(fromStyles, p.children)
    else if fromCustom.Truthy() then CallProperty(fromCustom, p.children)
    else DefaultBlock(p)
  }

  /**
    The override the `types.block` serializer picks for a style key, with
    the lookups restricted to own keys: the named style override, then the
    custom serializer of the same name; `None` when neither is truthy.
   */
  function BlockOverride(t: Table, key: string): (r: Option<Fn>)
    ensures r.Some? ==> (key in t.styles && t.styles[key] == r) || (key in t.custom && t.custom[key] == r)
  {
    if key in t.styles && t.styles[key].Some? then t.styles[key]
    else if key in t.custom && t.custom[key].Some? then t.custom[key]
    else None
  }

  /**
    The `types.block` serializer with own-key lookups: the chosen override
    called with only the children, else the library default with the props
    untouched.
   */
  function RenderBlock(t: Table, p: NodeProps): (r: Render)
    ensures r.Call? ==> r.children == p.children
    ensures r.DefaultBlock? ==> r.blockProps == p
    ensures r.Call? || r.DefaultBlock?
  {
    var f := BlockOverride(t, StyleKey(p.node));
    if f.Some? then Call(f.value, p.children) else DefaultBlock(p)
  }

  /**
    A node rendered through `types[typeName]`; `None` when the table has no
    entry, which leaves the node to the external renderer's unknown-type slot.
   */
  function RenderType(t: Table, typeName: string, p: NodeProps): (r: Option<Render>)
    ensures r.Some? <==> typeName in t.types
    ensures r.Some? && r.value.Element? ==> r.value.props == p.node && r.value.elementChildren.None?
    ensures r.Some? ==> r.value.Element? || r.value.Call? || r.value.DefaultBlock?
  {
    if typeName !in t.types then None
    else match t.types[typeName]
      case BlockHandler => Some(RenderBlock(t, p))
      case NodeWrapper(s, _) => Some(Element(s, p.node, None))
  }

  /** `{ _type, _key, ...props } = mark`: the mark without its identity fields. */
  function ScrubIdentity(mark: Fields): (r: Fields)
    ensures forall k :: k in r <==> k in mark && k != "_type" && k != "_key"
    ensures forall k :: k in r ==> r[k] == mark[k]
  {
    mark - {"_type", "_key"}
  }

  /**
    A mark rendered through `marks[name]`; `None` when the table has no
    entry, which leaves it to the external renderer's unknown-mark slot.
   */
  function RenderMark(t: Table, name: string, p: MarkProps): (r: Option<Render>)
    ensures r.Some? <==> name in t.marks
    ensures r.Some? ==>
              r.value.Element? && r.value.component.Some? &&
              "_type" !in r.value.props && "_key" !in r.value.props &&
              (forall k :: k in p.mark && k != "_type" && k != "_key" ==> k in r.value.props && r.value.props[k] == p.mark[k]) &&
              r.value.elementChildren == Some(p.children)
  {
    if name in t.marks
    then Some(Element(Some(t.marks[name].serializer), ScrubIdentity(p.mark), Some(p.children)))
    else None
  }
}
