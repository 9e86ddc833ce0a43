/**
  What the table built by `buildSerializer` does, stated against the user's
  override map directly: which serializer answers for each mark, list,
  list item, block style and node type, and what it receives.
 */
module SerializerLaws {
  import opened Wrappers
  import opened JsValues
  import opened Strings
  import opened Serializers

  // ---------------------------------------------------------------------
  // Marks
  // ---------------------------------------------------------------------

  /**
    The serializer that answers for a mark name, by priority: a custom key
    of that name (even a falsy one, which then removes the mark), else the
    recognised mark of that name, with `del` answering for "strike-through".
   */
  function MarkFor(c: Config, name: string): Option<Fn>
  {
    if name in c && name !in Recognised then c[name]
    else if name in DirectMarks then Lookup(c, name)
    else if name == StrikeThrough then Lookup(c, "del")
    else None
  }

  /**
    A wrapper's `displayName` is the name with its first character
    upper-cased and "Wrapper" appended; the name can be read back from it
    unless it already started with a capital.
   */
  lemma DisplayNameRecoversName(name: string)
    requires |name| == 0 || !('A' <= name[0] <= 'Z')
    ensures var d := WrapperName(name);
            |d| == |name| + 7 && d[|name|..] == "Wrapper" && LowerFirst(d[..|name|]) == name
  {
    var d := WrapperName(name);
    assert d[..|name|] == UpperFirst(name);
    if |name| > 0 {
      UpperFirstRoundTrip(name);
    }
  }

  /** The object handed to `scrubMarkProps` answers each name as `MarkFor` does. */
  lemma MarkSourceAnswers(c: Config, name: string)
    ensures name in MarkSource(c) ==> MarkSource(c)[name] == MarkFor(c, name)
    ensures name !in MarkSource(c) ==> MarkFor(c, name).None?
  {
    assert StrikeThrough !in Recognised && DirectMarks <= Recognised;
    assert StrikeThrough !in DirectMarks;
  }

  /** The marks table holds exactly the names `MarkFor` answers, each wrapped and named. */
  lemma MarksTable(c: Config, name: string)
    ensures name in BuildSerializer(c).marks <==> MarkFor(c, name).Some?
    ensures name in BuildSerializer(c).marks ==>
              BuildSerializer(c).marks[name] == MarkWrapper(MarkFor(c, name).value, WrapperName(name))
  {
    MarkSourceAnswers(c, name);
    assert BuildSerializer(c).marks == ScrubMarkProps(MarkSource(c));
  }

  /** How the name sets relate: the facts the routing lemmas below rest on. */
  lemma NameSetFacts()
    ensures (ListNames + StyleNames) !! DirectMarks
    ensures ListNames + StyleNames <= Recognised
    ensures StrikeThrough !in Recognised && StrikeThrough !in DirectMarks
    ensures "del" in Recognised && "del" !in DirectMarks && "del" != StrikeThrough
    ensures DirectMarks <= Recognised && "block" !in Recognised
    ensures (MarkNames + ListNames) !! StyleNames && StyleNames <= Recognised
  {
  }

  /** `del` is registered only under "strike-through", and list and style overrides are never marks. */
  lemma MarksNeverUseOtherKeys(c: Config)
    ensures "del" !in BuildSerializer(c).marks
    ensures forall k :: k in ListNames + StyleNames ==> k !in BuildSerializer(c).marks
  {
    NameSetFacts();
    MarksTable(c, "del");
    forall k | k in ListNames + StyleNames
      ensures k !in BuildSerializer(c).marks
    {
      MarksTable(c, k);
    }
  }

  /** A custom "strike-through" key wins over `del`, and a falsy one removes the mark altogether. */
  lemma CustomStrikeThroughWins(c: Config)
    requires StrikeThrough in c
    ensures c[StrikeThrough].None? ==> StrikeThrough !in BuildSerializer(c).marks
    ensures c[StrikeThrough].Some? ==>
              StrikeThrough in BuildSerializer(c).marks &&
              BuildSerializer(c).marks[StrikeThrough].serializer == c[StrikeThrough].value
  {
    assert StrikeThrough !in Recognised;
    MarksTable(c, StrikeThrough);
  }

  /**
    Rendering a mark calls its serializer as a React element whose props are
    the mark's fields without `_type` and `_key`, with `children` passed
    through; a name the table lacks is not handled here.
   */
  lemma MarkRendering(c: Config, name: string, p: MarkProps)
    ensures MarkFor(c, name).None? ==> RenderMark(BuildSerializer(c), name, p).None?
    ensures MarkFor(c, name).Some? ==>
              RenderMark(BuildSerializer(c), name, p)
              == Some(Element(Some(MarkFor(c, name).value), ScrubIdentity(p.mark), Some(p.children)))
  {
    MarksTable(c, name);
  }

  /** The identity fields never reach a mark serializer, whatever their values. */
  lemma IdentityFieldsNeverForwarded(mark: Fields, ty: Value, key: Value)
    ensures ScrubIdentity(mark["_type" := ty]["_key" := key]) == ScrubIdentity(mark)
    ensures ScrubIdentity(ScrubIdentity(mark)) == ScrubIdentity(mark)
  {
    var a := ScrubIdentity(mark["_type" := ty]["_key" := key]);
    var b := ScrubIdentity(mark);
    assert a.Keys == b.Keys;
  }

  /**
    A link mark carrying an `href` reaches the `link` override with `href`
    present and unchanged and without `_type` or `_key`.
   */
  lemma LinkHrefForwarded(c: Config, f: Fn, mark: Fields, children: Children)
    requires Lookup(c, "link") == Some(f)
    requires "href" in mark
    ensures var r := RenderMark(BuildSerializer(c), "link", MarkProps(mark, children));
            r.Some? && r.value.Element? && r.value.component == Some(f) &&
            "href" in r.value.props && r.value.props["href"] == mark["href"] &&
            "_type" !in r.value.props && "_key" !in r.value.props &&
            r.value.elementChildren == Some(children)
  {
    MarkRendering(c, "link", MarkProps(mark, children));
  }

  // ---------------------------------------------------------------------
  // Lists and list items
  // ---------------------------------------------------------------------

  /** The override a list of this type selects: `ul` for "bullet", `ol` for anything else. */
  function ListOverrideName(p: ListProps): string
  {
    if p.listType == Some(Str("bullet")) then "ul" else "ol"
  }

  /**
    A list goes to the override its type selects, called with only its
    children; when that override is absent the library default receives the
    original props, even if the other list override is set.
   */
  lemma ListDispatch(c: Config, p: ListProps)
    ensures var want := Lookup(c, ListOverrideName(p));
            RenderList(BuildSerializer(c), p)
            == if want.Some? then Call(want.value, p.children) else DefaultList(p)
  {
  }

  /** A list item goes to `li` with only its children, else to the library default untouched. */
  lemma ListItemDispatch(c: Config, p: ItemProps)
    ensures var li := Lookup(c, "li");
            RenderListItem(BuildSerializer(c), p)
            == if li.Some? then Call(li.value, p.children) else DefaultListItem(p)
  {
  }

  // ---------------------------------------------------------------------
  // Block styles
  // ---------------------------------------------------------------------

  /**
    The override that answers for a block style, by priority: the named
    style override (h1 to h4, blockquote), then a custom key of that name.
   */
  function StyleFor(c: Config, style: string): Option<Fn>
  {
    if style in StyleNames && Lookup(c, style).Some? then Lookup(c, style)
    else if style in c && style !in Recognised then c[style]
    else None
  }

  /** A style name is looked up in the style table only: it never reaches the custom bucket. */
  lemma StyleNameOverride(c: Config, key: string)
    requires key in StyleNames
    ensures BlockOverride(BuildSerializer(c), key) == StyleFor(c, key)
  {
    var t := BuildSerializer(c);
    assert t.styles == BlockSerializers(c) && t.custom == CustomSerializers(c);
    NameSetFacts();
    assert key !in t.custom;
    assert t.styles[key] == Lookup(c, key);
  }

  /** Any other key is missing from the style table and is looked up in the custom bucket. */
  lemma OtherKeyOverride(c: Config, key: string)
    requires key !in StyleNames
    ensures BlockOverride(BuildSerializer(c), key) == StyleFor(c, key)
  {
    var t := BuildSerializer(c);
    assert t.styles == BlockSerializers(c) && t.custom == CustomSerializers(c);
    assert key !in t.styles;
  }

  /** The table's own-key block lookup picks exactly what `StyleFor` picks. */
  lemma BlockOverrideIsStyleFor(c: Config, key: string)
    ensures BlockOverride(BuildSerializer(c), key) == StyleFor(c, key)
  {
    if key in StyleNames {
      StyleNameOverride(c, key);
    } else {
      OtherKeyOverride(c, key);
    }
  }

  /**
    A text block goes to the override `StyleFor` picks, called with only its
    children, or else to the library default with the props untouched.
   */
  lemma BlockDispatch(c: Config, p: NodeProps)
    ensures var f := StyleFor(c, StyleKey(p.node));
            RenderBlock(BuildSerializer(c), p)
            == if f.Some? then Call(f.value, p.children) else DefaultBlock(p)
  {
    BlockOverrideIsStyleFor(c, StyleKey(p.node));
  }

  /**
    A block whose style names a mark or list override is never rendered by
    that override: it falls back to the library default.
   */
  lemma BlockStyleIgnoresMarkAndListOverrides(c: Config, p: NodeProps)
    requires StyleKey(p.node) in MarkNames + ListNames
    ensures RenderBlock(BuildSerializer(c), p) == DefaultBlock(p)
  {
    assert (MarkNames + ListNames) !! StyleNames;
    BlockDispatch(c, p);
  }

  // ---------------------------------------------------------------------
  // Node types
  // ---------------------------------------------------------------------

  /**
    The `types` table: a custom key answers for nodes of its name with a
    React element whose props are the node's fields unchanged (a falsy value
    keeps its entry); otherwise "block" goes to the block handler and every
    other type is not handled here.
   */
  lemma TypesDispatch(c: Config, typeName: string, p: NodeProps)
    ensures typeName in c && typeName !in Recognised ==>
              RenderType(BuildSerializer(c), typeName, p) == Some(Element(c[typeName], p.node, None))
    ensures !(typeName in c && typeName !in Recognised) ==>
              RenderType(BuildSerializer(c), typeName, p)
              == if typeName == "block" then Some(RenderBlock(BuildSerializer(c), p)) else None
  {
    var t := BuildSerializer(c);
    if typeName in c && typeName !in Recognised {
      assert typeName in t.custom;
      assert t.types[typeName] == NodeWrapper(c[typeName], WrapperName(typeName));
    } else if typeName == "block" {
      assert "block" !in t.custom;
      assert t.types["block"] == BlockHandler;
    } else {
      assert typeName !in t.types;
    }
  }

  /** A custom key named "block" replaces the block handler: text blocks then reach it as a plain node. */
  lemma CustomBlockReplacesBlockHandler(c: Config, p: NodeProps)
    requires "block" in c
    ensures RenderType(BuildSerializer(c), "block", p) == Some(Element(c["block"], p.node, None))
  {
    assert "block" !in Recognised;
    TypesDispatch(c, "block", p);
  }

  /**
    A falsy custom value is dropped from the marks table but still gets a
    `types` wrapper, which hands React a falsy component.
   */
  lemma FalsyCustomKeepsTypeEntry(c: Config, name: string, p: NodeProps)
    requires name in c && name !in Recognised && c[name].None?
    ensures name !in BuildSerializer(c).marks
    ensures RenderType(BuildSerializer(c), name, p) == Some(Element(None, p.node, None))
  {
    MarksTable(c, name);
    TypesDispatch(c, name, p);
  }

  // ---------------------------------------------------------------------
  // No overrides
  // ---------------------------------------------------------------------

  /** Without custom keys the `types` table holds only the block handler. */
  lemma NoCustomKeysOnlyBlockType(c: Config)
    requires c.Keys <= Recognised
    ensures BuildSerializer(c).types.Keys == {"block"}
    ensures BuildSerializer(c).types["block"] == BlockHandler
  {
    NameSetFacts();
    assert CustomSerializers(c).Keys == {};
  }

  /** An override map without a single truthy serializer (the empty one included) registers no mark. */
  lemma NoTruthyOverridesNoMarks(c: Config)
    requires forall k :: k in c ==> c[k].None?
    ensures BuildSerializer(c).marks.Keys == {}
  {
    forall k
      ensures k !in BuildSerializer(c).marks
    {
      NoTruthyOverrideAnswers(c, k);
      MarksTable(c, k);
    }
  }

  /** With no truthy override the priority rule answers no name. */
  lemma NoTruthyOverrideAnswers(c: Config, name: string)
    requires forall k :: k in c ==> c[k].None?
    ensures MarkFor(c, name).None?
  {
    assert Lookup(c, name).None? && Lookup(c, "del").None?;
  }

  /**
    An override map without a single truthy serializer leaves every list,
    list item and block style to the library default, props untouched.
   */
  lemma NoTruthyOverridesUseDefaults(c: Config, lp: ListProps, ip: ItemProps, np: NodeProps)
    requires forall k :: k in c ==> c[k].None?
    ensures RenderList(BuildSerializer(c), lp) == DefaultList(lp)
    ensures RenderListItem(BuildSerializer(c), ip) == DefaultListItem(ip)
    ensures RenderBlock(BuildSerializer(c), np) == DefaultBlock(np)
  {
    ListDispatch(c, lp);
    ListItemDispatch(c, ip);
    BlockDispatch(c, np);
  }

  // ---------------------------------------------------------------------
  // Lookups that reach Object.prototype
  // ---------------------------------------------------------------------

  /** Off the `Object.prototype` member names the block handler as written is the own-key one. */
  lemma AsWrittenAgreesOffPrototype(t: Table, p: NodeProps)
    requires StyleKey(p.node) !in ObjectPrototypeMembers
    ensures RenderBlockAsWritten(t, p) == RenderBlock(t, p)
  {
  }

  /** No `Object.prototype` member name is destructured by `buildSerializer`. */
  lemma PrototypeMembersNotRecognised()
    ensures ObjectPrototypeMembers !! Recognised
  {
    PrototypeMembersNotMarks();
    PrototypeMembersNotListsOrStyles();
  }

  lemma PrototypeMembersNotMarks()
    ensures ObjectPrototypeMembers !! MarkNames
  {
  }

  lemma PrototypeMembersNotListsOrStyles()
    ensures ObjectPrototypeMembers !! ListNames && ObjectPrototypeMembers !! StyleNames
  {
  }

  /**
    As written, a block whose style names an `Object.prototype` member finds
    that member instead of any serializer, whatever the overrides: a function
    member is called, and `__proto__` (an object) throws. The own-key lookup
    sends such a block to the library default unless a custom serializer of
    that name is set.
   */
  lemma InheritedStyleIsCalled(c: Config, p: NodeProps)
    requires StyleKey(p.node) in ObjectPrototypeMembers
    ensures var key := StyleKey(p.node);
            key != ProtoAccessor ==> RenderBlockAsWritten(BuildSerializer(c), p) == CallInherited(key, p.children)
    ensures StyleKey(p.node) == ProtoAccessor ==>
              RenderBlockAsWritten(BuildSerializer(c), p) == NotCallable(ProtoAccessor)
    ensures var f := Lookup(c, StyleKey(p.node));
            RenderBlock(BuildSerializer(c), p) == if f.Some? then Call(f.value, p.children) else DefaultBlock(p)
  {
    var key := StyleKey(p.node);
    PrototypeMembersNotRecognised();
    assert key !in StyleNames && key !in Recognised;
    assert key !in BuildSerializer(c).styles;
    BlockDispatch(c, p);
  }

  /** The worked instance: style "toString" calls `Object.prototype.toString`. */
  lemma ToStringStyleIsCalled(c: Config, p: NodeProps)
    requires MapGet(p.node, "style") == Some(Str("toString"))
    ensures RenderBlockAsWritten(BuildSerializer(c), p) == CallInherited("toString", p.children)
  {
    assert StyleKey(p.node) == "toString";
    InheritedStyleIsCalled(c, p);
  }

  /** Style "__proto__" reads `Object.prototype`, which is truthy but not callable: the handler throws. */
  lemma ProtoStyleThrows(c: Config, p: NodeProps)
    requires MapGet(p.node, "style") == Some(Str("__proto__"))
    ensures RenderBlockAsWritten(BuildSerializer(c), p) == NotCallable("__proto__")
  {
    assert StyleKey(p.node) == ProtoAccessor;
    InheritedStyleIsCalled(c, p);
  }

  /**
    The block handler as written, with no truthy override: a block reaches
    the library default exactly when its style does not name an
    `Object.prototype` member; such a style reaches the inherited member (or
    throws) even then.
   */
  lemma NoTruthyOverridesAsWrittenBlock(c: Config, np: NodeProps)
    requires forall k :: k in c ==> c[k].None?
    ensures StyleKey(np.node) !in ObjectPrototypeMembers ==>
              RenderBlockAsWritten(BuildSerializer(c), np) == DefaultBlock(np)
    ensures StyleKey(np.node) in ObjectPrototypeMembers ==>
              RenderBlockAsWritten(BuildSerializer(c), np) != DefaultBlock(np)
  {
    if StyleKey(np.node) in ObjectPrototypeMembers {
      InheritedStyleIsCalled(c, np);
    } else {
      AsWrittenAgreesOffPrototype(BuildSerializer(c), np);
      BlockDispatch(c, np);
      assert StyleFor(c, StyleKey(np.node)).None?;
    }
  }
}
