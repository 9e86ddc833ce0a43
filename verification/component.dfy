/**
  The `PortableText` component: the only check it makes is that `content`
  is truthy; everything else is handed to the external block renderer
  together with a freshly built serializer table.
 */
module Component {
  import opened Wrappers
  import opened JsValues
  import opened Serializers
  import SerializerLaws

  const MissingContentMessage: string := "No `content` provided to PortableText."

  /** The one error the component raises. */
  datatype Error = MissingContent(message: string)

  /** The props the component gives the external renderer's element. */
  datatype BlockContent = BlockContent(
    blocks: Value,
    renderContainerOnSingleChild: bool,
    className: Option<Value>,
    serializers: Table)

  /**
    `PortableText({ content, className, serializers = {} })`: throws exactly
    when `content` is falsy, and otherwise passes the content on as it is,
    without looking at its shape.
   */
  function PortableText(content: Option<Value>, className: Option<Value>, serializers: Option<Config>)
    : (r: Result<BlockContent, Error>)
    ensures r.Failure? <==> !Truthy(content)
    ensures r.Failure? ==> r.error == MissingContent(MissingContentMessage)
    ensures r.Success? ==>
              r.value.blocks == content.value &&
              r.value.className == className &&
              r.value.renderContainerOnSingleChild
    ensures r.Success? ==> r.value.serializers == BuildSerializer(serializers.GetOr(map[]))
  {
    if !Truthy(content) then Failure(MissingContent(MissingContentMessage))
    else
      var config := serializers.GetOr(map[]);
      Success(BlockContent(content.value, true, className, BuildSerializer(config)))
  }

  /**
    Without a `serializers` prop the table handed on is the one built from
    an empty override map, so every slot renders with the library default.
   */
  lemma OmittedSerializersUseDefaults(content: Option<Value>, className: Option<Value>,
                                      lp: ListProps, ip: ItemProps, np: NodeProps)
    requires Truthy(content)
    ensures var r := PortableText(content, className, None);
            r.Success? &&
            r.value.serializers.marks.Keys == {} &&
            r.value.serializers.types.Keys == {"block"} &&
            r.value.serializers.types["block"] == BlockHandler &&
            RenderList(r.value.serializers, lp) == DefaultList(lp) &&
            RenderListItem(r.value.serializers, ip) == DefaultListItem(ip) &&
            RenderBlock(r.value.serializers, np) == DefaultBlock(np)
  {
    var none: Config := map[];
    SerializerLaws.NoCustomKeysOnlyBlockType(none);
    SerializerLaws.NoTruthyOverridesNoMarks(none);
    SerializerLaws.NoTruthyOverridesUseDefaults(none, lp, ip, np);
  }

  /** `null`, `false`, `0` and "" are rejected like a missing `content`; an empty array is not. */
  lemma FalsyContentRejected(className: Option<Value>, serializers: Option<Config>)
    ensures PortableText(Some(Null), className, serializers).Failure?
    ensures PortableText(Some(Bool(false)), className, serializers).Failure?
    ensures PortableText(Some(Num(0)), className, serializers).Failure?
    ensures PortableText(Some(Str("")), className, serializers).Failure?
    ensures PortableText(Some(Arr([])), className, serializers).Success?
  {
  }
}
