# react-portable-text, modelled in Dafny

A model of `src/index.jsx` of react-portable-text, a thin React adapter over
`@sanity/block-content-to-react`. It covers the four things the file itself
decides:

- **`blockContentToPlainText`**: a Portable Text document flattened to a
  string. Text blocks contribute their spans' `text` joined with "", every
  other node contributes "", and the per-block strings are joined with a
  blank line (`"\n\n"`). The model follows JavaScript's `Array.prototype.join`:
  `undefined` and `null` render as "", and other values go through `String(v)`.
- **`buildSerializer` and `scrubMarkProps`**: the flat `serializers` override
  map is split by name into mark, list and block-style overrides, plus a
  residual bucket of custom serializers. The result is the table the external
  renderer calls:
  - `marks`: truthy serializers only, `del` registered as "strike-through",
    and custom keys spread last so they win;
  - `list`, `listItem` and `types.block`: the override or else the library
    default;
  - `types`: one wrapper per custom key, falsy or not.

  Serializers are opaque (`Fn`). A call into one, into React or into a
  library default is returned as a `Render` value that records who is called
  with what.
- **`upperFirst`**: used for the wrappers' `displayName`, modelled with ASCII
  case mapping.
- **The `PortableText` guard**: a falsy `content` throws
  ``"No `content` provided to PortableText."``. Anything else is handed on
  unchanged, with `renderContainerOnSingleChild` set and the serializer
  table built from `serializers` (default `{}`).

Modules: `Wrappers` (Option/Result), `Strings` (join, concatenation,
`upperFirst`), `JsValues` (values, truthiness, `String(v)`), `PlainText`,
`Serializers` (the table and its routing), `SerializerLaws` (the routing
stated against the override map directly) and `Component`.

Behaviour of the code worth knowing:

- An empty or non-text block keeps its slot: two paragraphs around an image
  give `"Hello world\n\n\n\nBye"` (`PlainText.ImageBetweenTwoParagraphs`).
- `buildSerializer` runs on every render; the table is not cached.
- Every key of `serializers` that is not destructured by name (`container`,
  `hardBreak`, or any other) lands in the custom bucket and becomes both a
  `marks` entry (when truthy) and a `types` entry.
- The strike-through mark is registered as "strike-through" from the `del`
  override; the key "del" itself is never a mark name.

## Model

| member | source | states |
|---|---|---|
| Strings.Join | src/index.jsx:163-166 | joining no parts gives "" and joining one part gives that part |
| Strings.JoinLength | src/index.jsx:166 | a join's length is the parts' total length plus one separator per neighbouring pair |
| Strings.JoinLeftToRight | src/index.jsx:166 | building the join one part at a time, left to right, gives the joined string |
| Strings.JoinSnoc | src/index.jsx:166 | appending a part appends one separator and that part, and nothing else changes (the engine's left-to-right join) |
| Strings.JoinEmptySeparator | src/index.jsx:163 | `join("")` equals plain concatenation, defined independently |
| Strings.JoinSlot | src/index.jsx:166 | every part, even an empty one, appears unchanged at its offset: the earlier parts' lengths plus one separator each |
| Strings.JoinSeparatorAfter | src/index.jsx:166 | exactly one separator follows every part but the last |
| Strings.JoinKeepsEmptyPart | src/index.jsx:166 | an empty middle part leaves two separators next to each other |
| Strings.UpperFirst | src/index.jsx:168 | length unchanged; the first character is upper-cased and the rest is kept |
| Strings.UpperFirstIdempotent | src/index.jsx:168 | applying it twice is the same as once |
| Strings.UpperFirstRoundTrip | src/index.jsx:168 | lowering the first character again recovers the string exactly when it did not start with a capital |
| SerializerLaws.DisplayNameRecoversName | src/index.jsx:147 | a wrapper's displayName is the upper-first name plus "Wrapper", and, for a name not starting with A–Z (the empty name included), the name can be read back from it |
| JsValues.Truthy | src/index.jsx:15 | undefined and null are falsy, every object and array (even empty) is truthy, and a string is truthy exactly when non-empty |
| JsValues.PropertyKey | src/index.jsx:117-119 | a missing field becomes the key "undefined", null becomes "null", a string is its own key and a boolean becomes "true"/"false" |
| JsValues.NatToStringValue | src/index.jsx:163 | the decimal digits written for a number denote that number, read back most significant first |
| PlainText.SpanText | src/index.jsx:163 | a span with a missing or null `text` renders "", a string `text` renders as itself and a number as its decimal form |
| PlainText.SpanTexts | src/index.jsx:163 | one rendered text per span, in the spans' order |
| PlainText.BlockText | src/index.jsx:161-165 | a block that is not a text block contributes ""; a text block contributes exactly as many characters as its spans' texts |
| PlainText.TextBlockIsConcatenation | src/index.jsx:162-163 | every text block, one without spans included, contributes its spans' texts concatenated |
| PlainText.MapBlockTexts | src/index.jsx:160-165 | mapping the blocks element by element gives each block's text in document order |
| PlainText.BlockContentToPlainText | src/index.jsx:159-166 | a missing document gives ""; the result is empty exactly when there is at most one block and it contributes nothing; its length is the block texts plus two characters between neighbours |
| PlainText.ComputePlainText | src/index.jsx:159-166 | mapping the blocks and then joining left to right computes the same string |
| PlainText.TextBlockIsSpanConcatenation | src/index.jsx:162-163 | each span's text sits unchanged inside its block at the offset the earlier spans leave |
| PlainText.BlockSlot | src/index.jsx:160-166 | every block's text appears unchanged at its slot, after the earlier texts and one blank line each |
| PlainText.BlockFollowedBySeparator | src/index.jsx:166 | a blank line follows every block but the last |
| PlainText.EmptyBlockKeepsItsSlot | src/index.jsx:161-166 | a middle block with no text leaves four newlines in a row |
| PlainText.ImageBetweenTwoParagraphs | src/index.jsx:159-166 | two paragraphs around an image give "Hello world\n\n\n\nBye" |
| Serializers.Lookup | src/index.jsx:56-78 | a destructured override is present exactly when its key is an own key with a truthy value, and is that value |
| Serializers.CustomSerializers | src/index.jsx:56-78 | the rest object holds exactly the keys not destructured by name, with their values, falsy ones included |
| Serializers.BlockSerializers | src/index.jsx:80-86 | exactly the five style names are keys, each with the override or undefined |
| Serializers.ScrubMarkProps | src/index.jsx:142-152 | a name is kept iff its serializer is truthy, behind a wrapper with that serializer and an upper-first displayName |
| Serializers.MarkSource | src/index.jsx:89-97 | keys are the five direct marks, "strike-through" and the custom keys; a custom key wins, and "strike-through" otherwise reads `del` |
| Serializers.TypeTable | src/index.jsx:111-136 | keys are "block" and the custom keys; every custom key, falsy or not, gets a wrapper; "block" keeps the handler unless a custom key replaces it |
| Serializers.BuildSerializer | src/index.jsx:55-139 | no destructured name reaches the custom bucket or `types`; `types` has "block" plus the custom keys; custom values come from the overrides |
| Serializers.StyleKey | src/index.jsx:113-119 | a block without a `style` looks up "undefined", a null style looks up "null", and a string style looks up itself |
| Serializers.ReadProperty | src/index.jsx:117-121 | an own key reads its value; an unknown key outside Object.prototype reads undefined |
| Serializers.CallProperty | src/index.jsx:118-120 | an own serializer or inherited function is called with the children only; `__proto__`, an object, throws when called |
| Serializers.RenderBlockAsWritten | src/index.jsx:117-121 | an inherited call or a throw happens only when the style names an Object.prototype member, and, when the style table lacks that key, always does: a call for function members and a throw for `__proto__` |
| Serializers.BlockOverride | src/index.jsx:117-121 | a chosen override is the style table's or the custom bucket's value under the style key |
| Serializers.RenderBlock | src/index.jsx:112-122 | the outcome is an override called with the block's children only, or the default with the props untouched; nothing inherited is reached |
| Serializers.RenderList | src/index.jsx:98-104 | a list calls the `ul` slot for "bullet" and the `ol` slot otherwise, with its children only, exactly when that slot is truthy, and otherwise gives the default the original props |
| Serializers.RenderListItem | src/index.jsx:105-110 | a list item calls the `li` slot with its children only when it is truthy, else the default gets the props |
| Serializers.RenderType | src/index.jsx:111-136 | a node is handled exactly when its type has an entry; an element gets the node's fields as props and no children; "block" runs the own-key block handler (the corrected one in Findings) |
| Serializers.RenderMark | src/index.jsx:145-146 | a mark is handled exactly when its name has an entry, as an element of a truthy serializer whose props are the mark's fields minus `_type`/`_key`, with the children |
| Serializers.ScrubIdentity | src/index.jsx:145 | exactly the fields other than `_type` and `_key` remain, with their values |
| SerializerLaws.MarkSourceAnswers | src/index.jsx:89-97 | the object given to `scrubMarkProps` answers every name as the priority rule: custom key, else direct mark, else `del` for "strike-through" |
| SerializerLaws.MarksTable | src/index.jsx:89-152 | a name is in `marks` iff the priority rule yields a truthy serializer, and its wrapper holds that serializer |
| SerializerLaws.MarksNeverUseOtherKeys | src/index.jsx:89-97 | "del" and the list and style names are never mark names |
| SerializerLaws.CustomStrikeThroughWins | src/index.jsx:95-96 | a custom "strike-through" overrides `del`, and a falsy one removes the mark |
| SerializerLaws.MarkRendering | src/index.jsx:145-146 | a mark renders as an element of the chosen serializer with the scrubbed mark as props and the children; an unknown mark is not handled |
| SerializerLaws.IdentityFieldsNeverForwarded | src/index.jsx:145 | `_type` and `_key` values never affect the props, and scrubbing twice equals scrubbing once |
| SerializerLaws.LinkHrefForwarded | src/index.jsx:145-146 | a link mark reaches the `link` override with `href` unchanged and without `_type`/`_key` |
| SerializerLaws.ListDispatch | src/index.jsx:98-104 | a "bullet" list goes to `ul` and every other type to `ol`, called with the children only; if that override is falsy the default gets the original props |
| SerializerLaws.ListItemDispatch | src/index.jsx:105-110 | a list item goes to `li` with its children only, else the default gets the props |
| SerializerLaws.BlockOverrideIsStyleFor | src/index.jsx:117-121 | the table's own-key block lookup picks the named style override first, then a custom key of that name |
| SerializerLaws.BlockDispatch | src/index.jsx:112-122 | a text block goes to the picked override with only its children, else to the default with the props untouched |
| SerializerLaws.BlockStyleIgnoresMarkAndListOverrides | src/index.jsx:80-86 | a style named like a mark or list override falls to the default block |
| SerializerLaws.TypesDispatch | src/index.jsx:111-136 | a custom key renders its node as an element of its value with the node's fields as props; "block" goes to the block handler; other types are not handled |
| SerializerLaws.CustomBlockReplacesBlockHandler | src/index.jsx:111-136 | a custom "block" key takes over text blocks |
| SerializerLaws.FalsyCustomKeepsTypeEntry | src/index.jsx:127-152 | a falsy custom value is no mark but still gets a `types` wrapper with a falsy component |
| SerializerLaws.NoCustomKeysOnlyBlockType | src/index.jsx:111-137 | without custom keys `types` holds just the block handler |
| SerializerLaws.NoTruthyOverridesNoMarks | src/index.jsx:142-152 | with no truthy override `marks` is empty |
| SerializerLaws.NoTruthyOverridesUseDefaults | src/index.jsx:98-122 | with no truthy override lists, list items and (under the own-key block handler) blocks all go to the defaults with their props |
| SerializerLaws.AsWrittenAgreesOffPrototype | src/index.jsx:117-121 | for styles that do not name an Object.prototype member, the handler as written and the own-key handler agree |
| SerializerLaws.PrototypeMembersNotRecognised | src/index.jsx:56-78 | no Object.prototype member name is destructured by name, so such a key is always custom |
| SerializerLaws.InheritedStyleIsCalled | src/index.jsx:117-121 | as written, a style naming an Object.prototype member calls that function (or throws, for `__proto__`) whatever the overrides; own-key lookup gives the custom serializer of that name or the default |
| SerializerLaws.ToStringStyleIsCalled | src/index.jsx:117-118 | as written, style "toString" calls `Object.prototype.toString` |
| SerializerLaws.ProtoStyleThrows | src/index.jsx:117-118 | as written, style "__proto__" reads a non-function and throws |
| SerializerLaws.NoTruthyOverridesAsWrittenBlock | src/index.jsx:112-122 | as written and with no truthy override, a block reaches the default exactly when its style names no Object.prototype member |
| Component.PortableText | src/index.jsx:14-25 | throws exactly when `content` is falsy, with the fixed message; otherwise passes content and className on unchanged, sets renderContainerOnSingleChild and hands on the table built from `serializers` (default `{}`) |
| Component.OmittedSerializersUseDefaults | src/index.jsx:14-22 | without `serializers`: no marks, only the block type, and defaults for lists, list items and (under the own-key block handler) blocks |
| Component.FalsyContentRejected | src/index.jsx:15 | null, false, 0 and "" are rejected; an empty array is accepted |

## Left out

- Rendering itself (React elements, the external renderer's default
  serializers, its handling of unknown types and marks). These are
  represented by the `Render` values that name the call; what they produce
  is outside this file.
- React's treatment of `key`, `ref` and `children` inside `createElement`
  props. An element is recorded with exactly the props and children the
  source passes.
- `PropTypes` declarations (lines 29-53). They only warn in development and
  change no result.
- `build.js`, the bundler configuration, is not part of this model.
- `null` for `serializers` or `blocks`: JavaScript throws a TypeError on
  these, and the model takes only the absent (`undefined`) case, which the
  defaults cover. A `node` prop that is missing or `null` throws too
  (src/index.jsx:113-114 has no default); the model always has a node.
- PlainText.BlockContentToPlainText: documents whose elements are `null` or
  primitives (reading `_type` throws), or whose text block has a truthy
  `children` that is not an array (`map` is not a function), are not
  representable, so these TypeErrors are not modelled.
- What an inherited Object.prototype function does once called is not
  modelled: `CallInherited` records the call only. Some of these functions
  (`__defineGetter__`, `__defineSetter__`) throw when called with a single
  argument.
- Serializers.RenderType: the "block" entry runs `Serializers.RenderBlock`,
  which reads the style table and the custom bucket by own keys only, the
  corrected behaviour named under Findings. As written, a style naming an
  Object.prototype member reaches the inherited member or throws
  (`Serializers.RenderBlockAsWritten`, `SerializerLaws.InheritedStyleIsCalled`).
- SerializerLaws.NoTruthyOverridesUseDefaults: its block conjunct is about
  the own-key handler. As written, it holds only for styles that name no
  Object.prototype member (`SerializerLaws.NoTruthyOverridesAsWrittenBlock`).
- Component.OmittedSerializersUseDefaults: "defaults for blocks" is about the
  own-key handler. As written, a style naming an Object.prototype member
  reaches the inherited member even without `serializers`.
- Every truthy override is taken to be a plain function, as the `PropTypes.func`
  declarations say. The `ul`/`ol`, `li` and block overrides are called
  directly (src/index.jsx:102, 108, 118, 120). A truthy value that is not a
  plain function there (a class component, a `React.memo` or `forwardRef`
  object, a string tag) throws a TypeError, which the model does not
  represent: it gives `Call`. Marks and types hand the same value to
  `React.createElement` (src/index.jsx:129, 146), where such values work.
- Marks given as bare strings, and non-object spans. Spans are records whose
  only read field is `text`.
- Strings.UpperFirst: upper-cases ASCII letters only, because JavaScript's
  full Unicode case mapping (including characters whose upper case is
  longer) is not modelled.
- JsValues.ToJsString: numbers are integers, so floating-point formatting of
  `String(n)` is not modelled. Objects always give `"[object Object]"`
  (custom `toString` is not modelled).
- Object key order, which the source never depends on. Maps are unordered
  in the model.
- Getters, symbols and non-enumerable properties of the `serializers`
  object. An override map is its own enumerable string keys.

## Findings

| source | as written | input that shows it | evidently intended | confidence | as-written member | corrected member |
|---|---|---|---|---|---|---|
| src/index.jsx:117-121 | `blockSerializers[style]` and `customSerializers[style]` are plain-object reads, so a style naming an Object.prototype member finds the inherited function, which is truthy and gets called with `{ children }` | a text block with `style: "toString"` (or "constructor", "valueOf", ...; "__proto__" throws a TypeError instead) and any overrides | only the user's own overrides are consulted; otherwise the library default renders the block | not executed | SerializerLaws.InheritedStyleIsCalled | SerializerLaws.BlockDispatch |

`Serializers.RenderBlockAsWritten` models the lookup as written. The model
itself routes text blocks through `Serializers.RenderBlock`, which reads own
keys only.
