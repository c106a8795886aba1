# pyhtml in Dafny

pyhtml builds HTML documents from Python objects. Each element name is a tag
class, and calling a class gives a node. Its positional arguments are children
and its keyword arguments are attributes. Calling an instance replaces its
children. A `Block(name)` is a named placeholder that renders only its
children. `node[name] = x` fills every Block of that name in a tree, and
`copy()` gives an independent tree to fill. `str(node)` and
`node.render(**context)` write the tree as indented HTML, escaping text.

The repository holds three versions of this engine, and the model covers all
of them:

- `pyhtml.py`: the current engine. Attributes come out sorted. Callable
  attribute values and callable children are called with the render context.
  `script`, `style` and `form` have default attributes, and `html` writes a
  doctype line.
- `phtml/__init__.py`: the same engine, except that attributes come out in
  dictionary order, attribute values are never called, and there are no
  defaults. Its tag classes are made at import time by `register` and
  `create_tag`.
- `phtml.py`: the older design. A `render_tag` function writes one tag. A
  Tag's content is `None`, `''` or a tuple, and content `None` gives a
  self-closing `<name/>`. Nothing is indented. A Block is a Tag that renders
  only its content.

## How the model is built

- Trees are datatype values.
  - `Html.Node` and `Html.Child` cover the first two engines. `Variant`
    selects between them, because they share one renderer.
  - `Legacy.Element` and `Legacy.Item` cover `phtml.py`.
- The object a program holds and updates in place is a class: its `__call__`,
  `__setitem__` and `copy` change or duplicate its fields.
  - `Elements.Element` and `Legacy.Instance` are the Tag and Block objects.
  - The module namespaces are `Kinds.Package` and `Legacy.Module`; `__all__`
    and the bound classes are fields that the module body fills.
- Rendering has two layers:
  - functions that define the text: `Rendering`, and the `Render` functions
    of `Legacy`;
  - methods that write into a buffer piece by piece, as the source writes into
    a `StringIO`: `Writer`, and `Legacy.WriteRenderTag`.
  
  Each method is proved to append exactly the text of its function. The
  layout properties are proved about the functions in `RenderFacts`.
- Escaping is modelled twice and both readings are proved equal:
  - as the chain of `str.replace` calls the source makes;
  - character by character.
  
  The three copies of `escape` are identical, so one model serves all three.
- `Scenarios` replays, as lemmas, constructions that the test files
  `test_pyhtml.py` and `tests.py` also build.

## Model

| member | source | states |
|---|---|---|
| Strings.Spaces | pyhtml.py:228 | the indentation `' ' * indent` has length `indent` and consists only of spaces |
| Strings.SplitLines | pyhtml.py:226 | `splitlines(True)` yields no empty line, and yields no lines exactly for the empty text |
| Strings.SplitLinesConcat | pyhtml.py:226-229 | joining the lines of `splitlines(True)` gives the text back: nothing is lost or added |
| Strings.SplitLinesBreaks | pyhtml.py:226 | `splitlines(True)` cuts exactly at the terminators: every line but the last ends in `\n` or `\r`, a line holds no terminator before its end except the `\r` of a closing `\r\n`, and a line ending in `\r` is never followed by one starting with `\n` |
| Strings.SplitLinesSingle | pyhtml.py:226 | a non-empty text without `\n` or `\r` is one line |
| Strings.RStrip | pyhtml.py:335-336 | `key.rstrip('_')` is a prefix of the key, does not end in `_`, and only `_` was removed |
| Escaping.Escape | pyhtml.py:163-171 | the loop of `replace` calls returns the character-wise escape of the text |
| Escaping.ReplaceEachIsEscaped | pyhtml.py:164-169 | replacing `&` first, then `<`, `>` and the quotes equals escaping each character on its own; no entity is escaped twice |
| Escaping.EscapedAppend | pyhtml.py:163-171 | escaping a concatenation is the concatenation of the escapes |
| Escaping.EscapedHasNoMarkup | pyhtml.py:163-171 | the result has no raw `<` or `>`, and with `quote` no raw `"` or `'` |
| Escaping.EscapedAmpersandsBeginEntities | pyhtml.py:163-171 | every `&` in the result begins one of the five entities |
| Escaping.EscapedPlain | pyhtml.py:163-171 | a text without special characters is returned unchanged |
| Escaping.EscapeRoundTrip | phtml.py:11-19 | unescaping the entities gives the original text back, with or without `quote` |
| Ordering.LessEqTotal | pyhtml.py:331 | any two attribute names are comparable under Python's string order |
| Ordering.LessEqTransitive | pyhtml.py:331 | Python's string order is transitive |
| Ordering.LessEqAntisymmetric | pyhtml.py:331 | two names that are each `<=` the other are equal |
| Ordering.Insert | pyhtml.py:331 | inserting into a sorted list keeps it sorted and adds exactly that element |
| Ordering.Sort | pyhtml.py:331 | `sorted` returns a sorted permutation of its input |
| Ordering.SortedUnique | pyhtml.py:331 | two sorted lists with the same elements are equal |
| Ordering.SortPermutationInvariant | pyhtml.py:331 | the sorted order does not depend on the order the dictionary holds its keys in |
| Html.Node.Name | pyhtml.py:346-348 | `.name` is a Block's own name and a Tag's class name; the search compares with it (pyhtml.py:250) |
| Html.Assign | pyhtml.py:280 | after `d[k] = v`, `k` maps to `v` and every other key keeps its value |
| Html.AssignDistinct | pyhtml.py:280 | assignment keeps the keys of a dictionary distinct |
| Html.UpdateLookup | pyhtml.py:279-280 | after `copy()` and `update(kwargs)`, a key takes its keyword value when one is given and keeps the default otherwise |
| Html.UpdateDistinct | pyhtml.py:279-280 | `update` keeps the keys distinct |
| Html.NewTag | pyhtml.py:272-280 | construction fails exactly for children given to a self-closing kind (whose `__init__`, pyhtml.py:361-362, takes keyword arguments only), or for children and attributes given together; otherwise it gives a tag of that kind with those children, not safe |
| Html.NewTagAttributes | pyhtml.py:279-280 | a new pyhtml instance has the class defaults overridden by the keyword arguments; in the package engine (phtml/__init__.py:128-134) the attributes are exactly the keyword arguments |
| Html.CallNode | pyhtml.py:282-285 | calling a node replaces its children and changes nothing else; it fails exactly for a self-closing tag, whose `__call__` (pyhtml.py:364-365) raises |
| Rendering.AttributeName | pyhtml.py:335-336 | the `endswith('_')` guard changes nothing: the written name is always `key.rstrip('_')` |
| Rendering.LeafText | pyhtml.py:208-222 | the text of a leaf child: a callable called with the context, any other object by its `str`, escaped unless the owner is `safe` or the child is a tag class |
| Rendering.Emit | pyhtml.py:224-231 | a whitespace-sensitive owner writes the text as it is; any other writes each line of `splitlines(True)` after the indentation |
| Rendering.RenderChildren | pyhtml.py:191-203 | `Block.__str__`: the children in order, each followed by `\n` except the last, and with no separator in a whitespace-sensitive owner; the package engine (phtml/__init__.py:47-59) is the same |
| Rendering.RenderNode | pyhtml.py:290-328 | `Tag.__str__`: doctype line, indented opening tag with attributes, then for children a newline, the children two deeper, a newline and the indentation, then the closing tag; a Block is its children; a self-closing tag (pyhtml.py:367-382) is `<name` + attributes + `/>` |
| Rendering.SortedAttrs | pyhtml.py:331 | `sorted(attributes.items())` has sorted keys, the same keys as the dictionary, and each key with its own value |
| RenderFacts.ChildrenJoined | pyhtml.py:195-201 | children are written in order, separated by exactly one `\n` with none after the last; a whitespace-sensitive owner writes no separator |
| RenderFacts.EmptyTagLayout | pyhtml.py:311-326 | a tag without children is its opening tag followed directly by its closing tag |
| RenderFacts.TagLayout | pyhtml.py:290-328 | a tag with children is: opening tag, newline, children at `indent + 2` joined by newlines, newline, indentation and closing tag; a whitespace-sensitive tag writes its children directly between the tags |
| RenderFacts.SelfClosingLayout | pyhtml.py:367-382 | a self-closing tag is `indent + "<name" + attributes + "/>"`, whatever its children |
| RenderFacts.EmitChars | pyhtml.py:225-231 | writing a text adds no character other than indentation spaces |
| RenderFacts.LeafEscaped | pyhtml.py:220-222 | a string or callable child of an owner that is not `safe` contributes no raw `<`, `>`, `"` or `'` |
| RenderFacts.EmitUnindented | pyhtml.py:225-231 | at indentation 0 a text is written exactly as it is |
| RenderFacts.EmitOneLine | pyhtml.py:225-229 | a one-line text is written after the indentation |
| RenderFacts.SingleChild | pyhtml.py:197-201 | a single child is written without a separator |
| RenderFacts.BlockTransparent | pyhtml.py:205-207 | wrapping the children of a plain tag in a Block with the same `safe` flag leaves the rendered text unchanged |
| RenderFacts.EmptyBlock | pyhtml.py:191-203 | an empty Block renders nothing |
| RenderFacts.AttributesOrderFree | pyhtml.py:330-331 | two dictionaries with the same contents give the same attribute text, whatever their order |
| RenderFacts.AttributesSorted | pyhtml.py:330-344 | pyhtml writes the dictionary's items in ascending key order: for any listing of the same items with sorted keys, the attribute text is that listing written in order |
| RenderFacts.SortedListing | pyhtml.py:331 | `sorted(d.items())` is the only listing of the items of `d` whose keys are in ascending order |
| RenderFacts.TextOnlyTag | pyhtml.py:290-328 | a plain tag with one line of text writes the escaped text on its own line, two spaces deeper than the tag |
| RenderFacts.SingleAttribute | pyhtml.py:344 | one attribute is written as ` key="value"`, without escaping the value |
| RenderFacts.NoAttributes | pyhtml.py:330-344 | no attributes, no attribute text |
| Writer.WriteAttributes | pyhtml.py:330-344 | the loop appends exactly the attribute text: sorted keys, and callable values called with the context; in the package engine (phtml/__init__.py:184-195) dictionary order, with values as they are |
| Writer.WriteText | pyhtml.py:224-231 | appends the text raw in a whitespace-sensitive owner, otherwise each line after the indentation |
| Writer.WriteLeaf | pyhtml.py:208-231 | appends the child's text: a callable is called, text is escaped unless the owner is safe, and a tag class is never escaped |
| Writer.WriteSingle | pyhtml.py:205-231 | appends the rendering of one child; a Block or Tag child writes itself at the same indentation |
| Writer.WriteChildren | pyhtml.py:191-203 | the loop of `Block.__str__` appends exactly the joined rendering of the children |
| Writer.WriteOpenTag | pyhtml.py:294-309 | appends the doctype line if there is one, then the indentation, `<name`, the attributes and `>` |
| Writer.WriteSelfClosing | pyhtml.py:367-382 | appends the indentation, `<name`, the attributes and `/>` |
| Writer.WriteTag | pyhtml.py:290-328 | `Tag.__str__` appends exactly the rendering of the tag, in both engines (the package engine's at phtml/__init__.py:144-182) |
| Writer.WriteNode | pyhtml.py:191-203 | `__str__(out, indent)` appends the rendering of any node, Block or Tag |
| Writer.RenderToString | pyhtml.py:236-237 | `render(**context)` returns the rendering at indentation 0 |
| Blocks.Found | pyhtml.py:247-254 | everything `_find_blocks(name)` returns answers to that name |
| Blocks.FoundSplit | pyhtml.py:249-253 | the search rule at any position: a match contributes itself without being looked into, a Tag that does not match contributes what its children hold, anything else (a Block of another name, text, a callable, a tag class) nothing, and the parts before and after keep their order |
| Blocks.FoundReachable | pyhtml.py:247-254 | a node is in the result exactly when it matches and is reached through Tags that do not match: the search misses nothing it reaches and finds nothing else |
| Blocks.FindBlocks | pyhtml.py:247-254 | the loop returns the matches in order: a match is taken whole, a non-matching Tag is searched, and a non-matching Block is passed over; the package engine (phtml/__init__.py:103-110) searches in the same way |
| Blocks.Fill | pyhtml.py:239-245 | `self[name] = x` on a list of children, in search order, stopping at the first self-closing match; the list keeps its length |
| Blocks.FillIn | pyhtml.py:243-245 | one child: a match takes `(x,)` unless it is self-closing, which raises; a Tag that does not match is filled inside; anything else is kept |
| Blocks.FillFrame | pyhtml.py:243-245 | filling changes nothing but the children of the nodes the search matches, also when a self-closing match stops it |
| Blocks.FillCallsEach | pyhtml.py:239-245 | filling the tree does to the found nodes exactly what calling each in turn does, and fails exactly when one of them is self-closing |
| Blocks.FillNothing | pyhtml.py:243-245 | a name that matches nothing leaves the tree unchanged |
| Blocks.FillIdempotent | pyhtml.py:239-245 | filling the same name with the same value twice gives the same tree as filling it once |
| Elements.Element.Block | pyhtml.py:180-182 | `Block(name)` has that name and no children |
| Elements.Element.FromTag | pyhtml.py:277-280 | an instance with the given kind, attributes and children |
| Elements.Element.Call | pyhtml.py:187-189 | `node(*children)` replaces the children and returns the object itself; a self-closing tag raises and is left as it was |
| Elements.Element.SetItem | pyhtml.py:239-245 | `self[name] = x` fills the found nodes with `(x,)` up to the first self-closing one, which raises; nothing else in the tree changes, and attributes and `safe` are unchanged; the package engine's `__setitem__` (phtml/__init__.py:95-101) behaves the same way |
| Elements.Element.Copy | pyhtml.py:233-234 | `copy()` gives a new object holding the same tree |
| Elements.Element.Render | pyhtml.py:236-237 | `render(**context)` returns the rendering of the object's tree |
| Elements.NewTag | pyhtml.py:272-280 | building an instance succeeds or fails exactly as `Html.NewTag` says, and gives a new object holding that tree |
| Elements.FillCopy | pyhtml.py:233-245 | filling a copy leaves the original's rendering unchanged |
| Kinds.Simple | pyhtml.py:389-463 | a class with an empty body has its own name, its base's flavour, no doctype and no default attributes |
| Kinds.PyHtmlKindsSpecial | pyhtml.py:466-479 | of all pyhtml classes only `html` has a doctype, and only `script`, `style` and `form` have default attributes |
| Kinds.Registered | phtml/__init__.py:259-269 | `register(names, cls)` binds exactly the given names, each to a class made by `create_tag` |
| Kinds.Package.Register | phtml/__init__.py:259-265 | the loop appends the names to `__all__` in order and binds each in the namespace |
| Kinds.Package.constructor | phtml/__init__.py:240-278 | after the module body, `__all__` lists `Block`, `Tag`, the three name lists in order, then `html`, and the namespace holds those classes |
| Kinds.NamespaceAt | phtml/__init__.py:270-272 | a name other than `html` is bound exactly when one of the three lists holds it, to the class of the last `register` call whose list holds it |
| Kinds.PackageLookups | phtml/__init__.py:271-278 | `hr` is self-closing, `pre` is whitespace-sensitive, and `html` is the class with the doctype |
| Legacy.WriteRenderTag | phtml.py:39-58 | the buffer writes of `render_tag` give `<name`, the attributes in order, then `>content</name>` for any string content (`''` included) or `/>` for `None` |
| Legacy.RenderTagInjective | phtml.py:50-57 | `render_tag` keeps `None` and `''` apart, and keeps different contents apart |
| Legacy.Init | phtml.py:75-91 | `Tag.__init__` fails its assertion exactly for content and attributes given together; otherwise content is the tuple, `None` with attributes only, or `''` with neither |
| Legacy.CallElement | phtml.py:93-99 | `t(*content)` sets `''` for an empty call and the tuple otherwise, and keeps the name and attributes |
| Legacy.InitLayout | phtml.py:75-99 | a tag built with attributes only closes itself; the same tag called with no arguments has separate opening and closing tags |
| Legacy.ClassLayout | phtml.py:61-67 | `str` of a tag class is `<name/>` |
| Legacy.BlockContentOnly | phtml.py:171-180 | a Block renders only its content, whatever `content_only` says, and empty content renders as `''` |
| Legacy.ItemsEscaped | phtml.py:129-144 | string and callable items come out with no raw `<`, `>`, `"` or `'` |
| Legacy.RenderTag | phtml.py:39-58 | `render_tag`: `<name`, each attribute as ` key="value"` in order, then `/>` for `None` or `>content</name>` |
| Legacy.RenderedContent | phtml.py:111-118 | `rendered_content`: `''` for content `''`, the rendered items added together for a non-empty tuple, `None` otherwise |
| Legacy.RenderItems | phtml.py:113-116 | `reduce(operator.add, map(_render_single, content))`: the items rendered in order and concatenated |
| Legacy.RenderSingle | phtml.py:129-144 | `_render_single`: an instance is rendered, a tag class is `<name/>`, a callable is called with the context and escaped, any other object is escaped |
| Legacy.Render | phtml.py:104-124 | `Tag.__str__`: with `content_only` the rendered content or `''`, otherwise `render_tag` of the name, rendered content and attributes; a Block (phtml.py:179-180) always renders only its content |
| Legacy.Found | phtml.py:157-164 | everything `_find_blocks` returns is a Block of that name |
| Legacy.FoundAbsent | phtml.py:157-164 | the search raises exactly when it reaches a `None` content, its own or that of a Tag or Block it goes into, and then raises `TypeError` |
| Legacy.FoundReaches | phtml.py:157-164 | a successful search returns a Block exactly when it is a Block of that name reached through Tags and through Blocks of other names: nothing reached is missed and nothing else is returned |
| Legacy.FoundItemsAppend | phtml.py:159-163 | searching two runs of items in turn: the first failure is the result, otherwise the finds of the first run come before those of the second |
| Legacy.FoundItemsSplit | phtml.py:159-163 | the search rule at any position of a successful search: a Block of that name contributes itself without being looked into, any other Tag or Block what it holds, anything else nothing, with the finds before and after in order |
| Legacy.FillTree | phtml.py:149-155 | the tree after each Block found has been called with `(x,)`; the element's name, kind and attributes are kept |
| Legacy.FillTreeFrame | phtml.py:149-155 | filling changes nothing but the content of the Blocks the search finds |
| Legacy.SetBlocks | phtml.py:149-155 | `self[name] = x` raises `TypeError` exactly when the search reaches a `None` content; otherwise the Blocks found now hold `(x,)` and nothing else in the tree has changed |
| Legacy.FillFound | phtml.py:149-164 | after filling, the search for that name finds the same Blocks, each now holding `(x,)` |
| Legacy.FillNothing | phtml.py:149-164 | a name that matches nothing leaves the tree unchanged |
| Legacy.Instance.Call | phtml.py:93-99 | the object's content becomes that of `CallElement`, and the call returns the object itself |
| Legacy.Instance.SetItem | phtml.py:149-155 | a `TypeError` from the search leaves the object unchanged; otherwise the object holds the filled tree |
| Legacy.Instance.Copy | phtml.py:126-127 | `copy()` gives a new object with the same tree |
| Legacy.Module.constructor | phtml.py:184-203 | after the module body, `__all__` is `render_tag`, `Tag`, `Block`, then every tag name in order, and each name is bound to a class |
| Scenarios.FormDefault | pyhtml.py:478-479 | `str(form())` is `<form method="POST"></form>` |
| Scenarios.HtmlDoctype | pyhtml.py:466-467 | `str(html())` is the doctype line followed by `<html></html>` |
| Scenarios.EscapedContent | pyhtml.py:220-229 | `str(div('<script>'))` is `<div>`, a newline, `  &lt;script&gt;`, a newline and `</div>` |
| Scenarios.HrNotCallable | pyhtml.py:357-365 | `hr()` can be built, but not with children, and calling it raises |
| Scenarios.SameNameFilledTwice | pyhtml.py:239-254 | both Blocks named `foo` inside a `div` are filled |
| Scenarios.OverrideReplacesOuterBlock | pyhtml.py:247-254 | refilling `main` after it was filled with `div('foo', Block('main'))` replaces the `div`: the outer Block is found first and is not searched |
| Scenarios.BlockInBlockNotFound | pyhtml.py:250-253 | a Block inside a Block of another name is not found |
| Scenarios.RenderTagExamples | tests.py:10-11 | `render_tag('a')` is `<a/>` and `render_tag('a', '1')` is `<a>1</a>` |
| Scenarios.RenderTagAttributeExamples | tests.py:12-14 | with the attribute `b="2"`, content `None`, `''` and `'c'` give `<a b="2"/>`, `<a b="2"></a>` and `<a b="2">c</a>` |
| Scenarios.LegacyHtml | phtml.py:61-67 | in `phtml.py`, the class `html` renders as `<html/>`, and `html(lang='tr')` as `<html lang="tr"/>` |
| Scenarios.LegacyEmptyString | tests.py:20 | `str(html(''))` is `<html></html>` |

## Where the code and the tests disagree

The model follows the code in each case below.

- **Block search.** In `pyhtml.py` and `phtml/__init__.py`, `_find_blocks`
  searches only Tags that do not match. It never searches a Block that does
  not match, although the docstring of `__setitem__` (`pyhtml.py:240-241`)
  promises a recursive fill. `phtml.py` searches every Tag and Block, because there a
  Block is a Tag. The tests at `test_pyhtml.py:133-140` and
  `test_pyhtml.py:162-170` expect the deeper search.
- **Tag names as block names.** A Tag counts as a Block, so the name lookup
  also matches a tag instance whose class name is the block name. Filling
  `div` replaces the children of every `div` found.
- **Attribute values** are written unescaped in all three engines.
- **Error types.**
  - Children given to a self-closing class raise Python's `TypeError`
    (`SelfClosingTag.__init__` has no positional parameters).
  - Calling a self-closing instance raises a plain `Exception`; the model
    calls this error `SelfClosingCall`.
  - Children and attributes given together fail the `assert`.
- **Test expectations.** `test_pyhtml.py` uses features the engine does not
  have. (Its `assertEqual` removes spaces and newlines before comparing,
  `test_pyhtml.py:13-22`; the layout tests at `test_pyhtml.py:300-368`
  compare exactly and expect the indented layout the code writes.)
  - Features absent from the engine: `Safe`, `Var`, `_safe`, `data_` and
    `aria_` keys written with a dash, a `.blocks` property, `input_`, and
    `repr` with arguments.
- **`str(html)` in `phtml.py`.** The class `html` comes out as `<html/>`,
  because the metaclass calls `render_tag` with no content.
  `tests.py:18` expects `<html></html>`.

## Left out

- Writer.RenderToString, Elements.Element.Render, Rendering.Render: in the
  source a context key `out`, `indent` or `self` binds a parameter of
  `render` or `__str__` instead of reaching the callables (pyhtml.py:191,
  236-237, 290; phtml/__init__.py:92-93, 144), and with a string value it
  raises `TypeError` or `AttributeError`; in `phtml.py` a key `content_only`
  selects the content-only rendering (phtml.py:104). The model passes every
  key to the callables and does not model these four keys.
- `__repr__` of Block, Tag and the classes: debugging text only.
- Unicode: `unicode` values are encoded to UTF-8 before writing. The model
  works on `string` values and has no encoding step.
- Types of children and attribute values: Python's `str()` of an arbitrary
  object (a number, say) is taken as already given. This is the `text` of a
  `Lit` or `Str` item, or the `shown` text of an attribute value.
- Callable children: the model's callable returns a string, so it covers
  callables that return text. Callables that return nodes, lists or
  generators are not modelled, and neither is a callable attribute value in
  `phtml/__init__.py` beyond the text it prints.
- `phtml.py`'s `dotdict` context wrapper: a callable receives the context map
  itself.
- Sharing: one Python object reachable from two places, or from two trees, is
  not modelled. Trees below the root object are values, and `copy()` is deep,
  so within one tree a fill acts on every occurrence, as Python's fill of
  distinct objects does.
- The `StringIO` buffer is modelled by `Output.Buffer`, which has only the
  `write` calls the engines make.
- The tag-name strings that `phtml/__init__.py` and `phtml.py` split with
  `str.split()` are given as the resulting lists.
- `setattr` on the Python module object is modelled as a map field, and
  `type(name, bases, dict)` as a `Kind` value.
- Distinctness of the class names in each list is not proved: such a lemma
  over the literal lists (`Kinds.PlainNames` and `Kinds.PackageTagNames` with
  59 names each, `Legacy.TagNames` with 69) is too expensive to check.
- `bench.py` and `setup.py` are not part of this model.
