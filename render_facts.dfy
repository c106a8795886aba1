/** Properties of the rendering of `pyhtml.py` and `phtml/__init__.py`:
    the exact tag layout, separators between children, escaping of text,
    transparency of Blocks and the attribute order. */
module RenderFacts {
  import opened Strings
  import opened Escaping
  import opened Ordering
  import opened Outcomes
  import opened Html
  import opened Rendering

  /** The text each child renders to, at the same indentation. */
  function RenderedEach(v: Variant, ws: bool, safe: bool, cs: seq<Child>, indent: nat, ctx: Context): (r: seq<string>)
    ensures |r| == |cs|
    ensures forall i :: 0 <= i < |r| ==> r[i] == RenderChild(v, ws, safe, cs[i], indent, ctx)
  {
    if cs == [] then [] else [RenderChild(v, ws, safe, cs[0], indent, ctx)] + RenderedEach(v, ws, safe, cs[1..], indent, ctx)
  }

  /** Children are written in order, joined by exactly one `\n`, with none
      after the last; a whitespace-sensitive owner writes no separator. */
  lemma {:induction false} ChildrenJoined(v: Variant, ws: bool, safe: bool, cs: seq<Child>, indent: nat, ctx: Context)
    ensures RenderChildren(v, ws, safe, cs, indent, ctx)
      == if ws then Concat(RenderedEach(v, ws, safe, cs, indent, ctx))
         else Join(RenderedEach(v, ws, safe, cs, indent, ctx), "\n")
  {
    if cs != [] {
      var e := RenderedEach(v, ws, safe, cs, indent, ctx);
      var rest := RenderChildren(v, ws, safe, cs[1..], indent, ctx);
      ChildrenJoined(v, ws, safe, cs[1..], indent, ctx);
      assert e[1..] == RenderedEach(v, ws, safe, cs[1..], indent, ctx);
      assert cs[0..] == cs;
      ChildrenStep(v, ws, safe, cs, 0, indent, ctx);
      JoinedStep(ws, e, rest, RenderChildren(v, ws, safe, cs, indent, ctx));
    }
  }

  /** One step of `Concat` and of `Join` with `\n`. */
  lemma JoinedStep(ws: bool, e: seq<string>, rest: string, whole: string)
    requires |e| >= 1
    requires rest == if ws then Concat(e[1..]) else Join(e[1..], "\n")
    requires whole == e[0] + (if ws || |e| == 1 then "" else "\n") + rest
    ensures whole == if ws then Concat(e) else Join(e, "\n")
  {
    if ws {
      assert Concat(e) == e[0] + Concat(e[1..]);
      assert e[0] + "" == e[0];
    } else if |e| == 1 {
      assert e[1..] == [];
      assert Join(e, "\n") == e[0];
      assert e[0] + "" + "" == e[0];
    } else {
      assert Join(e, "\n") == e[0] + "\n" + Join(e[1..], "\n");
    }
  }

  /** A tag without children writes `<name attrs></name>`. */
  lemma EmptyTagLayout(v: Variant, n: Node, indent: nat, ctx: Context)
    requires n.Tag? && n.kind.flavour != SelfClosing && n.children == []
    ensures RenderNode(v, n, indent, ctx) == OpenTag(v, n.kind, n.attributes, indent, ctx) + CloseTag(n.kind)
  {
  }

  /** A tag with children writes `>`, a newline, the children at `indent + 2`
      joined by newlines, a newline, the indentation and the closing tag; a
      whitespace-sensitive one writes its children next to each other with
      nothing added. */
  lemma TagLayout(v: Variant, n: Node, indent: nat, ctx: Context)
    requires n.Tag? && n.kind.flavour != SelfClosing && n.children != []
    ensures var ws := n.IsWhitespaceSensitive();
            var each := RenderedEach(v, ws, n.safe, n.children, indent + IndentSize, ctx);
            (RenderNode(v, n, indent, ctx)
             == OpenTag(v, n.kind, n.attributes, indent, ctx)
                + Enclosed(ws, if ws then Concat(each) else Join(each, "\n"), indent)
                + CloseTag(n.kind))
  {
    ChildrenJoined(v, n.IsWhitespaceSensitive(), n.safe, n.children, indent + IndentSize, ctx);
  }

  /** A self-closing tag writes `indent + "<name" + attrs + "/>"`, whatever its children. */
  lemma SelfClosingLayout(v: Variant, n: Node, indent: nat, ctx: Context)
    requires n.IsSelfClosing()
    ensures RenderNode(v, n, indent, ctx) == Spaces(indent) + "<" + n.kind.name + AttributesText(v, n.attributes, ctx) + "/>"
    ensures RenderNode(v, n, indent, ctx) == RenderNode(v, n.(children := []), indent, ctx)
  {
  }

  lemma {:induction false} ConcatChars(ss: seq<string>, c: char)
    requires c in Concat(ss)
    ensures exists i :: 0 <= i < |ss| && c in ss[i]
  {
    if ss != [] {
      if c !in ss[0] {
        ConcatChars(ss[1..], c);
        var i :| 0 <= i < |ss[1..]| && c in ss[1..][i];
        assert c in ss[i + 1];
      }
    }
  }

  lemma ConcatHasChar(ss: seq<string>, i: nat, c: char)
    requires i < |ss| && c in ss[i]
    ensures c in Concat(ss)
  {
    ConcatAppend(ss[..i], ss[i..]);
    assert ss == ss[..i] + ss[i..];
    assert ss[i..] == [ss[i]] + ss[i + 1..];
    ConcatAppend([ss[i]], ss[i + 1..]);
  }

  /** Writing a text adds nothing but indentation spaces. */
  lemma EmitChars(ws: bool, s: string, indent: nat, c: char)
    requires c in Emit(ws, s, indent)
    ensures c in s || c == ' '
  {
    if !ws {
      var lines := SplitLines(s);
      var ind := Indented(lines, indent);
      ConcatChars(ind, c);
      var i :| 0 <= i < |ind| && c in ind[i];
      if c != ' ' {
        assert c in lines[i];
        ConcatHasChar(lines, i, c);
        SplitLinesConcat(s);
      }
    }
  }

  /** Text and callable results under an owner that is not `safe` come out
      escaped: no raw `<`, `>`, `"` or `'` is written for them. */
  lemma LeafEscaped(v: Variant, ws: bool, c: Child, indent: nat, ctx: Context)
    requires c.Lit? || c.Call?
    ensures var r := RenderChild(v, ws, false, c, indent, ctx);
            '<' !in r && '>' !in r && '"' !in r && '\'' !in r
  {
    var s := if c.Lit? then c.text else c.produce(ctx);
    EscapedHasNoMarkup(s, true);
    var r := RenderChild(v, ws, false, c, indent, ctx);
    assert r == Emit(ws, Escaped(s, true), indent);
    forall x | x in ['<', '>', '"', '\''] ensures x !in r {
      if x in r {
        EmitChars(ws, Escaped(s, true), indent, x);
      }
    }
  }

  /** At indentation 0 a text is written exactly as it is. */
  lemma EmitUnindented(ws: bool, s: string)
    ensures Emit(ws, s, 0) == s
  {
    if !ws {
      var lines := SplitLines(s);
      assert Spaces(0) == "";
      assert forall i :: 0 <= i < |lines| ==> Indented(lines, 0)[i] == lines[i];
      assert Indented(lines, 0) == lines;
      SplitLinesConcat(s);
    }
  }

  /** A one-line text is written after the indentation. */
  lemma EmitOneLine(s: string, indent: nat)
    requires s != "" && NoBreak(s)
    ensures Emit(false, s, indent) == Spaces(indent) + s
  {
    SplitLinesSingle(s);
    assert Indented([s], indent) == [Spaces(indent) + s];
    assert Concat([Spaces(indent) + s]) == Spaces(indent) + s + Concat([]);
  }

  /** A single child is written with no separator. */
  lemma SingleChild(v: Variant, ws: bool, safe: bool, c: Child, indent: nat, ctx: Context)
    ensures RenderChildren(v, ws, safe, [c], indent, ctx) == RenderChild(v, ws, safe, c, indent, ctx)
  {
    assert [c][1..] == [];
  }

  /** A Block renders only its children, at the caller's indentation, with
      no enclosing tag: wrapping a tag's non-empty children in a Block of the
      same `safe` flag changes nothing, unless the tag is whitespace-sensitive
      (a Block always separates and indents its own children). */
  lemma BlockTransparent(v: Variant, k: Kind, a: Attrs, name: string, cs: seq<Child>, safe: bool, indent: nat, ctx: Context)
    requires k.flavour == Normal && cs != []
    ensures RenderNode(v, Tag(k, a, [Sub(Block(name, cs, safe))], safe), indent, ctx)
         == RenderNode(v, Tag(k, a, cs, safe), indent, ctx)
  {
    var inner := [Sub(Block(name, cs, safe))];
    var body := RenderChildren(v, false, safe, cs, indent + IndentSize, ctx);
    SingleChild(v, false, safe, inner[0], indent + IndentSize, ctx);
    assert RenderChild(v, false, safe, inner[0], indent + IndentSize, ctx) == body;
    assert RenderChildren(v, false, safe, inner, indent + IndentSize, ctx) == body;
    assert TagBody(v, false, safe, inner, indent, ctx) == TagBody(v, false, safe, cs, indent, ctx);
  }

  /** An empty Block renders nothing. */
  lemma EmptyBlock(v: Variant, name: string, safe: bool, indent: nat, ctx: Context)
    ensures RenderNode(v, Block(name, [], safe), indent, ctx) == ""
  {
  }

  /** In `pyhtml.py` the attribute text does not depend on the order in
      which the dictionary holds its keys. */
  lemma AttributesOrderFree(a: Attrs, b: Attrs, ctx: Context)
    requires multiset(Keys(a)) == multiset(Keys(b))
    requires forall k :: Lookup(a, k) == Lookup(b, k)
    ensures AttributesText(PyHtml, a, ctx) == AttributesText(PyHtml, b, ctx)
  {
    SortedAttrsDetermined(a, b);
  }

  /** `sorted(d.items())` depends only on the contents of `d`. */
  lemma SortedAttrsDetermined(a: Attrs, b: Attrs)
    requires multiset(Keys(a)) == multiset(Keys(b))
    requires forall k :: Lookup(a, k) == Lookup(b, k)
    ensures SortedAttrs(a) == SortedAttrs(b)
  {
    SortPermutationInvariant(Keys(a), Keys(b));
    PairedAgree(Sort(Keys(a)), a, b);
  }

  lemma {:induction false} PairedAgree(ks: seq<string>, a: Attrs, b: Attrs)
    requires forall k :: Lookup(a, k) == Lookup(b, k)
    ensures Paired(ks, a) == Paired(ks, b)
  {
    if ks != [] {
      assert Lookup(a, ks[0]) == Lookup(b, ks[0]);
      PairedAgree(ks[1..], a, b);
    }
  }

  /** The opening of a tag with no doctype. */
  lemma OpenNoDoctype(v: Variant, k: Kind, a: Attrs, indent: nat, ctx: Context)
    requires k.doctype == ""
    ensures OpenTag(v, k, a, indent, ctx) == Spaces(indent) + "<" + k.name + AttributesText(v, a, ctx) + ">"
  {
    var d := DoctypeLine(k.doctype, indent);
    assert d == "";
    EmptyLeft(Spaces(indent));
    assert d + Spaces(indent) == Spaces(indent);
  }

  /** The opening of a tag with no doctype and no attributes. */
  lemma PlainOpen(v: Variant, k: Kind, indent: nat, ctx: Context)
    requires k.doctype == ""
    ensures OpenTag(v, k, [], indent, ctx) == Spaces(indent) + "<" + k.name + ">"
  {
    NoAttributes(v, ctx);
    assert OpenTag(v, k, [], indent, ctx) == "" + Spaces(indent) + "<" + k.name + "" + ">";
  }

  /** One line of text as the only child of a plain tag: a line of its own,
      indented one step further. */
  lemma TextOnlyBody(v: Variant, s: string, indent: nat, ctx: Context)
    requires Escaped(s, true) != "" && NoBreak(Escaped(s, true))
    ensures TagBody(v, false, false, [Lit(s)], indent, ctx)
         == "\n" + (Spaces(indent + IndentSize) + Escaped(s, true)) + "\n" + Spaces(indent)
  {
    EmitOneLine(Escaped(s, true), indent + IndentSize);
    SingleChild(v, false, false, Lit(s), indent + IndentSize, ctx);
  }

  /** A plain tag whose one child is a line of text writes the text,
      escaped, on a line of its own, indented one step further than the tag. */
  lemma TextOnlyTag(v: Variant, k: Kind, s: string, indent: nat, ctx: Context)
    requires k.flavour == Normal && k.doctype == ""
    requires Escaped(s, true) != "" && NoBreak(Escaped(s, true))
    ensures RenderNode(v, Tag(k, [], [Lit(s)], false), indent, ctx)
         == Spaces(indent) + "<" + k.name + ">" + "\n" + Spaces(indent + IndentSize) + Escaped(s, true)
            + "\n" + Spaces(indent) + "</" + k.name + ">"
  {
    PlainOpen(v, k, indent, ctx);
    TextOnlyBody(v, s, indent, ctx);
    TagLines(Spaces(indent), k.name, Spaces(indent + IndentSize), Escaped(s, true));
  }

  /** The pieces of a tag around one indented line, regrouped. */
  lemma TagLines(sp: string, name: string, sp2: string, e: string)
    ensures (sp + "<" + name + ">") + ("\n" + (sp2 + e) + "\n" + sp) + ("</" + name + ">")
         == sp + "<" + name + ">" + "\n" + sp2 + e + "\n" + sp + "</" + name + ">"
  {
    var o := sp + "<" + name + ">";
    AppendAssoc(o, "\n" + (sp2 + e) + "\n", sp);
    AppendAssoc(o, "\n" + (sp2 + e), "\n");
    AppendAssoc(o, "\n", sp2 + e);
    AppendAssoc(o + "\n", sp2, e);
    var x := o + "\n" + sp2 + e + "\n" + sp;
    AppendAssoc(x, "</" + name, ">");
    AppendAssoc(x, "</", name);
  }

  /** A tag with one attribute writes ` key="value"`, in either engine. */
  lemma SingleAttribute(v: Variant, k: string, s: string, ctx: Context)
    ensures AttributesText(v, [(k, Fixed(s))], ctx) == " " + AttributeName(k) + "=\"" + s + "\""
  {
    var a := [(k, Fixed(s))];
    assert Keys(a) == [k];
    var ks := Sort([k]);
    assert ks[0] in multiset(ks);
    assert ks == [k];
    assert Lookup(a, k) == Some(Fixed(s));
    var r := SortedAttrs(a);
    assert r[0] == a[0];
    assert r == a;
    assert a[1..] == [];
    assert AttrsInOrder(v, a, ctx) == " " + AttributeName(k) + "=\"" + s + "\"" + "";
  }

  /** A tag without attributes writes no attribute text. */
  lemma NoAttributes(v: Variant, ctx: Context)
    ensures AttributesText(v, [], ctx) == ""
  {
    assert Keys([]) == [];
  }

  /** `pyhtml.py` writes the items of the dictionary in ascending key order:
      its attribute text is that of any listing of the same items whose keys
      are sorted. */
  lemma AttributesSorted(a: Attrs, b: Attrs, ctx: Context)
    requires DistinctKeys(a)
    requires Sorted(Keys(b))
    requires multiset(Keys(b)) == multiset(Keys(a))
    requires forall k :: Lookup(b, k) == Lookup(a, k)
    ensures AttributesText(PyHtml, a, ctx) == AttrsInOrder(PyHtml, b, ctx)
  {
    SortedListing(a, b);
  }

  lemma SortedListing(a: Attrs, b: Attrs)
    requires DistinctKeys(a)
    requires Sorted(Keys(b))
    requires multiset(Keys(b)) == multiset(Keys(a))
    requires forall k :: Lookup(b, k) == Lookup(a, k)
    ensures SortedAttrs(a) == b
  {
    ListingDistinct(a, b);
    var r := SortedAttrs(a);
    SortedUnique(Keys(r), Keys(b));
    forall i | 0 <= i < |b| ensures r[i] == b[i] {
      assert Keys(r)[i] == Keys(b)[i];
      LookupAt(b, i);
    }
  }

  /** A listing of the items of a dictionary has distinct keys. */
  lemma ListingDistinct(a: Attrs, b: Attrs)
    requires DistinctKeys(a)
    requires multiset(Keys(b)) == multiset(Keys(a))
    ensures DistinctKeys(b)
  {
    forall k ensures multiset(Keys(b))[k] <= 1 {
      DistinctOnce(a, k);
    }
    OnceDistinct(b);
  }
}
