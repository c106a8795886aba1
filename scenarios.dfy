/** Worked examples: the trees the test files build, and what the model
    says they render to or become. */
module Scenarios {
  import opened Strings
  import opened Escaping
  import opened Ordering
  import opened Outcomes
  import opened Html
  import opened Rendering
  import opened RenderFacts
  import opened Blocks
  import opened Kinds
  import Legacy

  const Empty: Context := map[]

  function Div(): Kind { Simple("div", Normal) }

  lemma FormOpenText()
    ensures "" + "<" + "form" + " method=\"POST\"" + ">" == "<form method=\"POST\">"
    ensures "<form method=\"POST\">" + "</form>" == "<form method=\"POST\"></form>"
  {
  }

  lemma MethodText()
    ensures AttributeName("method") == "method"
    ensures " " + "method" + "=\"" + "POST" + "\"" == " method=\"POST\""
  {
  }

  lemma MethodAttribute()
    ensures AttributesText(PyHtml, [("method", Fixed("POST"))], Empty) == " method=\"POST\""
  {
    SingleAttribute(PyHtml, "method", "POST", Empty);
    MethodText();
  }

  lemma FormOpen()
    ensures OpenTag(PyHtml, FormKind, [("method", Fixed("POST"))], 0, Empty) == "<form method=\"POST\">"
  {
    OpenNoDoctype(PyHtml, FormKind, [("method", Fixed("POST"))], 0, Empty);
    MethodAttribute();
    assert Spaces(0) == "";
    FormOpenText();
  }

  lemma FormInstance()
    ensures NewTag(PyHtml, FormKind, [], []) == Ok(Tag(FormKind, [("method", Fixed("POST"))], [], false))
  {
  }

  /** `str(form())` is `<form method="POST"></form>`: the class default attribute. */
  lemma FormDefault()
    ensures NewTag(PyHtml, FormKind, [], []).Ok?
    ensures Render(PyHtml, NewTag(PyHtml, FormKind, [], []).value, Empty) == "<form method=\"POST\"></form>"
  {
    FormInstance();
    var t := Tag(FormKind, [("method", Fixed("POST"))], [], false);
    EmptyTagLayout(PyHtml, t, 0, Empty);
    FormOpen();
    FormClose();
    FormOpenText();
  }

  lemma FormClose()
    ensures CloseTag(FormKind) == "</form>"
  {
  }

  /** `str(html())` starts with the doctype line. */
  lemma HtmlDoctype()
    ensures NewTag(PyHtml, HtmlKind, [], []).Ok?
    ensures Render(PyHtml, NewTag(PyHtml, HtmlKind, [], []).value, Empty) == "<!DOCTYPE html>\n<html></html>"
  {
    var t := NewTag(PyHtml, HtmlKind, [], []).value;
    NoAttributes(PyHtml, Empty);
    assert DoctypeLine(Doctype, 0) == "<!DOCTYPE html>\n";
    assert OpenTag(PyHtml, HtmlKind, t.attributes, 0, Empty) == "<!DOCTYPE html>\n<html>";
  }

  /** The opening of a tag with no doctype, no indentation and no attributes. */
  lemma PlainOpenTag(v: Variant, k: Kind, ctx: Context)
    requires k.doctype == ""
    ensures OpenTag(v, k, [], 0, ctx) == "<" + k.name + ">"
  {
    PlainOpen(v, k, 0, ctx);
    assert Spaces(0) == "";
  }

  lemma ScriptPieces()
    ensures "<script>" == "<" + "script" + ">"
    ensures "&lt;" + "script" + "&gt;" == "&lt;script&gt;"
  {
  }

  lemma EscapedWord()
    ensures Escaped("script", true) == "script"
  {
    EscapedPlain("script", true);
  }

  lemma EscapedBrackets()
    ensures Escaped("<", true) == "&lt;" && Escaped(">", true) == "&gt;"
  {
  }

  lemma EscapedScript()
    ensures Escaped("<script>", true) == "&lt;script&gt;"
  {
    ScriptPieces();
    EscapedAppend("<" + "script", ">", true);
    EscapedAppend("<", "script", true);
    EscapedWord();
    EscapedBrackets();
  }

  lemma DivScriptText()
    ensures "" + "<" + "div" + ">" + "\n" + "  " + "&lt;script&gt;" + "\n" + "" + "</" + "div" + ">"
         == "<div>\n  &lt;script&gt;\n</div>"
  {
  }

  lemma ScriptLayoutFacts()
    ensures NoBreak("&lt;script&gt;") && "&lt;script&gt;" != ""
    ensures Spaces(0) == "" && Spaces(2) == "  "
  {
  }

  /** `str(div('<script>'))` escapes the text and indents it on its own line. */
  lemma EscapedContent()
    ensures Render(PyHtml, Tag(Div(), [], [Lit("<script>")], false), Empty) == "<div>\n  &lt;script&gt;\n</div>"
  {
    EscapedScript();
    ScriptLayoutFacts();
    TextOnlyTag(PyHtml, Div(), "<script>", 0, Empty);
    DivScriptText();
  }

  /** `hr()` cannot be called with children. */
  lemma HrNotCallable()
    ensures NewTag(PyHtml, Simple("hr", SelfClosing), [], []).Ok?
    ensures CallNode(NewTag(PyHtml, Simple("hr", SelfClosing), [], []).value, [Lit("x")]) == Err(SelfClosingCall)
    ensures NewTag(PyHtml, Simple("hr", SelfClosing), [Lit("x")], []) == Err(TypeError)
  {
  }

  /** `Fill` on a list that starts with `c`, one step unfolded. */
  lemma FillCons(c: Child, cs: seq<Child>, name: string, x: Child)
    ensures var (c', ok) := FillIn(c, name, x);
            Fill([c] + cs, name, x) == if ok then ([c'] + Fill(cs, name, x).0, Fill(cs, name, x).1) else ([c'] + cs, false)
  {
    assert ([c] + cs)[0] == c && ([c] + cs)[1..] == cs;
  }

  /** `div(Block('foo'), Block('foo'))['foo'] = 'bar'` fills both Blocks. */
  lemma SameNameFilledTwice()
    ensures Fill([Sub(Block("foo", [], false)), Sub(Block("foo", [], false))], "foo", Lit("bar"))
         == ([Sub(Block("foo", [Lit("bar")], false)), Sub(Block("foo", [Lit("bar")], false))], true)
  {
    var b := Sub(Block("foo", [], false));
    var b' := Sub(Block("foo", [Lit("bar")], false));
    assert FillIn(b, "foo", Lit("bar")) == (b', true);
    FillCons(b, [], "foo", Lit("bar"));
    assert [b] + [] == [b] && [b'] + [] == [b'];
    FillCons(b, [b], "foo", Lit("bar"));
    assert [b] + [b] == [b, b] && [b'] + [b'] == [b', b'];
  }

  /** `html(body(Block('main')))`, filled with `div('foo', Block('main'))` and
      then with `'bar'`: the second fill finds the outer Block, which is not
      searched, so the `div` is replaced, and the text written is
      `bar` inside `body`, not `<div>foobar</div>`. */
  lemma OverrideReplacesOuterBlock()
    ensures var body := Simple("body", Normal);
            var inner := Sub(Tag(Div(), [], [Lit("foo"), Sub(Block("main", [], false))], false));
            var t := [Sub(Tag(body, [], [Sub(Block("main", [], false))], false))];
            var once := Fill(t, "main", inner).0;
            Fill(once, "main", Lit("bar")) == ([Sub(Tag(body, [], [Sub(Block("main", [Lit("bar")], false))], false))], true)
  {
    var body := Simple("body", Normal);
    var inner := Sub(Tag(Div(), [], [Lit("foo"), Sub(Block("main", [], false))], false));
    var m := Sub(Block("main", [], false));
    var m1 := Sub(Block("main", [inner], false));
    var m2 := Sub(Block("main", [Lit("bar")], false));
    var b0 := Sub(Tag(body, [], [m], false));
    var b1 := Sub(Tag(body, [], [m1], false));
    var b2 := Sub(Tag(body, [], [m2], false));
    assert [m] + [] == [m] && [m1] + [] == [m1] && [m2] + [] == [m2];
    assert [b0] + [] == [b0] && [b1] + [] == [b1] && [b2] + [] == [b2];
    assert FillIn(m, "main", inner) == (m1, true);
    FillCons(m, [], "main", inner);
    assert FillIn(b0, "main", inner) == (b1, true);
    FillCons(b0, [], "main", inner);
    assert FillIn(m1, "main", Lit("bar")) == (m2, true);
    FillCons(m1, [], "main", Lit("bar"));
    assert FillIn(b1, "main", Lit("bar")) == (b2, true);
    FillCons(b1, [], "main", Lit("bar"));
  }

  /** A Block inside a filled Block is not found: `_find_blocks` does not
      search a Block that does not match. */
  lemma BlockInBlockNotFound()
    ensures Found([Sub(Block("main", [Sub(Block("title", [], false))], false))], "title") == []
  {
  }

  /** `render_tag` as `tests.py` calls it without attributes. */
  lemma RenderTagExamples()
    ensures Legacy.RenderTag("a", None, []) == "<a/>"
    ensures Legacy.RenderTag("a", Some("1"), []) == "<a>1</a>"
  {
  }

  lemma AttributeB()
    ensures Legacy.AttrText([("b", "2")]) == " b=\"2\""
  {
    assert AttributeName("b") == "b";
  }

  /** `render_tag` as `tests.py` calls it with the attribute `b="2"`. */
  lemma RenderTagAttributeExamples()
    ensures Legacy.RenderTag("a", None, [("b", "2")]) == "<a b=\"2\"/>"
    ensures Legacy.RenderTag("a", Some(""), [("b", "2")]) == "<a b=\"2\"></a>"
    ensures Legacy.RenderTag("a", Some("c"), [("b", "2")]) == "<a b=\"2\">c</a>"
  {
    AttributeB();
    AttributeBText();
  }

  lemma AttributeBText()
    ensures "<" + "a" + " b=\"2\"" + "/>" == "<a b=\"2\"/>"
    ensures "<" + "a" + " b=\"2\"" + (">" + "" + "</" + "a" + ">") == "<a b=\"2\"></a>"
    ensures "<" + "a" + " b=\"2\"" + (">" + "c" + "</" + "a" + ">") == "<a b=\"2\">c</a>"
  {
  }

  /** In `phtml.py`, `str(html)` of the class is `<html/>`, and an instance
      built with attributes only closes itself. */
  lemma LegacyHtml()
    ensures Legacy.RenderSingle(Legacy.Class("html"), Empty) == "<html/>"
    ensures Legacy.Init("html", [], [("lang", "tr")]).Ok?
    ensures Legacy.Render(Legacy.Init("html", [], [("lang", "tr")]).value, false, Empty) == "<html lang=\"tr\"/>"
  {
    LangAttribute();
    assert Legacy.Init("html", [], [("lang", "tr")]).value == Legacy.Tag("html", Legacy.Absent, [("lang", "tr")]);
    LegacyHtmlText();
  }

  lemma LangAttribute()
    ensures Legacy.AttrText([("lang", "tr")]) == " lang=\"tr\""
  {
    assert AttributeName("lang") == "lang";
  }

  lemma LegacyHtmlText()
    ensures "<" + "html" + "" + "/>" == "<html/>"
    ensures "<" + "html" + " lang=\"tr\"" + "/>" == "<html lang=\"tr\"/>"
  {
  }

  /** `str(html(''))` is `<html></html>`: a tuple holding only `''` renders as
      `''`, which is not `None`, so the tag is not self-closing. */
  lemma LegacyEmptyString()
    ensures Legacy.Init("html", [Legacy.Str("")], []).Ok?
    ensures Legacy.Render(Legacy.Init("html", [Legacy.Str("")], []).value, false, Empty) == "<html></html>"
  {
    assert Legacy.RenderItems([Legacy.Str("")], Empty) == "" by {
      assert [Legacy.Str("")][1..] == [];
    }
  }
}
