/** A Block or Tag instance of `pyhtml.py` / `phtml/__init__.py` as the
    object its methods update in place: `__call__` and `__setitem__`
    replace children, `copy` makes an independent object, `render` and
    `__str__` write it out. The nodes below it are values. */
module Elements {
  import opened Outcomes
  import opened Html
  import opened Rendering
  import opened Blocks
  import Writer

  /** What an instance is: a `Block(name)` or an instance of a tag class. */
  datatype Form = BlockNamed(name: string) | TagOf(kind: Kind)

  class Element {
    const variant: Variant
    const form: Form
    var attributes: Attrs
    var children: seq<Child>
    var safe: bool

    /** The tree this object stands for. */
    function Value(): (n: Node)
      reads this
      ensures n.children == children && n.safe == safe
    {
      match form
      case BlockNamed(name) => Node.Block(name, children, safe)
      case TagOf(k) => Tag(k, attributes, children, safe)
    }

    /** `Block(name)`: no children, not safe. */
    constructor Block(v: Variant, name: string)
      ensures variant == v && Value() == Node.Block(name, [], false)
    {
      variant := v;
      form := BlockNamed(name);
      attributes := [];
      children := [];
      safe := false;
    }

    constructor FromTag(v: Variant, k: Kind, a: Attrs, cs: seq<Child>)
      ensures variant == v && Value() == Tag(k, a, cs, false)
    {
      variant := v;
      form := TagOf(k);
      attributes := a;
      children := cs;
      safe := false;
    }

    /** `node(*children)`: the children replaced, the object itself returned;
        a self-closing tag raises instead and keeps its state. */
    method Call(cs: seq<Child>) returns (r: Result<Element>)
      modifies this
      ensures r.Ok? <==> CallNode(old(Value()), cs).Ok?
      ensures r.Ok? ==> r.value == this && Value() == CallNode(old(Value()), cs).value
      ensures r.Err? ==> r.error == SelfClosingCall && Value() == old(Value())
    {
      if form.TagOf? && form.kind.flavour == SelfClosing {
        return Err(SelfClosingCall);
      }
      children := cs;
      return Ok(this);
    }

    /** `self[name] = x`: every node `_find_blocks(name)` finds gets the
        children `(x,)`; a self-closing one raises, after the ones found
        before it have been filled. */
    method SetItem(name: string, x: Child) returns (err: Option<Error>)
      modifies this
      ensures children == Fill(old(children), name, x).0
      ensures Found(children, name) == CallEach(Found(old(children), name), x)
      ensures err == None <==> NoneSelfClosing(Found(old(children), name))
      ensures err != None ==> err == Some(SelfClosingCall)
      ensures Erase(children, name) == Erase(old(children), name)
      ensures attributes == old(attributes) && safe == old(safe)
    {
      var (cs, ok) := Fill(children, name, x);
      FillCallsEach(children, name, x);
      FillFrame(children, name, x);
      children := cs;
      err := if ok then None else Some(SelfClosingCall);
    }

    /** `copy()`, which is `deepcopy(self)`: a new object with the same tree,
        so that filling one leaves the other as it was. */
    method Copy() returns (e: Element)
      ensures fresh(e)
      ensures e.variant == variant && e.Value() == Value()
    {
      if form.BlockNamed? {
        e := new Element.Block(variant, form.name);
        e.children := children;
      } else {
        e := new Element.FromTag(variant, form.kind, attributes, children);
      }
      e.safe := safe;
    }

    /** `render(**context)`; `str(node)` is `render()` with the empty context. */
    method Render(ctx: Context) returns (s: string)
      ensures s == Rendering.Render(variant, Value(), ctx)
    {
      s := Writer.RenderToString(variant, Value(), ctx);
    }
  }

  /** `Tag.__init__(*children, **kwargs)` for the tag class `k`. */
  method NewTag(v: Variant, k: Kind, children: seq<Child>, kwargs: Attrs) returns (r: Result<Element>)
    ensures r.Ok? <==> Html.NewTag(v, k, children, kwargs).Ok?
    ensures r.Ok? ==> fresh(r.value) && r.value.variant == v && r.value.Value() == Html.NewTag(v, k, children, kwargs).value
    ensures r.Err? ==> r.error == Html.NewTag(v, k, children, kwargs).error
  {
    if k.flavour == SelfClosing && children != [] {
      return Err(TypeError);
    }
    if children != [] && kwargs != [] {
      return Err(AssertionFailed);
    }
    var a := if v == PyHtml then Update(k.defaults, kwargs) else kwargs;
    var e := new Element.FromTag(v, k, a, children);
    return Ok(e);
  }

  /** Filling a copy leaves the original and its rendering untouched. */
  method FillCopy(t: Element, name: string, x: Child, ctx: Context) returns (before: string, after: string)
    ensures before == after
    ensures before == Rendering.Render(t.variant, t.Value(), ctx)
  {
    before := t.Render(ctx);
    var t2 := t.Copy();
    var _ := t2.SetItem(name, x);
    after := t.Render(ctx);
  }
}
