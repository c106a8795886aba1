/** The tag classes the two engines define: the class statements of
    `pyhtml.py`, and the `register` loop of `phtml/__init__.py` that creates
    one class per name with `create_tag`. */
module Kinds {
  import opened Outcomes
  import opened Html

  /** The class names of the plain tags of `pyhtml.py`, in definition order. */
  const PlainNames: seq<string> := [
    "head", "body", "title", "div", "p", "h1", "h2", "h3", "h4", "h5", "h6",
    "u", "b", "i", "s", "a", "em", "strong", "span", "font", "del_", "ins",
    "ul", "ol", "li", "dd", "dt", "dl",
    "article", "section", "nav", "aside", "header", "footer",
    "audio", "video", "object_", "embed", "param",
    "fieldset", "legend", "button", "textarea", "label", "select", "option",
    "table", "thead", "tbody", "tr", "th", "td", "caption",
    "blockquote", "cite", "q", "abbr", "acronym", "address"]

  const SelfClosingNames: seq<string> := ["meta", "link", "br", "hr", "input", "img"]

  const WhitespaceSensitiveNames: seq<string> := ["code", "samp", "pre", "var", "kbd", "dfn"]

  const Doctype: string := "<!DOCTYPE html>"

  /** `class <name>(<base>): pass`: no doctype and no default attributes. */
  function Simple(name: string, flavour: Flavour): (k: Kind)
    ensures k.name == name && k.flavour == flavour && k.defaults == [] && k.doctype == ""
  {
    Kind(name, flavour, [], "")
  }

  /** The four classes of `pyhtml.py` with a body of their own. */
  const HtmlKind: Kind := Kind("html", Normal, [], Doctype)
  const ScriptKind: Kind := Kind("script", Normal, [("type", Fixed("text/javascript"))], "")
  const StyleKind: Kind := Kind("style", Normal, [("type", Fixed("text/css"))], "")
  const FormKind: Kind := Kind("form", Normal, [("method", Fixed("POST"))], "")

  function SimpleAll(names: seq<string>, flavour: Flavour): (ks: seq<Kind>)
    ensures |ks| == |names|
    ensures forall i :: 0 <= i < |ks| ==> ks[i] == Simple(names[i], flavour)
  {
    seq(|names|, i requires 0 <= i < |names| => Simple(names[i], flavour))
  }

  /** Every tag class `pyhtml.py` defines, in definition order. */
  function PyHtmlKinds(): seq<Kind>
  {
    SimpleAll(PlainNames, Normal) + SimpleAll(SelfClosingNames, SelfClosing)
    + SimpleAll(WhitespaceSensitiveNames, WhitespaceSensitive)
    + [HtmlKind, ScriptKind, StyleKind, FormKind]
  }

  /** Only `html` has a doctype, and only `script`, `style` and `form` have
      default attributes. */
  lemma PyHtmlKindsSpecial()
    ensures forall k :: k in PyHtmlKinds() ==> (k.doctype != "" <==> k == HtmlKind)
    ensures forall k :: k in PyHtmlKinds() ==> (k.defaults != [] <==> k in [ScriptKind, StyleKind, FormKind])
  {
  }

  /** `phtml/__init__.py`'s `tags`: the plain names of `pyhtml.py`, with
      `del` where `pyhtml.py` has the class `del_`. */
  const PackageTagNames: seq<string> := [
    "head", "body", "title", "div", "p", "h1", "h2", "h3", "h4", "h5", "h6",
    "u", "b", "i", "s", "a", "em", "strong", "span", "font", "del", "ins",
    "ul", "ol", "li", "dd", "dt", "dl",
    "article", "section", "nav", "aside", "header", "footer",
    "audio", "video", "object_", "embed", "param",
    "fieldset", "legend", "button", "textarea", "label", "select", "option",
    "table", "thead", "tbody", "tr", "th", "td", "caption",
    "blockquote", "cite", "q", "abbr", "acronym", "address"]

  const PackageSelfClosingNames: seq<string> := ["meta", "link", "br", "hr", "input"]

  /** `create_tag(name, cls)`: a new class of that name with the base's body. */
  function CreateTag(name: string, flavour: Flavour): Kind
  {
    Simple(name, flavour)
  }

  /** The bindings `register(names, cls)` makes. */
  function Registered(names: seq<string>, flavour: Flavour): (m: map<string, Kind>)
    ensures forall n :: n in m <==> n in names
    ensures forall n :: n in m ==> m[n] == CreateTag(n, flavour)
  {
    map n | n in names :: CreateTag(n, flavour)
  }

  /** Registering one more name binds it on top of the earlier ones. */
  lemma RegisteredSnoc(names: seq<string>, i: nat, flavour: Flavour)
    requires i < |names|
    ensures Registered(names[..i + 1], flavour) == Registered(names[..i], flavour)[names[i] := CreateTag(names[i], flavour)]
  {
    assert names[..i + 1] == names[..i] + [names[i]];
  }

  lemma UnionUpdate<K, V>(m: map<K, V>, r: map<K, V>, k: K, v: V)
    ensures (m + r)[k := v] == m + r[k := v]
  {
  }

  /** The namespace of `phtml/__init__.py` once its body has run. */
  function PackageNamespace(): map<string, Kind>
  {
    (map[] + Registered(PackageTagNames, Normal) + Registered(PackageSelfClosingNames, SelfClosing)
     + Registered(WhitespaceSensitiveNames, WhitespaceSensitive))["html" := HtmlKind]
  }

  /** The namespace of `phtml/__init__.py` as `register` fills it. */
  class Package {
    var namespace: map<string, Kind>
    /** `__all__`, which the `export` decorator appends to. */
    var exported: seq<string>

    /** The module after its body has run: `Block` and `Tag` exported, the
        three `register` calls, then the `html` class with its doctype. */
    constructor ()
      ensures exported == ["Block", "Tag"] + PackageTagNames + PackageSelfClosingNames
                          + WhitespaceSensitiveNames + ["html"]
      ensures namespace == PackageNamespace()
    {
      namespace := map[];
      exported := ["Block", "Tag"];
      new;
      Register(PackageTagNames, Normal);
      Register(PackageSelfClosingNames, SelfClosing);
      Register(WhitespaceSensitiveNames, WhitespaceSensitive);
      namespace := namespace["html" := HtmlKind];
      exported := exported + ["html"];
    }

    /** `register(tags, cls)`: for each name, a class made by `create_tag`,
        bound in the namespace and exported. A later name rebinds an earlier one. */
    method Register(names: seq<string>, flavour: Flavour)
      modifies this
      ensures exported == old(exported) + names
      ensures namespace == old(namespace) + Registered(names, flavour)
    {
      for i := 0 to |names|
        invariant exported == old(exported) + names[..i]
        invariant namespace == old(namespace) + Registered(names[..i], flavour)
      {
        assert names[..i + 1] == names[..i] + [names[i]];
        RegisteredSnoc(names, i, flavour);
        UnionUpdate(old(namespace), Registered(names[..i], flavour), names[i], CreateTag(names[i], flavour));
        namespace := namespace[names[i] := CreateTag(names[i], flavour)];
        exported := exported + [names[i]];
      }
      assert names[..|names|] == names;
    }
  }

  /** In `phtml/__init__.py` `hr` is self-closing, `pre` whitespace-sensitive
      and `html` the class with the doctype. */
  lemma PackageLookups()
    ensures "hr" in PackageNamespace() && PackageNamespace()["hr"] == CreateTag("hr", SelfClosing)
    ensures "pre" in PackageNamespace() && PackageNamespace()["pre"] == CreateTag("pre", WhitespaceSensitive)
    ensures "html" in PackageNamespace() && PackageNamespace()["html"] == HtmlKind
  {
    Listed();
    NamespaceAt("hr");
    NamespaceAt("pre");
  }

  lemma Listed()
    ensures "hr" in PackageSelfClosingNames && "hr" !in WhitespaceSensitiveNames
    ensures "pre" in WhitespaceSensitiveNames
  {
    assert PackageSelfClosingNames[3] == "hr";
    assert WhitespaceSensitiveNames[2] == "pre";
  }

  /** A later `register` call wins: a name other than `html` is bound to the
      class of the last list it appears in. */
  lemma NamespaceAt(n: string)
    requires n != "html"
    ensures n in PackageNamespace() <==> n in PackageTagNames || n in PackageSelfClosingNames || n in WhitespaceSensitiveNames
    ensures n in WhitespaceSensitiveNames ==> PackageNamespace()[n] == CreateTag(n, WhitespaceSensitive)
    ensures n !in WhitespaceSensitiveNames && n in PackageSelfClosingNames ==> PackageNamespace()[n] == CreateTag(n, SelfClosing)
    ensures n !in WhitespaceSensitiveNames && n !in PackageSelfClosingNames && n in PackageTagNames ==>
              PackageNamespace()[n] == CreateTag(n, Normal)
  {
  }
}
