/** The node tree of `pyhtml.py` and of its near-duplicate `phtml/__init__.py`:
    tag kinds (one Python class per element name), Blocks, Tags and their
    children, and the attribute dictionaries. */
module Html {
  import opened Outcomes

  /** The render context: the keyword arguments given to `render`. */
  type Context = map<string, string>

  /** Which of the two engines renders: `pyhtml.py` sorts attributes, calls
      callable attribute values and starts from per-kind defaults;
      `phtml/__init__.py` does none of these. */
  datatype Variant = PyHtml | Phtml

  /** The base class a tag kind derives from. */
  datatype Flavour = Normal | SelfClosing | WhitespaceSensitive

  /** An attribute value: `shown` is what `'%s' % value` prints; a callable
      value also has its result for a context. */
  datatype AttrValue = Fixed(shown: string) | Computed(eval: Context -> string, shown: string)

  /** An attribute dictionary, in its iteration order. */
  type Attrs = seq<(string, AttrValue)>

  /** A tag class: its class name, base class, class-level `attributes`
      defaults and `doctype` (`""` for `None`). */
  datatype Kind = Kind(name: string, flavour: Flavour, defaults: Attrs, doctype: string)

  /** A child of a Block or Tag: an object rendered through `str` (its text),
      a callable of the context, a tag class used without calling it, or a
      Block or Tag instance. */
  datatype Child =
    | Lit(text: string)
    | Call(produce: Context -> string)
    | Bare(kind: Kind)
    | Sub(node: Node)

  /** A `Block(name)` or an instance of a tag class; `safe` is the instance's
      `safe` attribute (the class default is `False`). */
  datatype Node =
    | Block(name: string, children: seq<Child>, safe: bool)
    | Tag(kind: Kind, attributes: Attrs, children: seq<Child>, safe: bool)
  {
    /** `.name`: a Block's own name, a Tag's class name. */
    function Name(): string
    {
      if Block? then name else kind.name
    }

    predicate IsSelfClosing()
    {
      Tag? && kind.flavour == SelfClosing
    }

    /** `whitespace_sensitive`, which only `WhitespaceSensitiveTag` sets. */
    predicate IsWhitespaceSensitive()
    {
      Tag? && kind.flavour == WhitespaceSensitive
    }
  }

  function Keys(a: Attrs): (ks: seq<string>)
    ensures |ks| == |a| && forall i :: 0 <= i < |a| ==> ks[i] == a[i].0
  {
    if a == [] then [] else [a[0].0] + Keys(a[1..])
  }

  predicate DistinctKeys(a: Attrs)
  {
    forall i, j :: 0 <= i < j < |a| ==> a[i].0 != a[j].0
  }

  /** `a.get(k)`. */
  function Lookup(a: Attrs, k: string): Option<AttrValue>
  {
    if a == [] then None else if a[0].0 == k then Some(a[0].1) else Lookup(a[1..], k)
  }

  lemma {:induction false} LookupPresent(a: Attrs, k: string)
    ensures Lookup(a, k).Some? <==> k in Keys(a)
  {
    if a != [] {
      LookupPresent(a[1..], k);
      assert Keys(a) == [a[0].0] + Keys(a[1..]);
    }
  }

  /** In a dictionary each key occurs once. */
  lemma {:induction false} DistinctOnce(a: Attrs, k: string)
    requires DistinctKeys(a)
    ensures multiset(Keys(a))[k] <= 1
  {
    if a != [] {
      DistinctOnce(a[1..], k);
      assert Keys(a) == [a[0].0] + Keys(a[1..]);
      forall m | 0 <= m < |a[1..]| ensures Keys(a[1..])[m] != a[0].0 {
        assert a[1..][m] == a[m + 1];
      }
      assert a[0].0 !in Keys(a[1..]);
    }
  }

  /** A listing whose keys occur once each has distinct keys. */
  lemma OnceDistinct(b: Attrs)
    requires forall k :: multiset(Keys(b))[k] <= 1
    ensures DistinctKeys(b)
  {
    forall i, j | 0 <= i < j < |b| ensures b[i].0 != b[j].0 {
      var ks := Keys(b);
      assert ks == ks[..j] + ks[j..];
      assert ks[i] == ks[..j][i] && ks[j] == ks[j..][0];
      assert multiset(ks)[ks[j]] == multiset(ks[..j])[ks[j]] + multiset(ks[j..])[ks[j]];
    }
  }

  /** With distinct keys, each key's entry is the one `get` returns. */
  lemma {:induction false} LookupAt(b: Attrs, i: nat)
    requires DistinctKeys(b) && i < |b|
    ensures Lookup(b, b[i].0) == Some(b[i].1)
  {
    if i > 0 {
      assert b[1..][i - 1] == b[i];
      LookupAt(b[1..], i - 1);
    }
  }

  /** `a[k] = v`: an existing key keeps its place, a new one goes last. */
  function Assign(a: Attrs, k: string, v: AttrValue): (r: Attrs)
    ensures forall k' :: Lookup(r, k') == if k' == k then Some(v) else Lookup(a, k')
  {
    if a == [] then [(k, v)]
    else if a[0].0 == k then [(k, v)] + a[1..]
    else [a[0]] + Assign(a[1..], k, v)
  }

  /** Assigning keeps the keys of a dictionary distinct. */
  lemma {:induction false} AssignDistinct(a: Attrs, k: string, v: AttrValue)
    requires DistinctKeys(a)
    ensures DistinctKeys(Assign(a, k, v))
  {
    if a != [] && a[0].0 != k {
      var rest := Assign(a[1..], k, v);
      AssignDistinct(a[1..], k, v);
      forall j | 0 <= j < |rest| ensures rest[j].0 != a[0].0 {
        LookupPresent(rest, rest[j].0);
        assert rest[j].0 in Keys(rest);
        if rest[j].0 != k {
          LookupPresent(a[1..], rest[j].0);
          var m :| 0 <= m < |a[1..]| && Keys(a[1..])[m] == rest[j].0;
          assert a[m + 1].0 == rest[j].0;
        }
      }
      var r := [a[0]] + rest;
      forall i, j | 0 <= i < j < |r| ensures r[i].0 != r[j].0 {
        if i > 0 {
          assert r[i] == rest[i - 1] && r[j] == rest[j - 1];
        }
      }
    }
  }

  /** `a.copy(); a.update(kw)`: the keyword arguments assigned in order. */
  function Update(a: Attrs, kw: Attrs): Attrs
    decreases |kw|
  {
    if kw == [] then a else Update(Assign(a, kw[0].0, kw[0].1), kw[1..])
  }

  /** After `update`, a key takes its value from the keyword arguments when
      they have it and keeps the default otherwise. */
  lemma {:induction false} UpdateLookup(a: Attrs, kw: Attrs, k: string)
    requires DistinctKeys(kw)
    ensures Lookup(Update(a, kw), k) == if Lookup(kw, k).Some? then Lookup(kw, k) else Lookup(a, k)
    decreases |kw|
  {
    if kw != [] {
      UpdateLookup(Assign(a, kw[0].0, kw[0].1), kw[1..], k);
      if k == kw[0].0 {
        LookupPresent(kw[1..], k);
        assert k !in Keys(kw[1..]);
      }
    }
  }

  lemma {:induction false} UpdateDistinct(a: Attrs, kw: Attrs)
    requires DistinctKeys(a)
    ensures DistinctKeys(Update(a, kw))
    decreases |kw|
  {
    if kw != [] {
      AssignDistinct(a, kw[0].0, kw[0].1);
      UpdateDistinct(Assign(a, kw[0].0, kw[0].1), kw[1..]);
    }
  }

  /** The instance created by `Tag.__init__(*children, **kwargs)`. */
  function NewTag(v: Variant, k: Kind, children: seq<Child>, kwargs: Attrs): (r: Result<Node>)
    ensures r.Ok? <==> (k.flavour != SelfClosing || children == []) && (children == [] || kwargs == [])
    ensures r.Ok? ==> r.value.Tag? && r.value.kind == k && r.value.children == children && !r.value.safe
  {
    if k.flavour == SelfClosing && children != [] then Err(TypeError)
    else if children != [] && kwargs != [] then Err(AssertionFailed)
    else Ok(Tag(k, if v == PyHtml then Update(k.defaults, kwargs) else kwargs, children, false))
  }

  /** The attributes of a new instance: in `pyhtml.py` a keyword argument
      overrides the class default of the same name and the other defaults
      stay; in `phtml/__init__.py` they are the keyword arguments alone. */
  lemma NewTagAttributes(v: Variant, k: Kind, children: seq<Child>, kwargs: Attrs, key: string)
    requires DistinctKeys(kwargs)
    requires NewTag(v, k, children, kwargs).Ok?
    ensures Lookup(NewTag(v, k, children, kwargs).value.attributes, key)
         == if v == Phtml || Lookup(kwargs, key).Some? then Lookup(kwargs, key) else Lookup(k.defaults, key)
  {
    if v == PyHtml {
      UpdateLookup(k.defaults, kwargs, key);
    }
  }

  /** `node(*children)`: children replaced wholesale; a self-closing tag raises. */
  function CallNode(n: Node, children: seq<Child>): (r: Result<Node>)
    ensures r.Ok? <==> !n.IsSelfClosing()
    ensures r.Ok? ==> r.value == n.(children := children)
  {
    if n.IsSelfClosing() then Err(SelfClosingCall) else Ok(n.(children := children))
  }
}
