/** HTML escaping as the three engines do it: `escape(text, quote=True)`
    replaces `&`, `<`, `>` one after the other with `str.replace`, then, when
    `quote` is set, `"` and `'`. */
module Escaping {

  /** `s.replace(k, v)` for a one-character pattern `k`. */
  function Replace(s: string, k: char, v: string): string
  {
    if s == "" then "" else (if s[0] == k then v else [s[0]]) + Replace(s[1..], k, v)
  }

  lemma {:induction false} ReplaceAppend(a: string, b: string, k: char, v: string)
    ensures Replace(a + b, k, v) == Replace(a, k, v) + Replace(b, k, v)
  {
    if a != "" {
      assert (a + b)[1..] == a[1..] + b;
      ReplaceAppend(a[1..], b, k, v);
    } else {
      assert a + b == b;
    }
  }

  lemma {:induction false} ReplaceAbsent(s: string, k: char, v: string)
    requires k !in s
    ensures Replace(s, k, v) == s
  {
    if s != "" {
      ReplaceAbsent(s[1..], k, v);
    }
  }

  /** The replacement pairs of `escape`, in the order they are applied. */
  const TextPairs: seq<(char, string)> := [('&', "&amp;"), ('<', "&lt;"), ('>', "&gt;")]
  const QuotePairs: seq<(char, string)> := [('"', "&quot;"), ('\'', "&#x27;")]

  function Pairs(quote: bool): seq<(char, string)>
  {
    if quote then TextPairs + QuotePairs else TextPairs
  }

  /** The replacements applied one after the other, each to the whole text. */
  function ReplaceEach(s: string, pairs: seq<(char, string)>): string
    decreases |pairs|
  {
    if pairs == [] then s else ReplaceEach(Replace(s, pairs[0].0, pairs[0].1), pairs[1..])
  }

  lemma {:induction false} ReplaceEachAppend(a: string, b: string, pairs: seq<(char, string)>)
    ensures ReplaceEach(a + b, pairs) == ReplaceEach(a, pairs) + ReplaceEach(b, pairs)
    decreases |pairs|
  {
    if pairs != [] {
      ReplaceAppend(a, b, pairs[0].0, pairs[0].1);
      ReplaceEachAppend(Replace(a, pairs[0].0, pairs[0].1), Replace(b, pairs[0].0, pairs[0].1), pairs[1..]);
    }
  }

  lemma {:induction false} ReplaceEachAbsent(s: string, pairs: seq<(char, string)>)
    requires forall i :: 0 <= i < |pairs| ==> pairs[i].0 !in s
    ensures ReplaceEach(s, pairs) == s
    decreases |pairs|
  {
    if pairs != [] {
      ReplaceAbsent(s, pairs[0].0, pairs[0].1);
      ReplaceEachAbsent(s, pairs[1..]);
    }
  }

  /** The independent, character-by-character reading of `escape`. */
  function EscapeChar(c: char, quote: bool): string
  {
    if c == '&' then "&amp;"
    else if c == '<' then "&lt;"
    else if c == '>' then "&gt;"
    else if quote && c == '"' then "&quot;"
    else if quote && c == '\'' then "&#x27;"
    else [c]
  }

  function Escaped(s: string, quote: bool): string
  {
    if s == "" then "" else EscapeChar(s[0], quote) + Escaped(s[1..], quote)
  }

  lemma ReplaceSingle(c: char, k: char, v: string)
    ensures Replace([c], k, v) == if c == k then v else [c]
  {
    assert [c][1..] == "";
  }

  /** A character that the `j`-th pair replaces, whose entity no later pair touches,
      comes out of the chain as that entity. */
  lemma {:induction false} ReplaceEachHit(c: char, pairs: seq<(char, string)>, j: nat)
    requires j < |pairs| && pairs[j].0 == c
    requires forall i :: 0 <= i < j ==> pairs[i].0 != c
    requires forall i :: j < i < |pairs| ==> pairs[i].0 !in pairs[j].1
    ensures ReplaceEach([c], pairs) == pairs[j].1
  {
    ReplaceSingle(c, pairs[0].0, pairs[0].1);
    if j == 0 {
      ReplaceEachAbsent(pairs[0].1, pairs[1..]);
    } else {
      ReplaceEachHit(c, pairs[1..], j - 1);
    }
  }

  /** On one character, the chain of replacements is that character's entity:
      `&` goes first, so the `&` an entity introduces is never replaced again. */
  lemma ReplaceEachChar(c: char, quote: bool)
    ensures ReplaceEach([c], Pairs(quote)) == EscapeChar(c, quote)
  {
    var p := Pairs(quote);
    if c == '&' {
      ReplaceEachHit(c, p, 0);
    } else if c == '<' {
      ReplaceEachHit(c, p, 1);
    } else if c == '>' {
      ReplaceEachHit(c, p, 2);
    } else if quote && c == '"' {
      ReplaceEachHit(c, p, 3);
    } else if quote && c == '\'' {
      ReplaceEachHit(c, p, 4);
    } else {
      ReplaceEachAbsent([c], p);
    }
  }

  /** The source's sequential `str.replace` chain equals the character-wise escape. */
  lemma {:induction false} ReplaceEachIsEscaped(s: string, quote: bool)
    ensures ReplaceEach(s, Pairs(quote)) == Escaped(s, quote)
  {
    if s == "" {
      ReplaceEachAbsent(s, Pairs(quote));
    } else {
      assert s == [s[0]] + s[1..];
      ReplaceEachAppend([s[0]], s[1..], Pairs(quote));
      ReplaceEachChar(s[0], quote);
      ReplaceEachIsEscaped(s[1..], quote);
    }
  }

  /** `escape(text, quote)`: each replacement reassigns `text`. */
  method Escape(text: string, quote: bool) returns (r: string)
    ensures r == Escaped(text, quote)
  {
    var pairs := Pairs(quote);
    r := text;
    for i := 0 to |pairs|
      invariant ReplaceEach(text, pairs) == ReplaceEach(r, pairs[i..])
    {
      assert pairs[i..][1..] == pairs[i + 1..];
      r := Replace(r, pairs[i].0, pairs[i].1);
    }
    ReplaceEachIsEscaped(text, quote);
  }

  /** Escaping works character by character, so it distributes over concatenation. */
  lemma {:induction false} EscapedAppend(a: string, b: string, quote: bool)
    ensures Escaped(a + b, quote) == Escaped(a, quote) + Escaped(b, quote)
  {
    if a == "" {
      assert a + b == b;
    } else {
      assert (a + b)[1..] == a[1..] + b;
      EscapedAppend(a[1..], b, quote);
    }
  }

  /** The escaped text holds no raw `<` or `>`, and, with `quote`, no raw quote. */
  lemma {:induction false} EscapedHasNoMarkup(s: string, quote: bool)
    ensures '<' !in Escaped(s, quote) && '>' !in Escaped(s, quote)
    ensures quote ==> '"' !in Escaped(s, quote) && '\'' !in Escaped(s, quote)
  {
    if s != "" {
      var e, t := EscapeChar(s[0], quote), Escaped(s[1..], quote);
      EscapeCharNoMarkup(s[0], quote);
      EscapedHasNoMarkup(s[1..], quote);
      NotInAppend('<', e, t);
      NotInAppend('>', e, t);
      if quote {
        NotInAppend('"', e, t);
        NotInAppend('\'', e, t);
      }
    }
  }

  lemma EscapeCharNoMarkup(c: char, quote: bool)
    ensures '<' !in EscapeChar(c, quote) && '>' !in EscapeChar(c, quote)
    ensures quote ==> '"' !in EscapeChar(c, quote) && '\'' !in EscapeChar(c, quote)
  {
  }

  lemma NotInAppend(c: char, a: string, b: string)
    requires c !in a && c !in b
    ensures c !in a + b
  {
    forall i | 0 <= i < |a + b|
      ensures (a + b)[i] != c
    {
      if i < |a| {
        assert (a + b)[i] == a[i];
      } else {
        assert (a + b)[i] == b[i - |a|];
      }
    }
  }

  /** The entities `escape` writes. */
  predicate StartsEntity(r: string, i: nat)
    requires i < |r|
  {
    var t := r[i..];
    "&amp;" <= t || "&lt;" <= t || "&gt;" <= t || "&quot;" <= t || "&#x27;" <= t
  }

  /** Every `&` of the escaped text begins one of the entities. */
  lemma {:induction false} EscapedAmpersandsBeginEntities(s: string, quote: bool)
    ensures forall i :: 0 <= i < |Escaped(s, quote)| && Escaped(s, quote)[i] == '&' ==>
      StartsEntity(Escaped(s, quote), i)
  {
    if s != "" {
      var e := EscapeChar(s[0], quote);
      var t := Escaped(s[1..], quote);
      var r := Escaped(s, quote);
      assert r == e + t;
      EscapedAmpersandsBeginEntities(s[1..], quote);
      forall i | 0 <= i < |r| && r[i] == '&' ensures StartsEntity(r, i) {
        if i < |e| {
          EscapeCharAmpersand(s[0], quote, t, i);
        } else {
          assert t[i - |e|] == '&';
          StartsEntityShift(e, t, i - |e|);
        }
      }
    }
  }

  /** Within one character's escape, a `&` can only be the start of its entity. */
  lemma EscapeCharAmpersand(c: char, quote: bool, t: string, i: nat)
    requires i < |EscapeChar(c, quote)| && EscapeChar(c, quote)[i] == '&'
    ensures StartsEntity(EscapeChar(c, quote) + t, i)
  {
    var e := EscapeChar(c, quote);
    assert i == 0;
    assert (e + t)[0..] == e + t;
  }

  /** An entity of the tail is still an entity after a prefix. */
  lemma StartsEntityShift(e: string, t: string, j: nat)
    requires j < |t| && StartsEntity(t, j)
    ensures StartsEntity(e + t, |e| + j)
  {
    assert (e + t)[|e| + j..] == t[j..];
  }

  /** Text without special characters is left as it is. */
  lemma {:induction false} EscapedPlain(s: string, quote: bool)
    requires forall c :: c in s ==> c !in "&<>"
    requires quote ==> forall c :: c in s ==> c !in "\"'"
    ensures Escaped(s, quote) == s
  {
    if s != "" {
      assert s[0] in s;
      assert forall c :: c in s[1..] ==> c in s;
      EscapedPlain(s[1..], quote);
    }
  }

  /** Reading the entities back: the inverse of `Escaped`. */
  function Unescaped(r: string): string
    decreases |r|
  {
    if r == "" then ""
    else if "&amp;" <= r then "&" + Unescaped(r[5..])
    else if "&lt;" <= r then "<" + Unescaped(r[4..])
    else if "&gt;" <= r then ">" + Unescaped(r[4..])
    else if "&quot;" <= r then "\"" + Unescaped(r[6..])
    else if "&#x27;" <= r then "'" + Unescaped(r[6..])
    else [r[0]] + Unescaped(r[1..])
  }

  /** An entity at the front of the text reads back as its character. */
  lemma UnescapedEntity(e: string, c: char, t: string)
    requires (e, c) in {("&amp;", '&'), ("&lt;", '<'), ("&gt;", '>'), ("&quot;", '"'), ("&#x27;", '\'')}
    ensures Unescaped(e + t) == [c] + Unescaped(t)
  {
    var r := e + t;
    assert r[|e|..] == t;
    assert e <= r;
    assert r[0] == '&' && r[1] == e[1];
  }

  /** A character other than `&` at the front of the text reads back as itself. */
  lemma UnescapedPlain(c: char, t: string)
    requires c != '&'
    ensures Unescaped([c] + t) == [c] + Unescaped(t)
  {
    var r := [c] + t;
    assert r[0] == c && r[1..] == t;
  }

  lemma UnescapedChar(c: char, quote: bool, t: string)
    ensures Unescaped(EscapeChar(c, quote) + t) == [c] + Unescaped(t)
  {
    if c == '&' {
      UnescapedEntity("&amp;", c, t);
    } else if c == '<' {
      UnescapedEntity("&lt;", c, t);
    } else if c == '>' {
      UnescapedEntity("&gt;", c, t);
    } else if quote && c == '"' {
      UnescapedEntity("&quot;", c, t);
    } else if quote && c == '\'' {
      UnescapedEntity("&#x27;", c, t);
    } else {
      UnescapedPlain(c, t);
    }
  }

  /** Escaping loses nothing: unescaping gives the text back. */
  lemma {:induction false} EscapeRoundTrip(s: string, quote: bool)
    ensures Unescaped(Escaped(s, quote)) == s
  {
    if s != "" {
      UnescapedChar(s[0], quote, Escaped(s[1..], quote));
      EscapeRoundTrip(s[1..], quote);
    }
  }
}
