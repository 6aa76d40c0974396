/** Corners of the template language: names, names bound although nobody gave them, and a number of its own. */
module TemplateCorners {
  import opened Numbers
  import opened ReportQueries

  /** Letters without accents and the underscore begin a name; digits may follow. */
  lemma NameCharacters(c: char)
    ensures IsNameStart(c) <==> c in "ABCDEFGHIJKLMNOPQRSTUVWXYZ" || c in "abcdefghijklmnopqrstuvwxyz" || c == '_'
    ensures IsNameChar(c) <==> IsNameStart(c) || c in "0123456789"
  {
  }

  lemma PlainObjectNames(name: string)
    ensures name in OBJECT_PROTOTYPE <==>
      || name == "constructor" || name == "hasOwnProperty" || name == "isPrototypeOf" || name == "propertyIsEnumerable"
      || name == "toString" || name == "toLocaleString" || name == "valueOf" || name == "__proto__"
      || name == "__defineGetter__" || name == "__defineSetter__"
      || name == "__lookupGetter__" || name == "__lookupSetter__"
  {
  }

  predicate IsName(s: string) { s != "" && IsNameStart(s[0]) && forall k | 0 <= k < |s| :: IsNameChar(s[k]) }

  /** A template that is one placeholder. */
  lemma LonePlaceholder(name: string, params: Params)
    requires IsName(name)
    ensures Pieces(":" + name) == [Placeholder(name)] && Names([Placeholder(name)]) == [name]
    ensures Render([Placeholder(name)], [name]) == "$" + Decimal(1)
    ensures Expand([Placeholder(name)], params) == [Val(Lookup(params, name))]
  {
    hide Lookup, Decimal;
    var t := ":" + name;
    assert t[1..] == name && t[1] == name[0] && NameRun(name) == |name|;
    assert t[1..1 + |name|] == name && t[1 + |name|..] == "";
    assert Pieces("") == [];
    assert [Placeholder(name)][1..] == [];
  }

  /** A character in front of a template stays what it is in its pieces, its text and its meaning. */
  lemma LiteralInFront(c: char, t: string, d: seq<string>, params: Params)
    requires c != ':'
    ensures Pieces([c] + t) == [Literal(c)] + Pieces(t)
    ensures Names([Literal(c)] + Pieces(t)) == Names(Pieces(t))
    ensures Render([Literal(c)] + Pieces(t), d) == [c] + Render(Pieces(t), d)
    ensures Expand([Literal(c)] + Pieces(t), params) == [Ch(c)] + Expand(Pieces(t), params)
  {
    assert ([c] + t)[0] == c && ([c] + t)[1..] == t;
    LiteralFirst([c] + t);
    hide Pieces, NameRun, Lookup, Number;
    assert ([Literal(c)] + Pieces(t))[1..] == Pieces(t);
  }

  /** The same for the two characters of the number one. */
  lemma OwnNumberInFront(t: string, d: seq<string>, params: Params)
    ensures Pieces("$1" + t) == [Literal('$')] + ([Literal('1')] + Pieces(t))
    ensures Names(Pieces("$1" + t)) == Names(Pieces(t))
    ensures Render(Pieces("$1" + t), d) == "$1" + Render(Pieces(t), d)
    ensures Expand(Pieces("$1" + t), params) == [Ch('$'), Ch('1')] + Expand(Pieces(t), params)
  {
    hide *;
    SplitFront(t);
    SplitFront(Render(Pieces(t), d));
    LiteralInFront('1', t, d, params);
    LiteralInFront('$', ['1'] + t, d, params);
  }

  lemma SplitFront(t: string)
    ensures "$1" + t == ['$'] + (['1'] + t)
  {
  }

  /** A template `$1:name` is read as the value twice, where it means two characters and the value. */
  lemma OwnNumberIsRead(name: string, params: Params)
    requires IsName(name)
    ensures var t, v := "$1" + (":" + name), Val(Lookup(params, name));
      && Names(Pieces(t)) == [name]
      && Read(Render(Pieces(t), [name]), ValuesOf([name], params)) == [v, v]
      && Expand(Pieces(t), params) == [Ch('$'), Ch('1'), v]
  {
    hide *;
    FirstNumber(name, params);
    OwnNumberInFront(":" + name, [name], params);
    LonePlaceholder(name, params);
    ReadTwice("$" + Decimal(1), ValuesOf([name], params));
  }

  lemma ReadTwice(one: string, values: seq<Value>)
    requires one == "$" + Decimal(1) && one[0] == '$' && !IsDigit('$') && Read("", values) == []
    ensures Read(one + one, values) == [Resolve(1, values), Resolve(1, values)]
  {
    hide *;
    ReadNumber(1, one, values);
    ReadNumber(1, "", values);
    assert one + "" == one;
  }

  lemma FirstNumber(name: string, params: Params)
    ensures "$" + Decimal(1) == "$1" && !IsDigit('$')
    ensures Resolve(1, ValuesOf([name], params)) == Val(Lookup(params, name))
    ensures Read("", ValuesOf([name], params)) == []
  {
    assert Decimal(1) == "1";
    hide Lookup;
  }

  /** A name of every plain object counts as bound although nobody gave it, and its value is the object's. */
  lemma InheritedNameIsBound(name: string, params: Params)
    requires IsName(name) && name !in params
    ensures Names(Pieces(":" + name)) == [name]
    ensures name in OBJECT_PROTOTYPE ==>
      AllBound([name], params) && Expand(Pieces(":" + name), params) == [Val(Inherited(name))]
  {
    LonePlaceholder(name, params);
    hide Pieces, Names, Expand, IsName, OBJECT_PROTOTYPE;
  }

  lemma ToStringIsInherited()
    ensures IsName("toString") && "toString" in OBJECT_PROTOTYPE
  {
  }
}
