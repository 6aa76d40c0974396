/**
 Named report parameters (`:name`) rewritten to numbered ones (`$1`, `$2`, ...) with a values array.

 A template is text with placeholders.  Its meaning under a binding is the text in which each
 placeholder stands for its value.  The rewritten query is read the way the database reads it:
 a dollar sign and the longest run of digits after it stand for a value by position.
 */
module ReportQueries {
  import opened Numbers
  import opened Wrappers

  /** A parameter value; `Inherited` is what a property lookup finds on every plain object. */
  datatype Value = Given(text: string) | Undefined | Inherited(name: string)

  type Params = map<string, Value>

  /** Property names that every plain object answers to. */
  const OBJECT_PROTOTYPE: set<string> := {
    "constructor", "__defineGetter__", "__defineSetter__", "hasOwnProperty",
    "__lookupGetter__", "__lookupSetter__", "isPrototypeOf", "propertyIsEnumerable",
    "toString", "valueOf", "__proto__", "toLocaleString"}

  /** `name in params` */
  predicate Bound(params: Params, name: string) { name in params || name in OBJECT_PROTOTYPE }

  /** `params[name]` */
  function Lookup(params: Params, name: string): Value {
    if name in params then params[name]
    else if name in OBJECT_PROTOTYPE then Inherited(name)
    else Undefined
  }

  predicate IsNameStart(c: char) { 'a' <= c <= 'z' || 'A' <= c <= 'Z' || c == '_' }

  predicate IsNameChar(c: char) { IsNameStart(c) || IsDigit(c) }

  /** The longest run of name characters at the front. */
  function NameRun(s: string): (n: nat)
    ensures n <= |s| && (forall k | 0 <= k < n :: IsNameChar(s[k])) && (n < |s| ==> !IsNameChar(s[n]))
  {
    if s != "" && IsNameChar(s[0]) then
      var n := NameRun(s[1..]) + 1;
      assert forall k | 0 < k < n :: s[k] == s[1..][k - 1];
      n
    else 0
  }

  /** The longest run of digits at the front. */
  function DigitRun(s: string): (n: nat)
    ensures n <= |s| && AllDigits(s[..n]) && (n < |s| ==> !IsDigit(s[n]))
  {
    if s != "" && IsDigit(s[0]) then
      var n := DigitRun(s[1..]) + 1;
      assert s[..n] == [s[0]] + s[1..][..n - 1];
      n
    else 0
  }

  // ------------------------------------------------------------------ meaning of a template

  datatype Piece = Literal(c: char) | Placeholder(name: string)

  predicate AtPlaceholder(t: string) { |t| > 1 && t[0] == ':' && IsNameStart(t[1]) }

  /** The scanner's view of a template: left to right, longest names first. */
  function Pieces(t: string): seq<Piece>
    decreases |t|
  {
    if t == "" then []
    else if AtPlaceholder(t) then
      var n := NameRun(t[1..]);
      [Placeholder(t[1..1 + n])] + Pieces(t[1 + n..])
    else [Literal(t[0])] + Pieces(t[1..])
  }

  /** What a query stands for: characters and values. */
  datatype Item = Ch(c: char) | Val(value: Value) | NoValue(index: nat)

  function Expand(ps: seq<Piece>, params: Params): seq<Item> {
    if ps == [] then []
    else
      [match ps[0] case Literal(c) => Ch(c) case Placeholder(n) => Val(Lookup(params, n))]
      + Expand(ps[1..], params)
  }

  function Names(ps: seq<Piece>): seq<string> {
    if ps == [] then []
    else (if ps[0].Placeholder? then [ps[0].name] else []) + Names(ps[1..])
  }

  // ------------------------------------------------------------------ meaning of a numbered query

  predicate AtNumber(s: string) { |s| > 1 && s[0] == '$' && IsDigit(s[1]) }

  function Resolve(k: nat, values: seq<Value>): Item {
    if 1 <= k <= |values| then Val(values[k - 1]) else NoValue(k)
  }

  function Read(s: string, values: seq<Value>): seq<Item>
    decreases |s|
  {
    if s == "" then []
    else if AtNumber(s) then
      var n := DigitRun(s[1..]);
      [Resolve(ParseNat(s[1..][..n]), values)] + Read(s[1 + n..], values)
    else [Ch(s[0])] + Read(s[1..], values)
  }

  // ------------------------------------------------------------------ the rewriting, as a reference

  /** Each name once, in order of first occurrence. */
  function FirstOccurrences(names: seq<string>): (d: seq<string>)
    ensures forall x :: x in d <==> x in names
    ensures forall i, j | 0 <= i < j < |d| :: d[i] != d[j]
  {
    if names == [] then []
    else
      var last := names[|names| - 1];
      var d := FirstOccurrences(names[..|names| - 1]);
      assert names == names[..|names| - 1] + [last];
      if last in d then d else d + [last]
  }

  /** The first position of a name, or the length when it does not occur. */
  function IndexOf(d: seq<string>, name: string): (k: nat)
    ensures k <= |d| && name !in d[..k] && (k < |d| ==> d[k] == name)
  {
    if d == [] || d[0] == name then 0
    else
      var k := IndexOf(d[1..], name) + 1;
      assert d[..k] == [d[0]] + d[1..][..k - 1];
      k
  }

  function Number(d: seq<string>, name: string): string { "$" + Decimal(IndexOf(d, name) + 1) }

  /** The text of pieces whose names are numbered by their position in d. */
  function Render(ps: seq<Piece>, d: seq<string>): string {
    if ps == [] then ""
    else (match ps[0] case Literal(c) => [c] case Placeholder(n) => Number(d, n)) + Render(ps[1..], d)
  }

  function ValuesOf(d: seq<string>, params: Params): seq<Value> {
    seq(|d|, i requires 0 <= i < |d| => Lookup(params, d[i]))
  }

  // ------------------------------------------------------------------ meaning is preserved

  /** No dollar sign of the template's own stands directly before a digit. */
  ghost predicate NoDollarDigit(t: string) {
    forall i, j | 0 <= i < j < |t| && j == i + 1 :: !(t[i] == '$' && IsDigit(t[j]))
  }

  lemma {:induction false} DigitRunOf(ds: string, rest: string)
    requires AllDigits(ds) && (rest != "" ==> !IsDigit(rest[0]))
    ensures DigitRun(ds + rest) == |ds|
  {
    if ds == "" {
      assert ds + rest == rest;
    } else {
      assert (ds + rest)[1..] == ds[1..] + rest;
      DigitRunOf(ds[1..], rest);
    }
  }

  lemma ReadNumber(k: nat, rest: string, values: seq<Value>)
    requires rest != "" ==> !IsDigit(rest[0])
    ensures Read("$" + Decimal(k) + rest, values) == [Resolve(k, values)] + Read(rest, values)
  {
    var ds := Decimal(k);
    var s := "$" + ds + rest;
    assert s[1..] == ds + rest;
    assert s[1] == ds[0];
    DigitRunOf(ds, rest);
    assert s[1..][..|ds|] == ds && s[1 + |ds|..] == rest;
    ParseDecimal(k);
  }

  /** A rewritten template begins with a dollar sign for a placeholder, else as the template does. */
  lemma RenderHead(t: string, d: seq<string>)
    ensures Render(Pieces(t), d) == "" <==> t == ""
    ensures t != "" ==> Render(Pieces(t), d)[0] == if AtPlaceholder(t) then '$' else t[0]
  {
  }

  /** What follows a placeholder is not a name character, so it cannot lengthen the number. */
  lemma AfterPlaceholder(t: string, d: seq<string>)
    requires AtPlaceholder(t)
    ensures var n := NameRun(t[1..]);
            var rest := Pieces(t[1 + n..]);
            && n > 0
            && Pieces(t) == [Placeholder(t[1..1 + n])] + rest
            && (Render(rest, d) != "" ==> !IsDigit(Render(rest, d)[0]))
  {
    var n := NameRun(t[1..]);
    var u := t[1 + n..];
    RenderHead(u, d);
    assert u != "" ==> u[0] == t[1..][n];
  }

  lemma NoDollarDigitTail(t: string, n: nat)
    requires t != "" && n <= |t| && (n == 0 || forall k | 0 <= k < n :: t[k] != '$')
    requires n > 0 || (t[0] == '$' ==> |t| == 1 || !IsDigit(t[1]))
    ensures NoDollarDigit(t) <==> NoDollarDigit(if n == 0 then t[1..] else t[n..])
  {
    var m := if n == 0 then 1 else n;
    var u := t[m..];
    if NoDollarDigit(u) {
      forall i, j | 0 <= i < j < |t| && j == i + 1
        ensures !(t[i] == '$' && IsDigit(t[j]))
      {
        if i >= m { assert u[i - m] == t[i] && u[j - m] == t[j]; }
      }
    }
    if NoDollarDigit(t) {
      forall i, j | 0 <= i < j < |u| && j == i + 1
        ensures !(u[i] == '$' && IsDigit(u[j]))
      {
        assert u[i] == t[i + m] && u[j] == t[j + m];
      }
    }
  }

  lemma SameTail(x: Item, a: seq<Item>, b: seq<Item>)
    ensures [x] + a == [x] + b <==> a == b
  {
    assert ([x] + a)[1..] == a && ([x] + b)[1..] == b;
  }

  lemma ReadPlaceholder(t: string, d: seq<string>, params: Params)
    requires AtPlaceholder(t)
    requires forall x | x in Names(Pieces(t)) :: x in d
    ensures var n := NameRun(t[1..]);
            var v, u := Val(Lookup(params, t[1..1 + n])), t[1 + n..];
            && Pieces(t) == [Placeholder(t[1..1 + n])] + Pieces(u)
            && Names(Pieces(t)) == [t[1..1 + n]] + Names(Pieces(u))
            && Read(Render(Pieces(t), d), ValuesOf(d, params)) == [v] + Read(Render(Pieces(u), d), ValuesOf(d, params))
            && Expand(Pieces(t), params) == [v] + Expand(Pieces(u), params)
  {
    hide Read;
    AfterPlaceholder(t, d);
    var n := NameRun(t[1..]);
    var name, u := t[1..1 + n], t[1 + n..];
    assert Names(Pieces(t)) == [name] + Names(Pieces(u));
    assert Names(Pieces(t))[0] == name && name in d;
    ReadNumber(IndexOf(d, name) + 1, Render(Pieces(u), d), ValuesOf(d, params));
    assert Render(Pieces(t), d) == Number(d, name) + Render(Pieces(u), d);
  }

  lemma ReadLiteral(t: string, d: seq<string>, params: Params)
    requires t != "" && !AtPlaceholder(t) && !AtNumber(t)
    ensures var v, u := Ch(t[0]), t[1..];
            && Pieces(t) == [Literal(t[0])] + Pieces(u)
            && Names(Pieces(t)) == Names(Pieces(u))
            && Read(Render(Pieces(t), d), ValuesOf(d, params)) == [v] + Read(Render(Pieces(u), d), ValuesOf(d, params))
            && Expand(Pieces(t), params) == [v] + Expand(Pieces(u), params)
  {
    var c, u := t[0], t[1..];
    assert Pieces(t) == [Literal(c)] + Pieces(u);
    var tail := Render(Pieces(u), d);
    RenderHead(u, d);
    assert Render(Pieces(t), d) == [c] + tail;
    assert ([c] + tail)[1..] == tail;
    assert !AtNumber([c] + tail);
  }

  lemma ReadOwnNumber(t: string, d: seq<string>, params: Params)
    requires AtNumber(t)
    ensures !NoDollarDigit(t)
    ensures Read(Render(Pieces(t), d), ValuesOf(d, params)) != Expand(Pieces(t), params)
  {
    var c, u := t[0], t[1..];
    assert Pieces(t) == [Literal(c)] + Pieces(u);
    var tail := Render(Pieces(u), d);
    RenderHead(u, d);
    assert u[0] == t[1] && AtNumber([c] + tail);
    assert t[0] == '$' && IsDigit(t[1]);
    assert Expand(Pieces(t), params)[0] == Ch(c);
  }

  lemma ReadNothing(d: seq<string>, params: Params)
    ensures Read(Render(Pieces(""), d), ValuesOf(d, params)) == Expand(Pieces(""), params)
  {
  }

  /**
   Reading the numbered query gives each placeholder its value and leaves all other text alone,
   exactly when the template has no dollar sign of its own before a digit.
   */
  lemma {:induction false} ReadRendered(t: string, d: seq<string>, params: Params)
    requires forall x | x in Names(Pieces(t)) :: x in d
    ensures NoDollarDigit(t)
       <==> Read(Render(Pieces(t), d), ValuesOf(d, params)) == Expand(Pieces(t), params)
    decreases |t|
  {
    hide Read, Render, Expand, Pieces, Names, Lookup, ValuesOf, NameRun;
    if t == "" {
      ReadNothing(d, params);
    } else if AtNumber(t) {
      ReadOwnNumber(t, d, params);
    } else {
      var m, v := 1, Ch(t[0]);
      if AtPlaceholder(t) {
        ReadPlaceholder(t, d, params);
        m := 1 + NameRun(t[1..]);
        v := Val(Lookup(params, t[1..m]));
        assert forall k | 1 <= k < m :: t[k] == t[1..][k - 1];
        NoDollarDigitTail(t, m);
      } else {
        ReadLiteral(t, d, params);
        NoDollarDigitTail(t, 0);
      }
      var u := t[m..];
      assert forall x | x in Names(Pieces(u)) :: x in Names(Pieces(t));
      ReadRendered(u, d, params);
      SameTail(v, Read(Render(Pieces(u), d), ValuesOf(d, params)), Expand(Pieces(u), params));
    }
  }

  // ------------------------------------------------------------------ the numbering

  lemma {:induction false} IndexOfUnique(d: seq<string>, k: nat)
    requires k < |d| && d[k] !in d[..k]
    ensures IndexOf(d, d[k]) == k
  {
    if k > 0 {
      assert d[..k] == [d[0]] + d[1..][..k - 1];
      IndexOfUnique(d[1..], k - 1);
    }
  }

  lemma IndexOfExtended(d: seq<string>, more: seq<string>, name: string)
    requires name in d
    ensures IndexOf(d + more, name) == IndexOf(d, name)
  {
    var k := IndexOf(d, name);
    assert (d + more)[..k] == d[..k] && (d + more)[k] == name;
    IndexOfUnique(d + more, k);
  }

  /** Numbers follow the order in which the names first occur; equal names, and only those, share one. */
  lemma {:induction false} NumberingInOrder(names: seq<string>)
    ensures var d := FirstOccurrences(names);
            && (forall i, j | 0 <= i < j < |d| :: IndexOf(names, d[i]) < IndexOf(names, d[j]))
            && (forall k | 0 <= k < |d| :: IndexOf(d, d[k]) == k)
            && (forall a, b | a in names && b in names :: IndexOf(d, a) == IndexOf(d, b) <==> a == b)
  {
    hide IndexOf;
    var d := FirstOccurrences(names);
    forall k | 0 <= k < |d| ensures IndexOf(d, d[k]) == k {
      assert d[k] !in d[..k];
      IndexOfUnique(d, k);
    }
    if names != [] {
      var shorter, last := names[..|names| - 1], names[|names| - 1];
      NumberingInOrder(shorter);
      assert names == shorter + [last];
      forall i, j | 0 <= i < j < |d| ensures IndexOf(names, d[i]) < IndexOf(names, d[j]) {
        var e := FirstOccurrences(shorter);
        assert d[i] == e[i] && e[i] in shorter;
        IndexOfExtended(shorter, [last], d[i]);
        if j < |e| {
          assert d[j] == e[j];
          IndexOfExtended(shorter, [last], d[j]);
        } else {
          assert names[..|shorter|] == shorter;
          IndexOfUnique(names, |shorter|);
        }
      }
    }
  }

  // ------------------------------------------------------------------ the rewriting, as it runs

  datatype Query = Query(sql: string, values: seq<Value>)

  function Order(t: string): seq<string> { FirstOccurrences(Names(Pieces(t))) }

  ghost predicate AllBound(names: seq<string>, params: Params) {
    forall k | 0 <= k < |names| :: Bound(params, names[k])
  }

  ghost predicate FirstUnbound(names: seq<string>, params: Params, name: string) {
    exists k :: 0 <= k < |names| && names[k] == name && !Bound(params, name) && AllBound(names[..k], params)
  }

  lemma {:induction false} NamesAppend(a: seq<Piece>, b: seq<Piece>)
    ensures Names(a + b) == Names(a) + Names(b)
  {
    if a == [] {
      assert a + b == b;
    } else {
      assert (a + b)[1..] == a[1..] + b;
      NamesAppend(a[1..], b);
    }
  }

  lemma {:induction false} RenderAppend(a: seq<Piece>, b: seq<Piece>, d: seq<string>)
    ensures Render(a + b, d) == Render(a, d) + Render(b, d)
  {
    if a == [] {
      assert a + b == b;
    } else {
      assert (a + b)[1..] == a[1..] + b;
      RenderAppend(a[1..], b, d);
    }
  }

  lemma {:induction false} RenderExtended(ps: seq<Piece>, d: seq<string>, more: seq<string>)
    requires forall x | x in Names(ps) :: x in d
    ensures Render(ps, d + more) == Render(ps, d)
  {
    hide Decimal, IndexOf;
    if ps != [] {
      assert forall x | x in Names(ps[1..]) :: x in Names(ps);
      if ps[0].Placeholder? {
        assert Names(ps)[0] == ps[0].name;
        IndexOfExtended(d, more, ps[0].name);
      }
      RenderExtended(ps[1..], d, more);
    }
  }

  /** Everything the loop knows after the pieces `done`. */
  ghost predicate Rewritten(done: seq<Piece>, order: seq<string>, params: Params,
                            sql: string, values: seq<Value>, index: map<string, nat>)
  {
    && order == FirstOccurrences(Names(done))
    && AllBound(Names(done), params)
    && sql == Render(done, order)
    && values == ValuesOf(order, params)
    && Indexes(index, order)
  }

  /** The index map knows the names met so far, each under its number. */
  ghost predicate Indexes(index: map<string, nat>, order: seq<string>) {
    && (forall x :: x in index <==> x in order)
    && (forall x | x in order :: index[x] == IndexOf(order, x) + 1)
  }

  lemma RewriteLiteral(done: seq<Piece>, order: seq<string>, params: Params,
                       sql: string, values: seq<Value>, index: map<string, nat>, c: char)
    requires Rewritten(done, order, params, sql, values, index)
    ensures Rewritten(done + [Literal(c)], order, params, sql + [c], values, index)
  {
    var all := done + [Literal(c)];
    NamesAppend(done, [Literal(c)]);
    assert Names([Literal(c)]) == [];
    assert Names(all) == Names(done);
    RenderAppend(done, [Literal(c)], order);
    assert Render([Literal(c)], order) == [c];
  }

  lemma FirstOccurrencesSnoc(names: seq<string>, x: string)
    ensures FirstOccurrences(names + [x])
         == if x in names then FirstOccurrences(names) else FirstOccurrences(names) + [x]
  {
    assert (names + [x])[..|names|] == names;
  }

  lemma OnePlaceholder(name: string, d: seq<string>)
    requires name in d
    ensures Names([Placeholder(name)]) == [name]
    ensures Render([Placeholder(name)], d) == "$" + Decimal(IndexOf(d, name) + 1)
  {
    hide Decimal;
    assert Render([Placeholder(name)], d) == Number(d, name) + "";
  }

  lemma RewriteKnown(done: seq<Piece>, order: seq<string>, params: Params,
                     sql: string, values: seq<Value>, index: map<string, nat>, name: string)
    requires Rewritten(done, order, params, sql, values, index) && name in order
    ensures Rewritten(done + [Placeholder(name)], order, params, sql + ("$" + Decimal(index[name])), values, index)
  {
    hide Names, Render, FirstOccurrences, Decimal, IndexOf, Bound, Lookup, ValuesOf;
    var p := [Placeholder(name)];
    NamesAppend(done, p);
    OnePlaceholder(name, order);
    FirstOccurrencesSnoc(Names(done), name);
    assert name in Names(done);
    RenderAppend(done, p, order);
    var all := done + p;
    assert Names(all) == Names(done) + [name];
    assert order == FirstOccurrences(Names(all));
    assert AllBound(Names(all), params) by {
      var k :| 0 <= k < |Names(done)| && Names(done)[k] == name;
    }
    assert Render(all, order) == sql + ("$" + Decimal(index[name]));
  }

  lemma IndexNew(order: seq<string>, index: map<string, nat>, name: string)
    requires name !in index && Indexes(index, order)
    ensures name !in order && Indexes(index[name := |order| + 1], order + [name])
  {
    hide IndexOf;
    var order' := order + [name];
    assert order'[..|order|] == order;
    IndexOfUnique(order', |order|);
    forall x | x in order ensures IndexOf(order', x) == IndexOf(order, x) { IndexOfExtended(order, [name], x); }
  }

  lemma RenderNew(done: seq<Piece>, order: seq<string>, name: string)
    requires order == FirstOccurrences(Names(done)) && name !in order
    ensures Render(done + [Placeholder(name)], order + [name]) == Render(done, order) + ("$" + Decimal(|order| + 1))
  {
    hide Names, Render, FirstOccurrences, Decimal, IndexOf;
    var p, order' := [Placeholder(name)], order + [name];
    OnePlaceholder(name, order');
    RenderExtended(done, order, [name]);
    RenderAppend(done, p, order');
    assert order'[..|order|] == order;
    IndexOfUnique(order', |order|);
  }

  lemma ValuesNew(order: seq<string>, params: Params, name: string)
    ensures ValuesOf(order + [name], params) == ValuesOf(order, params) + [Lookup(params, name)]
  {
  }

  lemma BoundNew(names: seq<string>, params: Params, name: string)
    requires AllBound(names, params) && Bound(params, name)
    ensures AllBound(names + [name], params)
  {
  }

  lemma RewriteNew(done: seq<Piece>, order: seq<string>, params: Params,
                   sql: string, values: seq<Value>, index: map<string, nat>, name: string)
    requires Rewritten(done, order, params, sql, values, index) && name !in index && Bound(params, name)
    ensures Rewritten(done + [Placeholder(name)], order + [name], params, sql + ("$" + Decimal(|order| + 1)),
                      values + [Lookup(params, name)], index[name := |order| + 1])
  {
    hide Names, Render, FirstOccurrences, Decimal, IndexOf, Lookup, Bound, ValuesOf, AllBound, Indexes;
    IndexNew(order, index, name);
    NamesAppend(done, [Placeholder(name)]);
    OnePlaceholder(name, order + [name]);
    FirstOccurrencesSnoc(Names(done), name);
    RenderNew(done, order, name);
    ValuesNew(order, params, name);
    BoundNew(Names(done), params, name);
  }

  lemma PiecesStep(t: string, done: seq<Piece>, p: Piece, rest: string)
    requires t != ""
    requires AtPlaceholder(t) ==> p == Placeholder(t[1..1 + NameRun(t[1..])]) && rest == t[1 + NameRun(t[1..])..]
    requires !AtPlaceholder(t) ==> p == Literal(t[0]) && rest == t[1..]
    ensures done + Pieces(t) == (done + [p]) + Pieces(rest)
  {
    hide NameRun, AtPlaceholder, Pieces;
    if AtPlaceholder(t) { PlaceholderFirst(t); } else { LiteralFirst(t); }
    RegroupPieces(done, p, Pieces(rest));
  }

  lemma PlaceholderFirst(t: string)
    requires t != "" && AtPlaceholder(t)
    ensures Pieces(t) == [Placeholder(t[1..1 + NameRun(t[1..])])] + Pieces(t[1 + NameRun(t[1..])..])
  {
    hide NameRun;
    assert AtPlaceholder(t);
  }

  lemma LiteralFirst(t: string)
    requires t != "" && !AtPlaceholder(t)
    ensures Pieces(t) == [Literal(t[0])] + Pieces(t[1..])
  {
  }

  lemma RegroupPieces(a: seq<Piece>, p: Piece, b: seq<Piece>)
    ensures a + ([p] + b) == (a + [p]) + b
  {
  }

  lemma UnboundHere(done: seq<Piece>, name: string, rest: seq<Piece>, params: Params)
    requires AllBound(Names(done), params) && !Bound(params, name)
    ensures FirstUnbound(Names((done + [Placeholder(name)]) + rest), params, name)
    ensures !AllBound(Names((done + [Placeholder(name)]) + rest), params)
  {
    hide Bound;
    NamesAppend(done + [Placeholder(name)], rest);
    NamesAppend(done, [Placeholder(name)]);
    OnePlaceholder(name, [name]);
    var names := Names((done + [Placeholder(name)]) + rest);
    assert names == Names(done) + [name] + Names(rest);
    assert names[..|Names(done)|] == Names(done) && names[|Names(done)|] == name;
  }

  /**
   The scan with its growing values array and index map.  It succeeds exactly when every name is
   bound and otherwise reports the first that is not; the query it builds means what the template
   means exactly when the template has no dollar sign of its own before a digit.
   */
  method BuildParameterizedQuery(template: string, params: Params) returns (r: Result<Query, string>)
    ensures r.Success? <==> AllBound(Names(Pieces(template)), params)
    ensures r.Failure? ==> FirstUnbound(Names(Pieces(template)), params, r.error)
    ensures r.Success? ==>
      r.value == Query(Render(Pieces(template), Order(template)), ValuesOf(Order(template), params))
    ensures r.Success? ==>
      (NoDollarDigit(template) <==> Read(r.value.sql, r.value.values) == Expand(Pieces(template), params))
  {
    hide Pieces, Names, Render, FirstOccurrences, Rewritten, Read, Expand, Decimal, NameRun, Bound, Lookup;
    var values: seq<Value> := [];
    var index: map<string, nat> := map[];
    var sql := "";
    var i := 0;
    ghost var done: seq<Piece>, order: seq<string> := [], [];
    assert template[0..] == template;
    RewriteNothing(params);
    while i < |template|
      invariant i <= |template|
      invariant Pieces(template) == done + Pieces(template[i..])
      invariant Rewritten(done, order, params, sql, values, index)
    {
      var t := template[i..];
      RewrittenIndex(done, order, params, sql, values, index);
      if AtPlaceholder(t) {
        var n := NameRun(t[1..]);
        var name := t[1..1 + n];
        assert template[i + 1 + n..] == t[1 + n..];
        PiecesStep(t, done, Placeholder(name), t[1 + n..]);
        if name in index {
          RewriteKnown(done, order, params, sql, values, index, name);
          sql := sql + ("$" + Decimal(index[name]));
        } else {
          if !Bound(params, name) {
            UnboundHere(done, name, Pieces(t[1 + n..]), params);
            return Failure(name);
          }
          RewriteNew(done, order, params, sql, values, index, name);
          values := values + [Lookup(params, name)];
          sql := sql + ("$" + Decimal(|values|));
          index := index[name := |values|];
          order := order + [name];
        }
        done := done + [Placeholder(name)];
        i := i + 1 + n;
      } else {
        assert template[i + 1..] == t[1..];
        PiecesStep(t, done, Literal(t[0]), t[1..]);
        RewriteLiteral(done, order, params, sql, values, index, t[0]);
        sql := sql + [t[0]];
        done := done + [Literal(t[0])];
        i := i + 1;
      }
    }
    assert template[i..] == "";
    RewriteFinished(template, done, order, params, sql, values, index);
    ReadRendered(template, Order(template), params);
    return Success(Query(sql, values));
  }

  lemma RewriteNothing(params: Params)
    ensures Rewritten([], [], params, "", [], map[])
  {
  }

  lemma RewrittenIndex(done: seq<Piece>, order: seq<string>, params: Params,
                       sql: string, values: seq<Value>, index: map<string, nat>)
    requires Rewritten(done, order, params, sql, values, index)
    ensures |values| == |order| && AllBound(Names(done), params)
    ensures forall x :: x in index <==> x in order
  {
  }

  lemma RewriteFinished(t: string, done: seq<Piece>, order: seq<string>, params: Params,
                        sql: string, values: seq<Value>, index: map<string, nat>)
    requires Rewritten(done, order, params, sql, values, index) && Pieces(t) == done + Pieces("")
    ensures AllBound(Names(Pieces(t)), params)
    ensures sql == Render(Pieces(t), Order(t)) && values == ValuesOf(Order(t), params)
  {
    assert done + Pieces("") == done;
  }
}
