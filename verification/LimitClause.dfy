/**
 The row limit of a report query: `appendLimit` adds a trailing LIMIT clause or lowers the one
 that is there.
 */
module LimitClause {
  import opened Numbers
  import opened Wrappers
  import opened ReportQueries

  /** White space as `trim()` and `\s` see it. */
  predicate IsSpace(c: char) {
    || '\t' <= c <= '\r' || c == ' ' || c == '\U{00A0}' || c == '\U{1680}'
    || '\U{2000}' <= c <= '\U{200A}' || c == '\U{2028}' || c == '\U{2029}'
    || c == '\U{202F}' || c == '\U{205F}' || c == '\U{3000}' || c == '\U{FEFF}'
  }

  function TrimLeft(s: string): (t: string)
    ensures t == "" || !IsSpace(t[0])
  {
    if s != "" && IsSpace(s[0]) then TrimLeft(s[1..]) else s
  }

  /** Steps back from position e over characters of one class. */
  function BackOver(s: string, e: nat, p: char -> bool): (b: nat)
    requires e <= |s|
    ensures b <= e && (forall k | b <= k < e :: p(s[k])) && (b > 0 ==> !p(s[b - 1]))
  {
    if e > 0 && p(s[e - 1]) then BackOver(s, e - 1, p) else e
  }

  function TrimRight(s: string): string { s[..BackOver(s, |s|, IsSpace)] }

  /** `sql.trim().replace(/;\s*$/, '')` */
  function Clean(sql: string): string {
    var t := TrimRight(TrimLeft(sql));
    if t != "" && t[|t| - 1] == ';' then t[..|t| - 1] else t
  }

  predicate IsLimitWord(s: string) {
    && |s| == 5 && s[0] in "Ll" && s[1] in "Ii" && s[2] in "Mm" && s[3] in "Ii" && s[4] in "Tt"
  }

  /** A word boundary before position i, given that a letter stands at i. */
  predicate BoundaryBefore(s: string, i: nat)
    requires i <= |s|
  {
    i == 0 || !IsNameChar(s[i - 1])
  }

  /** Where `/\bLIMIT\s+(\d+)\s*$/i` matches, and the number it captures. */
  function FindLimit(s: string): Option<(nat, nat)> {
    var e := BackOver(s, |s|, IsSpace);
    var d := BackOver(s, e, IsDigit);
    var w := BackOver(s, d, IsSpace);
    if d < e && w < d && w >= 5 && IsLimitWord(s[w - 5..w]) && BoundaryBefore(s, w - 5)
    then Some((w - 5, ParseNat(s[d..e])))
    else None
  }

  /** The pattern written out: word boundary, LIMIT, white space, digits, white space, end. */
  ghost predicate LimitParts(s: string, start: nat, value: nat, d: nat, e: nat) {
    && start + 5 < d < e <= |s|
    && (start > 0 ==> !IsNameChar(s[start - 1])) && IsLimitWord(s[start..start + 5])
    && (forall k | start + 5 <= k < d :: IsSpace(s[k]))
    && (forall k | d <= k < e :: IsDigit(s[k])) && value == ParseNat(s[d..e])
    && (forall k | e <= k < |s| :: IsSpace(s[k]))
  }

  ghost predicate LimitMatches(s: string, start: nat, value: nat) {
    exists d: nat, e: nat :: LimitParts(s, start, value, d, e)
  }

  lemma {:induction false} BackOverIs(s: string, e: nat, p: char -> bool, b: nat)
    requires b <= e <= |s| && (forall k | b <= k < e :: p(s[k])) && (b > 0 ==> !p(s[b - 1]))
    ensures BackOver(s, e, p) == b
  {
    if b < e { BackOverIs(s, e - 1, p, b); }
  }

  lemma PartsFound(s: string, start: nat, value: nat, d: nat, e: nat)
    requires LimitParts(s, start, value, d, e)
    ensures FindLimit(s) == Some((start, value))
  {
    hide ParseNat, BackOver, IsNameChar;
    var w := start + 5;
    BackOverIs(s, |s|, IsSpace, e);
    assert IsSpace(s[d - 1]);
    BackOverIs(s, e, IsDigit, d);
    assert s[w - 1] == s[start..w][4] && !IsSpace(s[w - 1]);
    BackOverIs(s, d, IsSpace, w);
  }

  lemma FoundParts(s: string, start: nat, value: nat) returns (d: nat, e: nat)
    requires FindLimit(s) == Some((start, value))
    ensures LimitParts(s, start, value, d, e) && e == BackOver(s, |s|, IsSpace)
  {
    e := BackOver(s, |s|, IsSpace);
    d := BackOver(s, e, IsDigit);
  }

  /** The pattern matches at most one way, and `FindLimit` finds it. */
  lemma FindLimitIsMatch(s: string, start: nat, value: nat)
    ensures FindLimit(s) == Some((start, value)) <==> LimitMatches(s, start, value)
  {
    if LimitMatches(s, start, value) {
      var d: nat, e: nat :| LimitParts(s, start, value, d, e);
      PartsFound(s, start, value, d, e);
    }
    if FindLimit(s) == Some((start, value)) {
      var d, e := FoundParts(s, start, value);
    }
  }

  function AppendLimit(sql: string, limit: nat): string {
    var c := Clean(sql);
    match FindLimit(c)
    case None => c + (" LIMIT " + Decimal(limit))
    case Some((start, value)) =>
      if value <= limit then c else c[..start] + ("LIMIT " + Decimal(limit))
  }

  // ------------------------------------------------------------------ what the limit comes to

  /** The rows a query is limited to, if it ends in a LIMIT clause. */
  function Cap(sql: string): Option<nat> {
    match FindLimit(Clean(sql))
    case None => None
    case Some((_, value)) => Some(value)
  }

  /** The query without its trailing LIMIT clause. */
  function Body(sql: string): string {
    var c := Clean(sql);
    match FindLimit(c)
    case None => TrimRight(c)
    case Some((start, _)) => TrimRight(c[..start])
  }

  function Lowered(cap: Option<nat>, limit: nat): nat {
    match cap case None => limit case Some(v) => Min(v, limit)
  }

  lemma FoundWritten(p: string, n: nat)
    requires p == "" || !IsNameChar(p[|p| - 1])
    ensures FindLimit(p + ("LIMIT " + Decimal(n))) == Some((|p|, n))
  {
    hide Decimal, ParseNat, FindLimit;
    var ds := Decimal(n);
    var s := p + ("LIMIT " + ds);
    var d, e := |p| + 6, |s|;
    ParseDecimal(n);
    assert s[|p|..d - 1] == "LIMIT" && s[d..e] == ds && s[d - 1] == ' ';
    assert forall k | d <= k < e :: s[k] == ds[k - d];
    assert p != "" ==> s[|p| - 1] == p[|p| - 1];
    PartsFound(s, |p|, n, d, e);
  }

  lemma CleanStart(sql: string)
    ensures Clean(sql) == "" || !IsSpace(Clean(sql)[0])
  {
  }

  /** A text that starts with no space and ends in a digit is its own clean form. */
  lemma CleanIsSelf(s: string)
    requires s != "" && !IsSpace(s[0]) && IsDigit(s[|s| - 1])
    ensures Clean(s) == s
  {
    assert TrimLeft(s) == s;
    BackOverIs(s, |s|, IsSpace, |s|);
    assert s[..|s|] == s;
  }

  /** A written LIMIT clause is found again, in front of it the same text. */
  lemma WrittenLimit(p: string, n: nat)
    requires p == "" || !IsNameChar(p[|p| - 1])
    requires p == "" || !IsSpace(p[0])
    ensures Cap(p + ("LIMIT " + Decimal(n))) == Some(n)
    ensures Body(p + ("LIMIT " + Decimal(n))) == TrimRight(p)
  {
    var s := p + ("LIMIT " + Decimal(n));
    assert s[0] == if p == "" then 'L' else p[0];
    assert s[|s| - 1] == Decimal(n)[|Decimal(n)| - 1];
    CleanIsSelf(s);
    FoundWritten(p, n);
    assert s[..|p|] == p;
  }

  lemma FoundInPrefix(c: string, start: nat, value: nat, d: nat, e: nat)
    requires LimitParts(c, start, value, d, e)
    ensures FindLimit(c[..e]) == Some((start, value))
  {
    hide ParseNat, IsLimitWord, FindLimit, IsSpace, IsDigit, IsNameChar;
    var t := c[..e];
    assert t[start..start + 5] == c[start..start + 5] && t[d..e] == c[d..e];
    PartsFound(t, start, value, d, e);
  }

  lemma KeptLimit(c: string, start: nat, value: nat)
    requires c == "" || !IsSpace(c[0])
    requires FindLimit(c) == Some((start, value))
    ensures Cap(c) == Some(value) && Body(c) == TrimRight(c[..start])
  {
    hide FindLimit, ParseNat, IsLimitWord, IsSpace, BoundaryBefore;
    var d, e := FoundParts(c, start, value);
    FoundInPrefix(c, start, value, d, e);
    var t := c[..e];
    assert t[e - 1] == c[e - 1] && IsDigit(c[e - 1]);
    assert TrimLeft(c) == c;
    assert Clean(c) == t;
    assert t[..start] == c[..start];
  }

  lemma CleanSkipsSpace(x: string)
    ensures Clean(" " + x) == Clean(x)
  {
    assert (" " + x)[1..] == x;
  }

  /** The clause after a space is a clause at the end of the text with a space. */
  lemma SpacedLimit(c: string, n: nat)
    ensures c + (" LIMIT " + Decimal(n)) == (c + " ") + ("LIMIT " + Decimal(n))
  {
    hide Decimal;
    var d := Decimal(n);
    assert " LIMIT " == " " + "LIMIT ";
    assert " LIMIT " + d == " " + ("LIMIT " + d);
  }

  lemma LimitAlone(n: nat)
    ensures Cap(" " + ("LIMIT " + Decimal(n))) == Some(n) && Body(" " + ("LIMIT " + Decimal(n))) == TrimRight("")
  {
    hide Decimal, Cap, Body, Clean, FindLimit, TrimRight;
    var written := "LIMIT " + Decimal(n);
    WrittenLimit("", n);
    assert "" + written == written;
    CleanSkipsSpace(written);
    SameCleanSameLimit(" " + written, written);
  }

  lemma AppendedLimit(c: string, n: nat)
    requires c == "" || !IsSpace(c[0])
    ensures Cap(c + (" LIMIT " + Decimal(n))) == Some(n)
    ensures Body(c + (" LIMIT " + Decimal(n))) == TrimRight(c)
  {
    hide Decimal, Cap, Body, Clean, FindLimit, TrimRight, IsSpace;
    SpacedLimit(c, n);
    if c == "" {
      assert c + " " == " ";
      LimitAlone(n);
    } else {
      assert (c + " ")[0] == c[0];
      WrittenLimit(c + " ", n);
      TrimRightSpace(c);
    }
  }

  lemma SameCleanSameLimit(a: string, b: string)
    requires Clean(a) == Clean(b)
    ensures Cap(a) == Cap(b) && Body(a) == Body(b)
  {
  }

  lemma {:induction false} BackOverPrefix(s: string, t: string, e: nat, p: char -> bool)
    requires e <= |s| && e <= |t| && s[..e] == t[..e]
    ensures BackOver(s, e, p) == BackOver(t, e, p)
  {
    if e > 0 {
      assert s[e - 1] == s[..e][e - 1] == t[..e][e - 1] == t[e - 1];
      assert s[..e - 1] == s[..e][..e - 1] == t[..e][..e - 1] == t[..e - 1];
      BackOverPrefix(s, t, e - 1, p);
    }
  }

  lemma TrimRightSpace(c: string)
    ensures TrimRight(c + " ") == TrimRight(c)
  {
    var s := c + " ";
    assert s[|c|] == ' ';
    assert BackOver(s, |s|, IsSpace) == BackOver(s, |c|, IsSpace);
    assert s[..|c|] == c[..|c|];
    BackOverPrefix(s, c, |c|, IsSpace);
  }

  /**
   After limiting, the query is capped at the smaller of the limit and its own trailing LIMIT, and
   what stands before that clause is untouched.
   */
  lemma LimitIsMinimum(sql: string, limit: nat)
    ensures Cap(AppendLimit(sql, limit)) == Some(Lowered(Cap(sql), limit))
    ensures Body(AppendLimit(sql, limit)) == Body(sql)
  {
    hide Decimal, Clean, FindLimit, TrimRight, IsSpace, IsNameChar;
    var c := Clean(sql);
    CleanStart(sql);
    match FindLimit(c)
    case None =>
      AppendedLimit(c, limit);
    case Some((start, value)) =>
      var d, e := FoundParts(c, start, value);
      if value <= limit {
        KeptLimit(c, start, value);
      } else {
        assert start > 0 ==> c[..start][0] == c[0] && c[..start][start - 1] == c[start - 1];
        WrittenLimit(c[..start], limit);
      }
  }

  /** Limits compose: a then b caps at the least of a, b and the query's own LIMIT. */
  lemma LimitsCompose(sql: string, a: nat, b: nat)
    ensures Cap(AppendLimit(AppendLimit(sql, a), b)) == Some(Min(Lowered(Cap(sql), a), b))
    ensures Body(AppendLimit(AppendLimit(sql, a), b)) == Body(sql)
  {
    LimitIsMinimum(sql, a);
    LimitIsMinimum(AppendLimit(sql, a), b);
  }

  // ------------------------------------------------------------------ the text that is sent

  /** White space by its code points. */
  lemma SpaceCodes(c: char)
    ensures var n := c as int;
      var listed := n in {9, 10, 11, 12, 13, 32, 160, 5760, 8232, 8233, 8239, 8287, 12288, 65279};
      IsSpace(c) <==> listed || 8192 <= n <= 8202
  {
  }

  function Upper(c: char): char { if 'a' <= c <= 'z' then (c as int - 32) as char else c }

  /** The word LIMIT in any mixture of cases. */
  lemma LimitWordInAnyCase(s: string)
    ensures IsLimitWord(s) <==> |s| == 5 && forall k | 0 <= k < 5 :: Upper(s[k]) == "LIMIT"[k]
  {
    if |s| == 5 && forall k | 0 <= k < 5 :: Upper(s[k]) == "LIMIT"[k] {
      assert Upper(s[0]) == 'L' && Upper(s[1]) == 'I' && Upper(s[2]) == 'M' && Upper(s[3]) == 'I' && Upper(s[4]) == 'T';
    }
  }

  predicate AllSpace(s: string) { forall k | 0 <= k < |s| :: IsSpace(s[k]) }

  /**
   c is a text within white space: with one semicolon after it, or itself ending in neither white space
   nor a semicolon.
   */
  predicate Surrounds(u: string, c: string, semicolon: bool, v: string) {
    && AllSpace(u) && AllSpace(v) && (c != "" ==> !IsSpace(c[0]))
    && (!semicolon && c != "" ==> !IsSpace(c[|c| - 1]) && c[|c| - 1] != ';')
  }

  function Joined(u: string, c: string, semicolon: bool, v: string): string {
    u + (c + (if semicolon then ";" else "") + v)
  }

  lemma {:induction false} TrimLeftSpaces(u: string, x: string)
    requires AllSpace(u) && (x != "" ==> !IsSpace(x[0]))
    ensures TrimLeft(u + x) == x
  {
    if u == "" {
      assert u + x == x;
    } else {
      assert (u + x)[1..] == u[1..] + x;
      TrimLeftSpaces(u[1..], x);
    }
  }

  lemma TrimRightSpaces(x: string, v: string)
    requires AllSpace(v) && (x != "" ==> !IsSpace(x[|x| - 1]))
    ensures TrimRight(x + v) == x
  {
    var s := x + v;
    assert forall k | |x| <= k < |s| :: s[k] == v[k - |x|];
    BackOverIs(s, |s|, IsSpace, |x|);
    assert s[..|x|] == x;
  }

  /** Cleaning takes away the white space around a text, and one semicolon after it. */
  lemma CleanOfText(u: string, c: string, semicolon: bool, v: string)
    requires Surrounds(u, c, semicolon, v)
    ensures Clean(Joined(u, c, semicolon, v)) == c
  {
    hide TrimRight;
    var x := c + if semicolon then ";" else "";
    var sql := Joined(u, c, semicolon, v);
    if x == "" {
      assert c == "" && sql == (u + v) + "";
      assert AllSpace(u + v);
      TrimLeftSpaces(u + v, "");
      TrimRightSpaces("", "");
      assert "" + "" == "";
    } else {
      assert (x + v)[0] == x[0] && x[0] == if c == "" then ';' else c[0];
      TrimLeftSpaces(u, x + v);
      assert x[|x| - 1] == if semicolon then ';' else c[|c| - 1];
      TrimRightSpaces(x, v);
      if semicolon { assert x[..|x| - 1] == c; } else { assert x == c; }
    }
  }

  /** A text without white space in front is some text, perhaps a semicolon, and white space. */
  lemma EndOfText(t: string) returns (c: string, semicolon: bool, v: string)
    requires t != "" ==> !IsSpace(t[0])
    ensures Surrounds("", c, semicolon, v) && t == c + (if semicolon then ";" else "") + v
  {
    hide IsSpace;
    var e := BackOver(t, |t|, IsSpace);
    v := t[e..];
    semicolon := e > 0 && t[e - 1] == ';';
    c := if semicolon then t[..e - 1] else t[..e];
    assert t == t[..e] + v;
    if semicolon { assert t[..e] == c + ";"; } else { assert c + "" == c; }
    assert AllSpace(v);
    assert c != "" ==> c[0] == t[0] && c[|c| - 1] == t[|c| - 1];
  }

  /** Every text is some text surrounded so. */
  lemma EveryTextIsSurrounded(sql: string) returns (u: string, c: string, semicolon: bool, v: string)
    ensures Surrounds(u, c, semicolon, v) && sql == Joined(u, c, semicolon, v)
  {
    hide IsSpace, BackOver;
    u := TrimLeftTakes(sql);
    c, semicolon, v := EndOfText(TrimLeft(sql));
  }

  lemma {:induction false} TrimLeftTakes(s: string) returns (u: string)
    ensures AllSpace(u) && s == u + TrimLeft(s)
  {
    u := "";
    if s != "" && IsSpace(s[0]) {
      var rest := TrimLeftTakes(s[1..]);
      u := [s[0]] + rest;
      assert s == [s[0]] + s[1..];
    }
  }

  /** The limited form of a text: its own clause when that is as low, else the clause replaced, else one added. */
  ghost predicate LimitedText(c: string, limit: nat, out: string) {
    && (forall start: nat, value: nat | LimitMatches(c, start, value) ::
          start <= |c| && out == if value <= limit then c else c[..start] + ("LIMIT " + Decimal(limit)))
    && ((forall start: nat, value: nat :: !LimitMatches(c, start, value)) ==> out == c + (" LIMIT " + Decimal(limit)))
  }

  /** The query that is sent, for a text with or without a semicolon and with any white space around it. */
  lemma AppendLimitText(u: string, c: string, semicolon: bool, v: string, limit: nat)
    requires Surrounds(u, c, semicolon, v)
    ensures LimitedText(c, limit, AppendLimit(Joined(u, c, semicolon, v), limit))
  {
    hide Decimal, Clean, Surrounds, Joined;
    CleanOfText(u, c, semicolon, v);
    var sql := Joined(u, c, semicolon, v);
    forall start: nat, value: nat | LimitMatches(c, start, value)
      ensures FindLimit(c) == Some((start, value)) && start <= |c|
    {
      FindLimitIsMatch(c, start, value);
    }
    match FindLimit(c)
    case None =>
    case Some((start, value)) =>
      FindLimitIsMatch(c, start, value);
      assert LimitMatches(c, start, value);
  }

  /** A written clause with a semicolon after it: the lower of the two limits, and the semicolon is gone. */
  lemma SemicolonAfterLimit(p: string, m: nat, limit: nat)
    requires p == "" || (!IsNameChar(p[|p| - 1]) && !IsSpace(p[0]))
    ensures AppendLimit(p + ("LIMIT " + Decimal(m)) + ";", limit) ==
      p + ("LIMIT " + Decimal(if m <= limit then m else limit))
  {
    hide Decimal, FindLimit, Clean;
    var c := p + ("LIMIT " + Decimal(m));
    FoundWritten(p, m);
    assert c[0] == if p == "" then 'L' else p[0];
    CleanOfText("", c, true, "");
    assert Joined("", c, true, "") == c + ";";
    assert c[..|p|] == p;
  }

  // ------------------------------------------------------------------ parameter values survive

  /** The values a numbered query uses, in order. */
  function Values(items: seq<Item>): seq<Item> {
    if items == [] then []
    else (if items[0].Ch? then [] else [items[0]]) + Values(items[1..])
  }

  lemma {:induction false} ValuesAppend(a: seq<Item>, b: seq<Item>)
    ensures Values(a + b) == Values(a) + Values(b)
  {
    if a == [] {
      assert a + b == b;
    } else {
      assert (a + b)[1..] == a[1..] + b;
      ValuesAppend(a[1..], b);
    }
  }

  lemma {:induction false} DigitRunBefore(x: string, y: string)
    requires y == "" || !IsDigit(y[0])
    ensures DigitRun(x + y) == DigitRun(x)
  {
    if x == "" {
      assert x + y == y;
    } else {
      assert (x + y)[1..] == x[1..] + y;
      DigitRunBefore(x[1..], y);
    }
  }

  lemma ReadAtNumber(s: string, vs: seq<Value>)
    requires AtNumber(s)
    ensures var n := DigitRun(s[1..]);
            Read(s, vs) == [Resolve(ParseNat(s[1..][..n]), vs)] + Read(s[1 + n..], vs)
  {
  }

  lemma ReadNumberStep(x: string, y: string, vs: seq<Value>)
    requires AtNumber(x) && (y == "" || !IsDigit(y[0]))
    ensures var n := DigitRun(x[1..]);
            && Read(x + y, vs) == [Resolve(ParseNat(x[1..][..n]), vs)] + Read(x[1 + n..] + y, vs)
            && Read(x, vs) == [Resolve(ParseNat(x[1..][..n]), vs)] + Read(x[1 + n..], vs)
  {
    hide Read, ParseNat, Resolve, DigitRun;
    var s, n := x + y, DigitRun(x[1..]);
    assert s[1..] == x[1..] + y;
    DigitRunBefore(x[1..], y);
    assert s[1..][..n] == x[1..][..n] && s[1 + n..] == x[1 + n..] + y;
    ReadAtNumber(x, vs);
    ReadAtNumber(s, vs);
  }

  lemma ReadCharStep(x: string, y: string, vs: seq<Value>)
    requires x != "" && !AtNumber(x) && (y == "" || !IsDigit(y[0]))
    ensures Read(x + y, vs) == [Ch(x[0])] + Read(x[1..] + y, vs)
    ensures Read(x, vs) == [Ch(x[0])] + Read(x[1..], vs)
  {
    var s := x + y;
    assert s[1..] == x[1..] + y;
    assert |s| > 1 ==> s[1] == if |x| > 1 then x[1] else y[0];
  }

  /** Either way one item is read off the front, and the rest is shorter. */
  lemma ReadFront(x: string, y: string, vs: seq<Value>) returns (item: Item, rest: string)
    requires x != "" && (y == "" || !IsDigit(y[0]))
    ensures |rest| < |x|
    ensures Read(x + y, vs) == [item] + Read(rest + y, vs) && Read(x, vs) == [item] + Read(rest, vs)
  {
    hide Read, DigitRun, ParseNat, Resolve;
    if AtNumber(x) {
      ReadNumberStep(x, y, vs);
      var n := DigitRun(x[1..]);
      item, rest := Resolve(ParseNat(x[1..][..n]), vs), x[1 + n..];
    } else {
      ReadCharStep(x, y, vs);
      item, rest := Ch(x[0]), x[1..];
    }
  }

  lemma ReadEmpty(vs: seq<Value>)
    ensures Read("", vs) == []
  {
  }

  /** Text that does not begin with a digit can be read apart from what precedes it. */
  lemma {:induction false} ReadAppend(x: string, y: string, vs: seq<Value>)
    requires y == "" || !IsDigit(y[0])
    ensures Read(x + y, vs) == Read(x, vs) + Read(y, vs)
    decreases |x|
  {
    hide Read;
    if x == "" {
      assert x + y == y;
      ReadEmpty(vs);
    } else {
      var item, rest := ReadFront(x, y, vs);
      ReadAppend(rest, y, vs);
    }
  }

  lemma {:induction false} NoDollarNoValues(x: string, vs: seq<Value>)
    requires '$' !in x
    ensures Values(Read(x, vs)) == []
  {
    if x != "" {
      assert x[0] != '$';
      NoDollarNoValues(x[1..], vs);
      assert ([Ch(x[0])] + Read(x[1..], vs))[1..] == Read(x[1..], vs);
    }
  }

  lemma EndWithoutValues(x: string, y: string, vs: seq<Value>)
    requires '$' !in y && (y == "" || !IsDigit(y[0]))
    ensures Values(Read(x + y, vs)) == Values(Read(x, vs))
  {
    ReadAppend(x, y, vs);
    ValuesAppend(Read(x, vs), Read(y, vs));
    NoDollarNoValues(y, vs);
  }

  lemma {:induction false} TrimLeftKeepsValues(s: string, vs: seq<Value>)
    ensures Values(Read(TrimLeft(s), vs)) == Values(Read(s, vs))
  {
    if s != "" && IsSpace(s[0]) {
      TrimLeftKeepsValues(s[1..], vs);
      assert ([Ch(s[0])] + Read(s[1..], vs))[1..] == Read(s[1..], vs);
    }
  }

  lemma CleanKeepsValues(sql: string, vs: seq<Value>)
    ensures Values(Read(Clean(sql), vs)) == Values(Read(sql, vs))
  {
    hide Read, Values, TrimLeft, BackOver;
    TrimLeftKeepsValues(sql, vs);
    var u := TrimLeft(sql);
    var e := BackOver(u, |u|, IsSpace);
    assert u == u[..e] + u[e..];
    assert forall k | 0 <= k < |u[e..]| :: IsSpace(u[e..][k]);
    EndWithoutValues(u[..e], u[e..], vs);
    var t := u[..e];
    if t != "" && t[|t| - 1] == ';' {
      assert t == t[..|t| - 1] + ";";
      EndWithoutValues(t[..|t| - 1], ";", vs);
    }
  }

  lemma ClauseHasNoDollar(c: string, start: nat, value: nat)
    requires FindLimit(c) == Some((start, value))
    ensures start < |c| && '$' !in c[start..] && !IsDigit(c[start..][0])
  {
    hide FindLimit, ParseNat;
    var d, e := FoundParts(c, start, value);
    var y, word := c[start..], c[start..start + 5];
    assert forall k | 0 <= k < 5 :: y[k] == word[k];
    forall k | 0 <= k < |y| ensures y[k] != '$' {
      assert y[k] == c[start + k];
    }
  }

  /** Limiting a numbered query neither drops, adds nor reorders a parameter value. */
  lemma LimitKeepsValues(sql: string, limit: nat, vs: seq<Value>)
    ensures Values(Read(AppendLimit(sql, limit), vs)) == Values(Read(sql, vs))
  {
    hide Read, Values, FindLimit, Clean, Decimal;
    CleanKeepsValues(sql, vs);
    var c := Clean(sql);
    match FindLimit(c)
    case None =>
      EndWithoutValues(c, " LIMIT " + Decimal(limit), vs);
    case Some((start, value)) =>
      if value > limit {
        ClauseHasNoDollar(c, start, value);
        EndWithoutValues(c[..start], "LIMIT " + Decimal(limit), vs);
        assert c == c[..start] + c[start..];
        EndWithoutValues(c[..start], c[start..], vs);
      }
  }
}