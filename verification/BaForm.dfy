/**
 The Ba purchase declaration (VUK general communique 396) as XML text, and a reader for it.

 `BuildBaXml` prints the form the way the builder's templates do.  The reader knows nothing of
 those templates: it splits any text into tags and character data, undoes the predefined
 entities (section 4.6 of XML 1.0), and reads the fields by element name.  Amounts are kurus.
 */
module BaForm {
  import opened Numbers
  import opened Wrappers

  datatype LineItem = LineItem(vkn: string, title: string, base: int, invoices: nat)

  datatype Form = Form(vkn: string, title: string, year: nat, month: nat,
                       items: seq<LineItem>, totalBase: int, totalInvoices: nat)

  // ------------------------------------------------------------------ escaping

  /** `s.replace(/c/g, txt)` */
  function ReplaceAll(s: string, c: char, txt: string): string {
    if s == "" then ""
    else (if s[0] == c then txt else [s[0]]) + ReplaceAll(s[1..], c, txt)
  }

  /** The five replacements, one after the other, ampersand first. */
  function EscapeXml(s: string): string {
    ReplaceAll(
      ReplaceAll(
        ReplaceAll(ReplaceAll(ReplaceAll(s, '&', "&amp;"), '<', "&lt;"), '>', "&gt;"), '"', "&quot;"), '\'', "&apos;")
  }

  function Entity(c: char): (e: string)
    ensures |e| > 0 && '<' !in e
  {
    match c
    case '&' => "&amp;"
    case '<' => "&lt;"
    case '>' => "&gt;"
    case '"' => "&quot;"
    case '\'' => "&apos;"
    case _ => [c]
  }

  /** One entity per character, in one pass. */
  function EscapeEach(s: string): string {
    if s == "" then "" else Entity(s[0]) + EscapeEach(s[1..])
  }

  lemma {:induction false} ReplaceAllAppend(a: string, b: string, c: char, txt: string)
    ensures ReplaceAll(a + b, c, txt) == ReplaceAll(a, c, txt) + ReplaceAll(b, c, txt)
  {
    if a == "" {
      assert a + b == b;
    } else {
      assert (a + b)[1..] == a[1..] + b;
      ReplaceAllAppend(a[1..], b, c, txt);
    }
  }

  lemma {:induction false} ReplaceAllAbsent(s: string, c: char, txt: string)
    requires c !in s
    ensures ReplaceAll(s, c, txt) == s
  {
    if s != "" {
      ReplaceAllAbsent(s[1..], c, txt);
      assert s == [s[0]] + s[1..];
    }
  }

  lemma ReplaceAllOne(x: char, c: char, txt: string)
    ensures ReplaceAll([x], c, txt) == if x == c then txt else [x]
  {
    assert [x][1..] == "";
  }

  lemma EscapeXmlAppend(a: string, b: string)
    ensures EscapeXml(a + b) == EscapeXml(a) + EscapeXml(b)
  {
    ReplaceAllAppend(a, b, '&', "&amp;");
    var a1, b1 := ReplaceAll(a, '&', "&amp;"), ReplaceAll(b, '&', "&amp;");
    ReplaceAllAppend(a1, b1, '<', "&lt;");
    var a2, b2 := ReplaceAll(a1, '<', "&lt;"), ReplaceAll(b1, '<', "&lt;");
    ReplaceAllAppend(a2, b2, '>', "&gt;");
    var a3, b3 := ReplaceAll(a2, '>', "&gt;"), ReplaceAll(b2, '>', "&gt;");
    ReplaceAllAppend(a3, b3, '"', "&quot;");
    ReplaceAllAppend(ReplaceAll(a3, '"', "&quot;"), ReplaceAll(b3, '"', "&quot;"), '\'', "&apos;");
  }

  /** Text without a bracket or quote passes through the last four replacements. */
  lemma LastFourPlain(s: string)
    requires '<' !in s && '>' !in s && '"' !in s && '\'' !in s
    ensures ReplaceAll(ReplaceAll(ReplaceAll(ReplaceAll(s, '<', "&lt;"), '>', "&gt;"), '"', "&quot;"), '\'',
      "&apos;") == s
  {
    ReplaceAllAbsent(s, '<', "&lt;");
    ReplaceAllAbsent(s, '>', "&gt;");
    ReplaceAllAbsent(s, '"', "&quot;");
    ReplaceAllAbsent(s, '\'', "&apos;");
  }

  lemma LastThreePlain(s: string)
    requires '>' !in s && '"' !in s && '\'' !in s
    ensures ReplaceAll(ReplaceAll(ReplaceAll(s, '>', "&gt;"), '"', "&quot;"), '\'', "&apos;") == s
  {
    ReplaceAllAbsent(s, '>', "&gt;");
    ReplaceAllAbsent(s, '"', "&quot;");
    ReplaceAllAbsent(s, '\'', "&apos;");
  }

  lemma LastTwoPlain(s: string)
    requires '"' !in s && '\'' !in s
    ensures ReplaceAll(ReplaceAll(s, '"', "&quot;"), '\'', "&apos;") == s
  {
    ReplaceAllAbsent(s, '"', "&quot;");
    ReplaceAllAbsent(s, '\'', "&apos;");
  }

  /** On one character no later replacement touches what an earlier one produced. */
  lemma EscapeXmlOne(c: char)
    ensures EscapeXml([c]) == Entity(c)
  {
    ReplaceAllOne(c, '&', "&amp;");
    if c == '&' {
      LastFourPlain("&amp;");
    } else {
      ReplaceAllOne(c, '<', "&lt;");
      if c == '<' {
        LastThreePlain("&lt;");
      } else {
        ReplaceAllOne(c, '>', "&gt;");
        if c == '>' {
          LastTwoPlain("&gt;");
        } else {
          ReplaceAllOne(c, '"', "&quot;");
          if c == '"' {
            ReplaceAllAbsent("&quot;", '\'', "&apos;");
          } else {
            ReplaceAllOne(c, '\'', "&apos;");
          }
        }
      }
    }
  }

  /** The chain of five replacements is one per-character map, on every string. */
  lemma {:induction false} EscapeXmlIsPerCharacter(s: string)
    ensures EscapeXml(s) == EscapeEach(s)
  {
    if s != "" {
      assert s == [s[0]] + s[1..];
      EscapeXmlAppend([s[0]], s[1..]);
      EscapeXmlOne(s[0]);
      EscapeXmlIsPerCharacter(s[1..]);
    }
  }

  /** Reading character data back: a predefined entity stands for its character. */
  function Unescape(s: string): (t: string)
    ensures s == "" <==> t == ""
    decreases |s|
  {
    if s == "" then ""
    else if "&amp;" <= s then "&" + Unescape(s[5..])
    else if "&lt;" <= s then "<" + Unescape(s[4..])
    else if "&gt;" <= s then ">" + Unescape(s[4..])
    else if "&quot;" <= s then "\"" + Unescape(s[6..])
    else if "&apos;" <= s then "'" + Unescape(s[6..])
    else [s[0]] + Unescape(s[1..])
  }

  lemma UnescapeAmpersand(rest: string)
    ensures Unescape("&amp;" + rest) == "&" + Unescape(rest)
  {
    var s := "&amp;" + rest;
    assert s[5..] == rest && "&amp;" <= s;
  }

  lemma UnescapeLess(rest: string)
    ensures Unescape("&lt;" + rest) == "<" + Unescape(rest)
  {
    var s := "&lt;" + rest;
    assert s[4..] == rest && "&lt;" <= s;
    assert s[1] == 'l';
  }

  lemma UnescapeGreater(rest: string)
    ensures Unescape("&gt;" + rest) == ">" + Unescape(rest)
  {
    var s := "&gt;" + rest;
    assert s[4..] == rest && "&gt;" <= s;
    assert s[1] == 'g';
  }

  lemma UnescapeQuote(rest: string)
    ensures Unescape("&quot;" + rest) == "\"" + Unescape(rest)
  {
    var s := "&quot;" + rest;
    assert s[6..] == rest && "&quot;" <= s;
    assert s[1] == 'q';
  }

  lemma UnescapeApostrophe(rest: string)
    ensures Unescape("&apos;" + rest) == "'" + Unescape(rest)
  {
    var s := "&apos;" + rest;
    assert s[6..] == rest && "&apos;" <= s;
    assert s[1] == 'a' && s[2] == 'p';
  }

  lemma UnescapeOther(c: char, rest: string)
    requires c != '&'
    ensures Unescape([c] + rest) == [c] + Unescape(rest)
  {
    var s := [c] + rest;
    assert s[0] == c && s[1..] == rest;
  }

  lemma UnescapeEntity(c: char, rest: string)
    ensures Unescape(Entity(c) + rest) == [c] + Unescape(rest)
  {
    hide Unescape;
    match c
    case '&' => UnescapeAmpersand(rest);
    case '<' => UnescapeLess(rest);
    case '>' => UnescapeGreater(rest);
    case '"' => UnescapeQuote(rest);
    case '\'' => UnescapeApostrophe(rest);
    case _ => UnescapeOther(c, rest);
  }

  lemma {:induction false} UnescapeEscaped(s: string)
    ensures Unescape(EscapeXml(s)) == s
    ensures '<' !in EscapeXml(s)
    ensures s != "" ==> EscapeXml(s) != ""
  {
    EscapeXmlIsPerCharacter(s);
    if s != "" {
      EscapeXmlIsPerCharacter(s[1..]);
      UnescapeEscaped(s[1..]);
      UnescapeEntity(s[0], EscapeEach(s[1..]));
    }
  }

  // ------------------------------------------------------------------ numerals

  /** `toFixed(2)` of an amount given in kurus. */
  function Fixed2(k: int): string {
    (if k < 0 then "-" else "") + Decimal(Abs(k) / 100) + "." + PadTwo(Abs(k) % 100)
  }

  /** The first position of c, or the end of the text. */
  function Find(s: string, c: char): (i: nat)
    ensures i <= |s| && c !in s[..i] && (i < |s| ==> s[i] == c)
  {
    if s == "" then 0
    else if s[0] == c then 0
    else
      var i := Find(s[1..], c) + 1;
      assert s[..i] == [s[0]] + s[1..][..i - 1];
      i
  }

  lemma {:induction false} FindAt(s: string, c: char, i: nat)
    requires i <= |s| && c !in s[..i] && (i < |s| ==> s[i] == c)
    ensures Find(s, c) == i
  {
    if i > 0 {
      assert s[..i] == [s[0]] + s[1..][..i - 1];
      FindAt(s[1..], c, i - 1);
    }
  }

  function ReadNat(s: string): Option<nat> {
    if s != "" && AllDigits(s) then Some(ParseNat(s)) else None
  }

  function ReadPeriod(s: string): Option<(nat, nat)> {
    var i := Find(s, '-');
    if i == |s| then None
    else
      match (ReadNat(s[..i]), ReadNat(s[i + 1..]))
      case (Some(y), Some(m)) => Some((y, m))
      case _ => None
  }

  function ReadUnsigned2(s: string): Option<nat> {
    var i := Find(s, '.');
    if i == |s| || |s| != i + 3 then None
    else
      match (ReadNat(s[..i]), ReadNat(s[i + 1..]))
      case (Some(w), Some(f)) => Some(100 * w + f)
      case _ => None
  }

  function ReadFixed2(s: string): Option<int> {
    if s != "" && s[0] == '-' then
      match ReadUnsigned2(s[1..])
      case Some(k) => Some(-(k as int))
      case None => None
    else
      match ReadUnsigned2(s)
      case Some(k) => Some(k)
      case None => None
  }

  lemma ReadDecimal(n: nat)
    ensures ReadNat(Decimal(n)) == Some(n)
  {
    ParseDecimal(n);
  }

  lemma ReadPadTwo(n: nat)
    ensures ReadNat(PadTwo(n)) == Some(n)
    ensures n < 100 ==> |PadTwo(n)| == 2
  {
    ParseDecimal(n);
    var d := Decimal(n);
    if |d| < 2 {
      assert d[..0] == "" && ("0" + d)[..1] == "0" && "0"[..0] == "";
      assert ParseNat("0") == 0;
    }
    if n < 100 && n >= 10 {
      assert |Decimal(n / 10)| == 1;
    }
  }

  lemma PeriodRoundTrip(year: nat, month: nat)
    ensures ReadPeriod(YearMonth(year, month)) == Some((year, month))
  {
    var y, m := Decimal(year), PadTwo(month);
    var p := YearMonth(year, month);
    assert p[..|y|] == y && p[|y| + 1..] == m;
    FindAt(p, '-', |y|);
    ParseDecimal(year);
    ReadPadTwo(month);
  }

  lemma ReadJoined(w: string, f: string)
    requires '.' !in w && |f| == 2 && ReadNat(w).Some? && ReadNat(f).Some?
    ensures ReadUnsigned2(w + "." + f) == Some(100 * ReadNat(w).value + ReadNat(f).value)
  {
    hide ReadNat;
    var u := w + "." + f;
    assert u[..|w|] == w && u[|w| + 1..] == f;
    FindAt(u, '.', |w|);
  }

  lemma Unsigned2RoundTrip(n: nat)
    ensures ReadUnsigned2(Decimal(n / 100) + "." + PadTwo(n % 100)) == Some(n)
  {
    hide ReadUnsigned2, ReadNat, Decimal, PadTwo;
    ReadDecimal(n / 100);
    ReadPadTwo(n % 100);
    ReadJoined(Decimal(n / 100), PadTwo(n % 100));
  }

  lemma ReadSigned(u: string, n: nat)
    requires u != "" && u[0] != '-' && ReadUnsigned2(u) == Some(n)
    ensures ReadFixed2("" + u) == Some(n) && ReadFixed2("-" + u) == Some(-(n as int))
  {
    hide ReadUnsigned2;
    assert "" + u == u && ("-" + u)[1..] == u;
  }

  lemma Fixed2RoundTrip(k: int)
    ensures ReadFixed2(Fixed2(k)) == Some(k)
  {
    hide ReadFixed2, ReadUnsigned2, Decimal, PadTwo;
    var n := Abs(k);
    var w, f := Decimal(n / 100), PadTwo(n % 100);
    var u := w + "." + f;
    Unsigned2RoundTrip(n);
    assert u[0] == w[0] && IsDigit(w[0]);
    ReadSigned(u, n);
    var sign := if k < 0 then "-" else "";
    assert Fixed2(k) == sign + u by {
      assert sign + w + "." + f == sign + (w + "." + f);
    }
  }

  // ------------------------------------------------------------------ the printer

  /** What a printed line holds besides its indentation. */
  datatype Core =
    | Markup(name: string)
    | Field(name: string, text: string)
    | Blank

  datatype Line = Line(indent: nat, core: Core)

  function CoreText(c: Core): string {
    match c
    case Markup(n) => "<" + n + ">"
    case Field(n, t) => ("<" + n + ">") + (t + ("<" + ("/" + n) + ">"))
    case Blank => ""
  }

  function Spaces(n: nat): string { seq(n, _ => ' ') }

  function LineText(l: Line): string { Spaces(l.indent) + CoreText(l.core) }

  /** `join('\n')` over the lines of the template literals. */
  function JoinLines(lines: seq<Line>): string {
    if lines == [] then ""
    else if |lines| == 1 then LineText(lines[0])
    else LineText(lines[0]) + ("\n" + JoinLines(lines[1..]))
  }

  function ItemLines(item: LineItem): seq<Line> {
    [ Line(4, Markup("Alis")),
      Line(6, Field("SaticiVKN", EscapeXml(item.vkn))),
      Line(6, Field("SaticiUnvan", EscapeXml(item.title))),
      Line(6, Field("Matrah", Fixed2(item.base))),
      Line(6, Field("FaturaSayisi", Decimal(item.invoices))),
      Line(4, Markup("/Alis"))]
  }

  /** The joined items; without any, the hole leaves an empty line. */
  function ListLines(items: seq<LineItem>): seq<Line> {
    if items == [] then [Line(0, Blank)] else Rows(items)
  }

  function Rows(items: seq<LineItem>): seq<Line> {
    if items == [] then [] else ItemLines(items[0]) + Rows(items[1..])
  }

  const DECLARATION := "?xml version=\"1.0\"" + " encoding=\"UTF-8\"?"
  const ROOT := "BAFormu xmlns:xsi=" + "\"http://www.w3.org/2001/" + "XMLSchema-instance\""

  /** Version, encoding, and the name space of schema instances. */
  lemma PreambleText()
    ensures DECLARATION == "?xml version=\"1.0\" encoding=\"UTF-8\"?"
    ensures ROOT == "BAFormu xmlns:xsi=" + "\"http://www.w3.org/2001/" + "XMLSchema-instance\""
  {
  }

  function HeadLines(form: Form): seq<Line> {
    [ Line(0, Markup(DECLARATION)),
      Line(0, Markup(ROOT)),
      Line(2, Field("BildirimDonemi", YearMonth(form.year, form.month))),
      Line(2, Markup("MukellefBilgileri")),
      Line(4, Field("VKN", EscapeXml(form.vkn))),
      Line(4, Field("Unvan", EscapeXml(form.title))),
      Line(2, Markup("/MukellefBilgileri")),
      Line(2, Markup("AlisListesi"))]
  }

  function FootLines(form: Form): seq<Line> {
    [ Line(2, Markup("/AlisListesi")),
      Line(2, Markup("ToplamBilgileri")),
      Line(4, Field("ToplamMatrah", Fixed2(form.totalBase))),
      Line(4, Field("ToplamFaturaSayisi", Decimal(form.totalInvoices))),
      Line(2, Markup("/ToplamBilgileri")),
      Line(0, Markup("/BAFormu"))]
  }

  function BuildBaXml(form: Form): string {
    JoinLines(HeadLines(form) + (ListLines(form.items) + FootLines(form)))
  }

  // ------------------------------------------------------------------ the reader

  datatype Token = Tag(text: string) | Text(text: string)

  function Tokenize(s: string): seq<Token>
    decreases |s|
  {
    if s == "" then []
    else if s[0] == '<' then
      var i := Find(s, '>');
      if i == |s| then [Tag(s[1..])] else [Tag(s[1..i])] + Tokenize(s[i + 1..])
    else
      var i := Find(s, '<');
      [Text(Unescape(s[..i]))] + Tokenize(s[i..])
  }

  predicate IsSpace(s: string) { forall k | 0 <= k < |s| :: s[k] == ' ' || s[k] == '\n' }

  /** Drops white space between tags. */
  function Skip(ts: seq<Token>): (rest: seq<Token>)
    ensures |rest| <= |ts|
  {
    if ts != [] && ts[0].Text? && IsSpace(ts[0].text) then ts[1..] else ts
  }

  function ExpectTag(ts: seq<Token>, name: string): (r: Option<seq<Token>>)
    ensures r.Some? ==> |r.value| < |ts|
  {
    var t := Skip(ts);
    if t != [] && t[0] == Tag(name) then Some(t[1..]) else None
  }

  function ReadField(ts: seq<Token>, name: string): (r: Option<(string, seq<Token>)>)
    ensures r.Some? ==> |r.value.1| < |ts|
  {
    match ExpectTag(ts, name)
    case None => None
    case Some(t) =>
      if |t| >= 2 && t[0].Text? && t[1] == Tag("/" + name) then Some((t[0].text, t[2..]))
      else if t != [] && t[0] == Tag("/" + name) then Some(("", t[1..]))
      else None
  }

  function ReadItem(ts: seq<Token>): (r: Option<(LineItem, seq<Token>)>)
    ensures r.Some? ==> |r.value.1| < |ts|
  {
    match ExpectTag(ts, "Alis") case None => None case Some(t0) =>
    match ReadField(t0, "SaticiVKN") case None => None case Some((vkn, t1)) =>
    match ReadField(t1, "SaticiUnvan") case None => None case Some((title, t2)) =>
    match ReadField(t2, "Matrah") case None => None case Some((base, t3)) =>
    match ReadField(t3, "FaturaSayisi") case None => None case Some((count, t4)) =>
    match ExpectTag(t4, "/Alis") case None => None case Some(t5) =>
    match (ReadFixed2(base), ReadNat(count))
    case (Some(b), Some(n)) => Some((LineItem(vkn, title, b, n), t5))
    case _ => None
  }

  function ReadItems(ts: seq<Token>): (seq<LineItem>, seq<Token>)
    decreases |ts|
  {
    match ReadItem(ts)
    case None => ([], ts)
    case Some((item, rest)) => var (more, end) := ReadItems(rest); ([item] + more, end)
  }

  function ReadForm(xml: string): Option<Form> {
    match ReadHead(Tokenize(xml)) case None => None case Some(head) =>
    var (items, rest) := ReadItems(head.3);
    match ReadFoot(rest) case None => None case Some((base, count)) =>
    match ReadPeriod(head.0) case None => None case Some((year, month)) =>
      Some(Form(head.1, head.2, year, month, items, base, count))
  }

  function ReadHead(ts: seq<Token>): Option<(string, string, string, seq<Token>)> {
    match ExpectTag(ts, DECLARATION) case None => None case Some(t0) =>
    match ExpectTag(t0, ROOT) case None => None case Some(t1) =>
    match ReadField(t1, "BildirimDonemi") case None => None case Some((period, t2)) =>
    match ExpectTag(t2, "MukellefBilgileri") case None => None case Some(t3) =>
    match ReadField(t3, "VKN") case None => None case Some((vkn, t4)) =>
    match ReadField(t4, "Unvan") case None => None case Some((title, t5)) =>
    match ExpectTag(t5, "/MukellefBilgileri") case None => None case Some(t6) =>
    match ExpectTag(t6, "AlisListesi") case None => None case Some(t7) =>
      Some((period, vkn, title, t7))
  }

  function ReadFoot(ts: seq<Token>): Option<(int, nat)> {
    match ExpectTag(ts, "/AlisListesi") case None => None case Some(t0) =>
    match ExpectTag(t0, "ToplamBilgileri") case None => None case Some(t1) =>
    match ReadField(t1, "ToplamMatrah") case None => None case Some((base, t2)) =>
    match ReadField(t2, "ToplamFaturaSayisi") case None => None case Some((count, t3)) =>
    match ExpectTag(t3, "/ToplamBilgileri") case None => None case Some(t4) =>
    match ExpectTag(t4, "/BAFormu") case None => None case Some(t5) =>
    if t5 != [] then None
    else
      match (ReadFixed2(base), ReadNat(count))
      case (Some(b), Some(n)) => Some((b, n))
      case _ => None
  }

  // ------------------------------------------------------------------ splitting printed lines

  function Data(value: string): seq<Token> { if value == "" then [] else [Text(value)] }

  function CoreTokens(c: Core): seq<Token> {
    match c
    case Markup(n) => [Tag(n)]
    case Field(n, t) => [Tag(n)] + (Data(Unescape(t)) + [Tag("/" + n)])
    case Blank => []
  }

  /** The tokens of pending white space w and the lines after it. */
  function TokensAfter(w: string, lines: seq<Line>): seq<Token>
    decreases |lines|
  {
    if lines == [] then Data(w)
    else
      var gap := w + "\n" + Spaces(lines[0].indent);
      if lines[0].core.Blank? then TokensAfter(gap, lines[1..])
      else Data(gap) + (CoreTokens(lines[0].core) + TokensAfter("", lines[1..]))
  }

  ghost predicate Plain(c: Core) {
    match c
    case Markup(n) => '>' !in n
    case Field(n, t) => '>' !in n && '<' !in t
    case Blank => true
  }

  ghost predicate AllPlain(lines: seq<Line>) { forall i | 0 <= i < |lines| :: Plain(lines[i].core) }

  /** Every line after a line break. */
  function Following(lines: seq<Line>): string {
    if lines == [] then "" else "\n" + (LineText(lines[0]) + Following(lines[1..]))
  }

  lemma {:induction false} JoinIsFollowing(lines: seq<Line>)
    requires lines != []
    ensures JoinLines(lines) == LineText(lines[0]) + Following(lines[1..])
  {
    if |lines| > 1 {
      JoinIsFollowing(lines[1..]);
      assert lines[1..][0] == lines[1];
    } else {
      assert Following(lines[1..]) == "";
    }
  }

  lemma TokenizeTag(x: string, rest: string)
    requires '>' !in x
    ensures Tokenize("<" + x + ">" + rest) == [Tag(x)] + Tokenize(rest)
  {
    var s, i := "<" + x + ">" + rest, |x| + 1;
    assert s[1..i] == x && s[i + 1..] == rest;
    assert s[..i] == "<" + x;
    FindAt(s, '>', i);
  }

  lemma TokenizeText(x: string, rest: string)
    requires '<' !in x
    requires rest != "" ==> rest[0] == '<'
    ensures Tokenize(x + rest) == Data(Unescape(x)) + Tokenize(rest)
  {
    hide Unescape;
    var s := x + rest;
    if x == "" {
      assert s == rest;
    } else {
      assert s[..|x|] == x && s[|x|..] == rest;
      FindAt(s, '<', |x|);
      assert s[0] == x[0];
    }
  }

  lemma {:induction false} UnescapeSpace(s: string)
    requires IsSpace(s)
    ensures Unescape(s) == s && '<' !in s
  {
    if s != "" {
      UnescapeSpace(s[1..]);
      assert s == [s[0]] + s[1..];
    }
  }

  lemma Assoc(a: string, b: string, c: string)
    ensures (a + b) + c == a + (b + c)
  {
  }

  lemma TokenizeField(n: string, t: string, rest: string)
    requires Plain(Field(n, t))
    ensures Tokenize(CoreText(Field(n, t)) + rest) == CoreTokens(Field(n, t)) + Tokenize(rest)
  {
    hide Unescape, Tokenize;
    var open, shut := "<" + n + ">", "<" + ("/" + n) + ">";
    TokenizeTag("/" + n, rest);
    TokenizeTail(t, shut + rest);
    TokenizeTag(n, t + (shut + rest));
    Assoc(open, t + shut, rest);
    Assoc(t, shut, rest);
    JoinTokens([Tag(n)], Data(Unescape(t)), [Tag("/" + n)], Tokenize(rest));
  }

  lemma TokenizeTail(t: string, rest: string)
    requires '<' !in t && rest != "" && rest[0] == '<'
    ensures Tokenize(t + rest) == Data(Unescape(t)) + Tokenize(rest)
  {
    hide Unescape, Tokenize;
    TokenizeText(t, rest);
  }

  lemma JoinTokens(a: seq<Token>, b: seq<Token>, c: seq<Token>, d: seq<Token>)
    ensures a + (b + (c + d)) == (a + (b + c)) + d
  {
  }

  lemma TokenizeCore(c: Core, rest: string)
    requires Plain(c)
    ensures Tokenize(CoreText(c) + rest) == CoreTokens(c) + Tokenize(rest)
  {
    match c
    case Markup(n) => TokenizeTag(n, rest);
    case Field(n, t) => TokenizeField(n, t, rest);
    case Blank => assert CoreText(c) + rest == rest;
  }

  lemma FollowingGap(w: string, lines: seq<Line>)
    requires lines != []
    ensures w + Following(lines)
         == (w + "\n" + Spaces(lines[0].indent)) + (CoreText(lines[0].core) + Following(lines[1..]))
  {
    var i, c, after := Spaces(lines[0].indent), CoreText(lines[0].core), Following(lines[1..]);
    Assoc(w + "\n", i, c + after);
    Assoc(w, "\n", i + (c + after));
    Assoc(i, c, after);
  }

  /** Splitting the printed lines recovers exactly their markup, fields and white space. */
  lemma {:induction false} TokenizeFollowing(w: string, lines: seq<Line>)
    requires IsSpace(w) && AllPlain(lines)
    ensures Tokenize(w + Following(lines)) == TokensAfter(w, lines)
    decreases |lines|
  {
    if lines == [] {
      UnescapeSpace(w);
      TokenizeText(w, "");
    } else {
      hide Unescape;
      var c, after := lines[0].core, Following(lines[1..]);
      var gap := w + "\n" + Spaces(lines[0].indent);
      FollowingGap(w, lines);
      assert Plain(c);
      TokenizeCore(c, after);
      if c.Blank? {
        TokenizeFollowing(gap, lines[1..]);
        assert CoreText(c) + after == after;
      } else {
        UnescapeSpace(gap);
        assert (CoreText(c) + after)[0] == '<';
        TokenizeText(gap, CoreText(c) + after);
        TokenizeFollowing("", lines[1..]);
        assert "" + after == after;
      }
    }
  }

  // ------------------------------------------------------------------ reading printed lines

  lemma SkipGap(w: string, ts: seq<Token>)
    requires IsSpace(w) && (ts != [] ==> ts[0].Tag?)
    ensures Skip(Data(w) + ts) == ts
  {
    if w == "" { assert Data(w) + ts == ts; } else { assert (Data(w) + ts)[1..] == ts; }
  }

  lemma ExpectMarkup(w: string, l: Line, lines: seq<Line>)
    requires IsSpace(w) && l.core.Markup?
    ensures ExpectTag(TokensAfter(w, [l] + lines), l.core.name) == Some(TokensAfter("", lines))
  {
    var gap := w + "\n" + Spaces(l.indent);
    assert ([l] + lines)[1..] == lines;
    var ts := CoreTokens(l.core) + TokensAfter("", lines);
    SkipGap(gap, ts);
    assert ts[1..] == TokensAfter("", lines);
  }

  /** A tag that is not the expected one is refused. */
  lemma ExpectOther(w: string, l: Line, lines: seq<Line>, name: string)
    requires IsSpace(w) && l.core.Markup? && l.core.name != name
    ensures ExpectTag(TokensAfter(w, [l] + lines), name) == None
  {
    var gap := w + "\n" + Spaces(l.indent);
    assert ([l] + lines)[1..] == lines;
    SkipGap(gap, CoreTokens(l.core) + TokensAfter("", lines));
  }

  lemma ExpectField(l: Line, lines: seq<Line>)
    requires l.core.Field?
    ensures ReadField(TokensAfter("", [l] + lines), l.core.name) ==
      Some((Unescape(l.core.text), TokensAfter("", lines)))
  {
    hide Unescape, IsSpace, Skip;
    var n, t := l.core.name, Unescape(l.core.text);
    var gap := "" + "\n" + Spaces(l.indent);
    assert ([l] + lines)[1..] == lines;
    var tail := TokensAfter("", lines);
    var ts := CoreTokens(l.core) + tail;
    SkipGap(gap, ts);
    if t == "" {
      assert ts[1..] == [Tag("/" + n)] + tail;
    } else {
      assert ts[1..] == [Text(t), Tag("/" + n)] + tail;
      assert ts[1..][2..] == tail;
    }
  }

  lemma {:induction false} UnescapePlain(s: string)
    requires '&' !in s
    ensures Unescape(s) == s
  {
    if s != "" {
      UnescapePlain(s[1..]);
      assert s[0] != '&' && s == [s[0]] + s[1..];
    }
  }

  lemma DecimalPlain(n: nat)
    ensures Unescape(Decimal(n)) == Decimal(n) && '<' !in Decimal(n)
  {
    UnescapePlain(Decimal(n));
  }

  lemma PeriodPlain(year: nat, month: nat)
    ensures Unescape(YearMonth(year, month)) == YearMonth(year, month) && '<' !in YearMonth(year, month)
  {
    UnescapePlain(YearMonth(year, month));
  }

  lemma FixedPlain(k: int)
    ensures Unescape(Fixed2(k)) == Fixed2(k) && '<' !in Fixed2(k)
  {
    var s, w, f := Fixed2(k), Decimal(Abs(k) / 100), PadTwo(Abs(k) % 100);
    assert forall c | c in s :: c == '-' || c in w || c == '.' || c in f;
    UnescapePlain(s);
  }

  lemma ItemLinesPlain(item: LineItem)
    ensures AllPlain(ItemLines(item))
  {
    hide Unescape, EscapeXml, Fixed2, Decimal;
    UnescapeEscaped(item.vkn);
    UnescapeEscaped(item.title);
    FixedPlain(item.base);
    DecimalPlain(item.invoices);
    var ls := ItemLines(item);
    assert Plain(ls[0].core) && Plain(ls[1].core) && Plain(ls[2].core);
    assert Plain(ls[3].core) && Plain(ls[4].core) && Plain(ls[5].core);
  }

  lemma ReadOneItem(w: string, item: LineItem, rest: seq<Line>)
    requires IsSpace(w)
    ensures ReadItem(TokensAfter(w, ItemLines(item) + rest)) == Some((item, TokensAfter("", rest)))
  {
    hide Unescape, EscapeXml, Fixed2, Decimal, TokensAfter, ReadFixed2, ReadNat, ExpectTag, ReadField;
    var ls := ItemLines(item);
    var r5 := [ls[5]] + rest;
    var r4 := [ls[4]] + r5;
    var r3 := [ls[3]] + r4;
    var r2 := [ls[2]] + r3;
    var r1 := [ls[1]] + r2;
    assert ls + rest == [ls[0]] + r1;
    ExpectMarkup(w, ls[0], r1);
    ExpectField(ls[1], r2);
    ExpectField(ls[2], r3);
    ExpectField(ls[3], r4);
    ExpectField(ls[4], r5);
    ExpectMarkup("", ls[5], rest);
    UnescapeEscaped(item.vkn);
    UnescapeEscaped(item.title);
    FixedPlain(item.base);
    DecimalPlain(item.invoices);
    Fixed2RoundTrip(item.base);
    ReadDecimal(item.invoices);
  }

  lemma NoItem(w: string, l: Line, rest: seq<Line>)
    requires IsSpace(w) && l.core == Markup("/AlisListesi")
    ensures ReadItem(TokensAfter(w, [l] + rest)) == None
  {
    ExpectOther(w, l, rest, "Alis");
  }

  lemma {:induction false} ReadRows(w: string, items: seq<LineItem>, tail: seq<Line>)
    requires IsSpace(w) && tail != [] && tail[0].core == Markup("/AlisListesi")
    ensures ReadItems(TokensAfter(w, Rows(items) + tail))
         == (items, TokensAfter(if items == [] then w else "", tail))
    decreases |items|
  {
    hide TokensAfter, ReadItem, ItemLines;
    if items == [] {
      assert Rows(items) + tail == [tail[0]] + tail[1..] == tail;
      NoItem(w, tail[0], tail[1..]);
    } else {
      var more := Rows(items[1..]) + tail;
      assert Rows(items) + tail == ItemLines(items[0]) + more;
      ReadOneItem(w, items[0], more);
      ReadRows("", items[1..], tail);
      assert items == [items[0]] + items[1..];
    }
  }

  lemma ReadFootLines(w: string, form: Form)
    requires IsSpace(w)
    ensures ReadFoot(TokensAfter(w, FootLines(form))) == Some((form.totalBase, form.totalInvoices))
  {
    hide TokensAfter, ReadFoot, ReadFixed2, ReadNat, Unescape, Fixed2, Decimal;
    var ls := FootLines(form);
    FixedPlain(form.totalBase);
    DecimalPlain(form.totalInvoices);
    Fixed2RoundTrip(form.totalBase);
    ReadDecimal(form.totalInvoices);
    assert ls == [ls[0]] + ([ls[1]] + ([ls[2]] + ([ls[3]] + ([ls[4]] + ([ls[5]] + [])))));
    ReadFootFrom(w, ls[0], ls[1], ls[2], ls[3], ls[4], ls[5]);
  }

  lemma ReadFootFrom(w: string, l0: Line, l1: Line, l2: Line, l3: Line, l4: Line, l5: Line)
    requires IsSpace(w) && l0.core == Markup("/AlisListesi") && l1.core == Markup("ToplamBilgileri")
    requires l2.core.Field? && l2.core.name == "ToplamMatrah"
    requires l3.core.Field? && l3.core.name == "ToplamFaturaSayisi"
    requires l4.core == Markup("/ToplamBilgileri") && l5.core == Markup("/BAFormu")
    requires ReadFixed2(Unescape(l2.core.text)).Some? && ReadNat(Unescape(l3.core.text)).Some?
    ensures ReadFoot(TokensAfter(w, [l0] + ([l1] + ([l2] + ([l3] + ([l4] + ([l5] + [])))))))
         == Some((ReadFixed2(Unescape(l2.core.text)).value, ReadNat(Unescape(l3.core.text)).value))
  {
    hide TokensAfter, ReadFixed2, ReadNat, Unescape, ExpectTag, ReadField;
    var r4 := [l5] + [];
    var r3 := [l4] + r4;
    var r2 := [l3] + r3;
    var r1 := [l2] + r2;
    var r0 := [l1] + r1;
    ExpectMarkup(w, l0, r0);
    ExpectMarkup("", l1, r1);
    ExpectField(l2, r2);
    ExpectField(l3, r3);
    ExpectMarkup("", l4, r4);
    ExpectMarkup("", l5, []);
    assert TokensAfter("", []) == [] by { NothingLeft(); }
  }

  lemma NothingLeft()
    ensures TokensAfter("", []) == []
  {
  }

  lemma AbsentAppend(a: string, b: string, c: char)
    requires c !in a && c !in b
    ensures c !in a + b
  {
  }

  lemma DeclarationPlain()
    ensures Plain(Markup(DECLARATION))
  {
    AbsentAppend("?xml version=\"1.0\"", " encoding=\"UTF-8\"?", '>');
  }

  lemma RootPlain()
    ensures Plain(Markup(ROOT))
  {
    AbsentAppend("BAFormu xmlns:xsi=", "\"http://www.w3.org/2001/", '>');
    AbsentAppend("BAFormu xmlns:xsi=" + "\"http://www.w3.org/2001/", "XMLSchema-instance\"", '>');
  }

  lemma HeadLinesPlain(form: Form)
    ensures AllPlain(HeadLines(form))
  {
    hide Unescape, EscapeXml, YearMonth;
    UnescapeEscaped(form.vkn);
    UnescapeEscaped(form.title);
    PeriodPlain(form.year, form.month);
    DeclarationPlain();
    RootPlain();
    assert '>' !in "BildirimDonemi" && '>' !in "MukellefBilgileri" && '>' !in "/MukellefBilgileri";
    assert '>' !in "VKN" && '>' !in "Unvan" && '>' !in "AlisListesi";
  }

  lemma ListEndPlain()
    ensures Plain(Markup("/AlisListesi")) && Plain(Markup("ToplamBilgileri"))
  {
  }

  lemma FormEndPlain()
    ensures Plain(Markup("/ToplamBilgileri")) && Plain(Markup("/BAFormu"))
  {
  }

  lemma TotalsPlain(base: string, invoices: string)
    requires '<' !in base && '<' !in invoices
    ensures Plain(Field("ToplamMatrah", base)) && Plain(Field("ToplamFaturaSayisi", invoices))
  {
  }

  lemma FootLinesPlain(form: Form)
    ensures AllPlain(FootLines(form))
  {
    hide Unescape, Fixed2, Decimal, Plain;
    FixedPlain(form.totalBase);
    DecimalPlain(form.totalInvoices);
    ListEndPlain();
    TotalsPlain(Fixed2(form.totalBase), Decimal(form.totalInvoices));
    FormEndPlain();
  }

  lemma {:induction false} RowsPlain(items: seq<LineItem>)
    ensures AllPlain(Rows(items))
  {
    if items != [] {
      ItemLinesPlain(items[0]);
      RowsPlain(items[1..]);
    }
  }

  lemma ListLinesPlain(items: seq<LineItem>)
    ensures AllPlain(ListLines(items))
  {
    RowsPlain(items);
  }

  lemma TokenizeLines(l: Line, rest: seq<Line>)
    requires l.indent == 0 && l.core.Markup? && Plain(l.core) && AllPlain(rest)
    ensures Tokenize(JoinLines([l] + rest)) == [Tag(l.core.name)] + TokensAfter("", rest)
  {
    JoinIsFollowing([l] + rest);
    assert ([l] + rest)[1..] == rest;
    assert LineText(l) == CoreText(l.core);
    TokenizeFollowing("", rest);
    assert "" + Following(rest) == Following(rest);
    TokenizeCore(l.core, Following(rest));
  }

  lemma ReadHeadFrom(l1: Line, l2: Line, l3: Line, l4: Line, l5: Line, l6: Line, l7: Line, body: seq<Line>)
    requires l1.core == Markup(ROOT)
    requires l2.core.Field? && l2.core.name == "BildirimDonemi"
    requires l3.core == Markup("MukellefBilgileri")
    requires l4.core.Field? && l4.core.name == "VKN"
    requires l5.core.Field? && l5.core.name == "Unvan"
    requires l6.core == Markup("/MukellefBilgileri") && l7.core == Markup("AlisListesi")
    ensures ReadHead([Tag(DECLARATION)] +
      TokensAfter("", [l1] + ([l2] + ([l3] + ([l4] + ([l5] + ([l6] + ([l7] + body))))))))
         == Some((Unescape(l2.core.text), Unescape(l4.core.text), Unescape(l5.core.text), TokensAfter("", body)))
  {
    hide TokensAfter, Unescape, ExpectTag, ReadField;
    var r6 := [l7] + body;
    var r5 := [l6] + r6;
    var r4 := [l5] + r5;
    var r3 := [l4] + r4;
    var r2 := [l3] + r3;
    var r1 := [l2] + r2;
    FirstTag(DECLARATION, TokensAfter("", [l1] + r1));
    ExpectMarkup("", l1, r1);
    ExpectField(l2, r2);
    ExpectMarkup("", l3, r3);
    ExpectField(l4, r4);
    ExpectField(l5, r5);
    ExpectMarkup("", l6, r6);
    ExpectMarkup("", l7, body);
  }

  lemma FirstTag(name: string, ts: seq<Token>)
    ensures ExpectTag([Tag(name)] + ts, name) == Some(ts)
  {
  }

  lemma ReadBody(form: Form)
    ensures var (items, rest) := ReadItems(TokensAfter("", ListLines(form.items) + FootLines(form)));
            items == form.items && ReadFoot(rest) == Some((form.totalBase, form.totalInvoices))
  {
    hide ReadFoot, ReadItems;
    var foot := FootLines(form);
    if form.items == [] {
      var gap := "" + "\n" + Spaces(0);
      assert ([Line(0, Blank)] + foot)[1..] == foot;
      assert TokensAfter("", ListLines([]) + foot) == TokensAfter(gap, foot);
      assert Rows([]) + foot == foot;
      ReadRows(gap, [], foot);
      ReadFootLines(gap, form);
    } else {
      ReadRows("", form.items, foot);
      ReadFootLines("", form);
    }
  }

  /** Reading back a printed form gives the form, whatever characters its strings hold. */
  lemma RoundTrip(form: Form)
    ensures ReadForm(BuildBaXml(form)) == Some(form)
  {
    hide TokensAfter, ReadItems, ReadFoot, ReadHead, Unescape, EscapeXml, Tokenize, JoinLines, ListLines, FootLines,
      ReadPeriod, YearMonth;
    var ls, body := HeadLines(form), ListLines(form.items) + FootLines(form);
    var rest := [ls[1]] + ([ls[2]] + ([ls[3]] + ([ls[4]] + ([ls[5]] + ([ls[6]] + ([ls[7]] + body))))));
    assert ls + body == [ls[0]] + rest;
    HeadLinesPlain(form);
    ListLinesPlain(form.items);
    FootLinesPlain(form);
    assert AllPlain(rest) by {
      assert rest == ls[1..] + body;
    }
    TokenizeLines(ls[0], rest);
    ReadHeadFrom(ls[1], ls[2], ls[3], ls[4], ls[5], ls[6], ls[7], body);
    ReadBody(form);
    UnescapeEscaped(form.vkn);
    UnescapeEscaped(form.title);
    PeriodPlain(form.year, form.month);
    PeriodRoundTrip(form.year, form.month);
  }
}
