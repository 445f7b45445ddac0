/** JSON texts by the grammar of RFC 8259 (sections 2 to 7): a syntax tree that keeps white space
    and escapes, and its printer. A character stands for a byte; only ASCII ones matter here. */
module Json {
  import opened Basics

  predicate IsSpace(c: char) {
    c == ' ' || c == '\t' || c == '\n' || c == '\r'
  }

  predicate AllSpace(s: string) {
    forall i | 0 <= i < |s| :: IsSpace(s[i])
  }

  predicate AllDigit(s: string) {
    forall i | 0 <= i < |s| :: '0' <= s[i] <= '9'
  }

  /** Section 6. `frac` and `power` are the digits; `mark` is the exponent letter with its sign. */
  datatype Number = Number(neg: bool, whole: string, frac: string, mark: string, power: string)
  {
    predicate Ok() {
      && whole != [] && AllDigit(whole) && (|whole| > 1 ==> whole[0] != '0')
      && AllDigit(frac) && AllDigit(power)
      && mark in ["", "e", "E", "e+", "E+", "e-", "E-"]
      && (mark == "" <==> power == "")
    }

    function Text(): string {
      (if neg then "-" else "") + whole + (if frac == "" then "" else "." + frac) + mark + power
    }
  }

  /** Section 7: one character of a string, plain or escaped. */
  datatype Piece = Plain(c: char) | Escape(e: char) | Unicode(hex: string)
  {
    predicate Ok() {
      match this
      case Plain(c) => c >= ' ' && c != '"' && c != '\\'
      case Escape(e) => e in "\"\\/bfnrt"
      case Unicode(hex) => |hex| == 4 && forall i | 0 <= i < 4 ::
          '0' <= hex[i] <= '9' || 'a' <= hex[i] <= 'f' || 'A' <= hex[i] <= 'F'
    }

    function Text(): string {
      match this
      case Plain(c) => [c]
      case Escape(e) => ['\\', e]
      case Unicode(hex) => ['\\', 'u'] + hex
    }
  }

  /** Sections 3 to 5. The items of an object carry names, those of an array do not; `lead`,
      `after`, `sep`, `before` and `behind` are white space. */
  datatype Value =
    | Word(text: string)
    | Num(number: Number)
    | Str(body: seq<Piece>)
    | Array(lead: string, items: Items)
    | Object(lead: string, items: Items)

  datatype Items = End | Item(nm: Name, value: Value, after: string, sep: string, rest: Items)

  datatype Name = Unnamed | Named(text: seq<Piece>, before: string, behind: string)

  predicate PiecesOk(ps: seq<Piece>) {
    forall i | 0 <= i < |ps| :: ps[i].Ok()
  }

  predicate ValueOk(v: Value) {
    match v
    case Word(t) => t in ["true", "false", "null"]
    case Num(n) => n.Ok()
    case Str(ps) => PiecesOk(ps)
    case Array(lead, items) => AllSpace(lead) && ItemsOk(items, false)
    case Object(lead, items) => AllSpace(lead) && ItemsOk(items, true)
  }

  predicate ItemsOk(items: Items, named: bool) {
    match items
    case End => true
    case Item(nm, v, after, sep, rest) =>
      && nm.Named? == named
      && (nm.Named? ==> PiecesOk(nm.text) && AllSpace(nm.before) && AllSpace(nm.behind))
      && ValueOk(v) && AllSpace(after) && AllSpace(sep) && ItemsOk(rest, named)
  }

  // ----- the printer -----

  function PrintPieces(ps: seq<Piece>): string {
    if ps == [] then "" else ps[0].Text() + PrintPieces(ps[1..])
  }

  function Quote(ps: seq<Piece>): string {
    "\"" + PrintPieces(ps) + "\""
  }

  function Print(v: Value): string {
    match v
    case Word(t) => t
    case Num(n) => n.Text()
    case Str(ps) => Quote(ps)
    case Array(lead, items) => "[" + (lead + PrintItems(items)) + "]"
    case Object(lead, items) => "{" + (lead + PrintItems(items)) + "}"
  }

  function PrintName(nm: Name): string {
    match nm
    case Unnamed => ""
    case Named(text, before, behind) => Quote(text) + (before + ":" + behind)
  }

  function PrintItems(items: Items): string {
    match items
    case End => ""
    case Item(nm, v, after, sep, rest) =>
      PrintName(nm) + (Print(v) + (after + ((if rest.End? then "" else "," + sep) + PrintItems(rest))))
  }

  // ----- what json.Valid accepts -----

  /** Go's scanner refuses deeper nesting. */
  const MAX_NESTING: nat := 10000

  function Depth(v: Value): nat {
    match v
    case Array(_, items) => 1 + ItemsDepth(items)
    case Object(_, items) => 1 + ItemsDepth(items)
    case _ => 0
  }

  function ItemsDepth(items: Items): nat {
    match items
    case End => 0
    case Item(_, v, _, _, rest) => if Depth(v) > ItemsDepth(rest) then Depth(v) else ItemsDepth(rest)
  }

  predicate Acceptable(v: Value) {
    ValueOk(v) && Depth(v) <= MAX_NESTING
  }

  /** The text of a value; white space around it is left out, because the extractor only asks
      about texts from brace to brace. */
  ghost predicate IsJson(s: string) {
    exists v :: Acceptable(v) && Print(v) == s
  }

  // ----- how an object's text begins -----

  /** The first character that is not white space. */
  function Ink(s: string): Option<char> {
    if s == [] then None else if IsSpace(s[0]) then Ink(s[1..]) else Some(s[0])
  }

  lemma {:induction false} InkOfJoin(a: string, b: string)
    ensures Ink(a + b) == if Ink(a).Some? then Ink(a) else Ink(b)
  {
    if a == [] {
      assert a + b == b;
    } else {
      assert (a + b)[1..] == a[1..] + b;
      InkOfJoin(a[1..], b);
    }
  }

  lemma {:induction false} InkOfSpace(s: string)
    requires AllSpace(s)
    ensures Ink(s) == None
  {
    if s != [] {
      InkOfSpace(s[1..]);
    }
  }

  /** Only an object's text begins with a brace. */
  lemma BraceMeansObject(v: Value)
    requires ValueOk(v) && Print(v) != [] && Print(v)[0] == '{'
    ensures v.Object?
  {
  }

  /** After its brace, and white space, an object's text goes on with a quote or a brace. */
  lemma InkOfObject(v: Value)
    requires ValueOk(v) && v.Object?
    ensures Ink(Print(v)[1..]) == Some('"') || Ink(Print(v)[1..]) == Some('}')
  {
    var inner := v.lead + PrintItems(v.items);
    assert Print(v)[1..] == inner + "}";
    InkOfJoin(inner, "}");
    InkOfJoin(v.lead, PrintItems(v.items));
    InkOfSpace(v.lead);
    match v.items
    case End =>
    case Item(nm, _, _, _, _) =>
      assert PrintName(nm)[0] == '"';
      assert PrintItems(v.items)[0] == '"';
  }
}
