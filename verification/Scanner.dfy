/** The brace scanner that cuts JSON objects out of an engine's output. */
module Scanner {
  import opened Basics
  import opened Json

  /** The scanner's variables. */
  datatype Scan = Scan(depth: int, inString: bool, escaped: bool)

  const ZERO: Scan := Scan(0, false, false)

  function Next(st: Scan, ch: char): Scan {
    if st.escaped then st.(escaped := false)
    else if ch == '\\' && st.inString then st.(escaped := true)
    else if ch == '"' then st.(inString := !st.inString)
    else if st.inString then st
    else if ch == '{' then st.(depth := st.depth + 1)
    else if ch == '}' then st.(depth := st.depth - 1)
    else st
  }

  /** This character is the brace that brings the depth back to zero. */
  predicate Closes(st: Scan, ch: char) {
    !st.escaped && !st.inString && ch == '}' && st.depth == 1
  }

  function After(st: Scan, s: string): Scan
    decreases s
  {
    if s == [] then st else After(Next(st, s[0]), s[1..])
  }

  /** Where the scan of `s` stops. */
  function Close(st: Scan, s: string): Option<nat>
    decreases s
  {
    if s == [] then None
    else if Closes(st, s[0]) then Some(0)
    else
      match Close(Next(st, s[0]), s[1..])
      case None => None
      case Some(n) => Some(n + 1)
  }

  /** The number of unquoted opening braces minus that of unquoted closing ones. */
  function Balance(s: string): int {
    After(ZERO, s).depth
  }

  /** From the brace at `start`, the object's text up to the matching brace. */
  method BalancedObject(s: string, start: nat) returns (obj: string, ok: bool)
    requires start <= |s|
    ensures ok <==> Close(ZERO, s[start..]).Some?
    ensures ok ==> var n := Close(ZERO, s[start..]).value; start + n < |s| && obj == s[start..start + n + 1]
  {
    var depth, inString, escaped := 0, false, false;
    for i := start to |s|
      invariant Close(ZERO, s[start..]) ==
                match Close(Scan(depth, inString, escaped), s[i..])
                case None => None
                case Some(n) => Some(n + (i - start))
    {
      var ch := s[i];
      assert s[i..][0] == ch && s[i..][1..] == s[i + 1..];
      if escaped {
        escaped := false;
      } else if ch == '\\' && inString {
        escaped := true;
      } else if ch == '"' {
        inString := !inString;
      } else if inString {
        // literal content
      } else if ch == '{' {
        depth := depth + 1;
      } else if ch == '}' {
        depth := depth - 1;
        if depth == 0 {
          return s[start..i + 1], true;
        }
      }
    }
    return "", false;
  }

  // ----- the shortest balanced prefix -----

  lemma {:induction false} CloseBound(st: Scan, s: string)
    ensures Close(st, s).Some? ==> Close(st, s).value < |s|
    decreases s
  {
    if s != [] {
      CloseBound(Next(st, s[0]), s[1..]);
    }
  }

  /** The depth becomes zero after `n + 1` characters and not before. */
  predicate FirstZero(st: Scan, s: string, n: nat) {
    n < |s| && After(st, s[..n + 1]).depth == 0 && forall m | 0 <= m <= n :: After(st, s[..m]).depth > 0
  }

  lemma AfterTail(st: Scan, s: string, m: nat)
    requires 0 < m <= |s|
    ensures After(st, s[..m]) == After(Next(st, s[0]), s[1..][..m - 1])
  {
    assert s[..m][0] == s[0] && s[..m][1..] == s[1..][..m - 1];
  }

  lemma FirstZeroTail(st: Scan, s: string, n: nat)
    requires st.depth >= 1 && 0 < n < |s|
    ensures FirstZero(st, s, n) <==> FirstZero(Next(st, s[0]), s[1..], n - 1)
  {
    var st' := Next(st, s[0]);
    AfterTail(st, s, n + 1);
    forall m | 0 < m <= n ensures After(st, s[..m]) == After(st', s[1..][..m - 1]) {
      AfterTail(st, s, m);
    }
    assert s[..0] == [];
    if FirstZero(st, s, n) {
      forall m | 0 <= m <= n - 1 ensures After(st', s[1..][..m]).depth > 0 {
        assert After(st, s[..m + 1]).depth > 0;
      }
    }
  }

  /** At a positive depth the scan stops exactly where the depth first becomes zero. */
  lemma {:induction false} CloseIsFirstZero(st: Scan, s: string, n: nat)
    requires st.depth >= 1
    ensures Close(st, s) == Some(n) <==> FirstZero(st, s, n)
    decreases s
  {
    CloseBound(st, s);
    if n < |s| {
      assert s[..0] == [] && After(st, s[..0]) == st;
      AfterTail(st, s, 1);
      assert s[1..][..0] == [];
      if n > 0 && !Closes(st, s[0]) {
        FirstZeroTail(st, s, n);
        CloseIsFirstZero(Next(st, s[0]), s[1..], n - 1);
      } else if n > 0 {
        assert After(st, s[..1]).depth == 0;
      }
    }
  }

  /** Started at a brace, the result is the unique shortest prefix whose unquoted braces balance. */
  lemma ShortestBalanced(s: string, n: nat)
    requires s != [] && s[0] == '{'
    ensures Close(ZERO, s) == Some(n) <==>
            1 <= n < |s| && Balance(s[..n + 1]) == 0 && forall m | 1 <= m <= n :: Balance(s[..m]) > 0
  {
    var st := Next(ZERO, '{');
    forall m | 1 <= m <= |s| ensures Balance(s[..m]) == After(st, s[1..][..m - 1]).depth {
      assert s[..m][0] == '{' && s[..m][1..] == s[1..][..m - 1];
    }
    if n >= 1 {
      CloseIsFirstZero(st, s[1..], n - 1);
      if n < |s| && forall m | 1 <= m <= n :: Balance(s[..m]) > 0 {
        forall m | 0 <= m <= n - 1 ensures After(st, s[1..][..m]).depth > 0 {
          assert Balance(s[..m + 1]) > 0;
        }
      }
    }
  }

  // ----- printed values leave the scanner where it was -----

  /** `s` neither stops the scan nor changes its state. */
  predicate Quiet(st: Scan, s: string) {
    Close(st, s).None? && After(st, s) == st
  }

  lemma {:induction false} ScanOfJoin(st: Scan, a: string, b: string)
    ensures After(st, a + b) == After(After(st, a), b)
    ensures Close(st, a).Some? ==> Close(st, a + b) == Close(st, a)
    ensures Close(st, a).None? ==>
              Close(st, a + b) == match Close(After(st, a), b) case None => None case Some(n) => Some(|a| + n)
    decreases a
  {
    if a == [] {
      assert a + b == b;
    } else {
      assert (a + b)[1..] == a[1..] + b;
      ScanOfJoin(Next(st, a[0]), a[1..], b);
    }
  }

  lemma QuietJoin(st: Scan, a: string, b: string)
    requires Quiet(st, a) && Quiet(st, b)
    ensures Quiet(st, a + b)
  {
    ScanOfJoin(st, a, b);
  }

  predicate Outside(st: Scan) {
    !st.inString && !st.escaped
  }

  /** Outside strings only quotes and braces matter. */
  lemma {:induction false} PlainQuiet(st: Scan, s: string)
    requires Outside(st) && forall i | 0 <= i < |s| :: s[i] != '"' && s[i] != '{' && s[i] != '}'
    ensures Quiet(st, s)
  {
    if s != [] {
      PlainQuiet(st, s[1..]);
    }
  }

  lemma SpaceQuiet(st: Scan, s: string)
    requires Outside(st) && AllSpace(s)
    ensures Quiet(st, s)
  {
    PlainQuiet(st, s);
  }

  lemma NumberQuiet(st: Scan, n: Number)
    requires Outside(st) && n.Ok()
    ensures Quiet(st, n.Text())
  {
    var sign := if n.neg then "-" else "";
    var frac := if n.frac == "" then "" else "." + n.frac;
    PlainQuiet(st, sign);
    PlainQuiet(st, n.whole);
    PlainQuiet(st, frac);
    PlainQuiet(st, n.mark);
    PlainQuiet(st, n.power);
    QuietJoin(st, sign, n.whole);
    QuietJoin(st, sign + n.whole, frac);
    QuietJoin(st, sign + n.whole + frac, n.mark);
    QuietJoin(st, sign + n.whole + frac + n.mark, n.power);
  }

  lemma {:induction false} LiteralQuiet(st: Scan, s: string)
    requires st.inString && !st.escaped && forall i | 0 <= i < |s| :: s[i] != '"' && s[i] != '\\'
    ensures Quiet(st, s)
  {
    if s != [] {
      LiteralQuiet(st, s[1..]);
    }
  }

  lemma Step1(st: Scan, c: char)
    ensures After(st, [c]) == Next(st, c)
    ensures Close(st, [c]) == if Closes(st, c) then Some(0) else None
  {
  }

  /** A backslash hides the next character, a quote as well. */
  lemma EscapeQuiet(st: Scan, c: char)
    requires st.inString && !st.escaped
    ensures Quiet(st, ['\\', c])
  {
    Step1(st, '\\');
    Step1(Next(st, '\\'), c);
    ScanOfJoin(st, ['\\'], [c]);
    assert ['\\'] + [c] == ['\\', c];
  }

  lemma PieceQuiet(st: Scan, p: Piece)
    requires st.inString && !st.escaped && p.Ok()
    ensures Quiet(st, p.Text())
  {
    match p
    case Plain(c) => LiteralQuiet(st, [c]);
    case Escape(e) => EscapeQuiet(st, e);
    case Unicode(hex) =>
      EscapeQuiet(st, 'u');
      LiteralQuiet(st, hex);
      QuietJoin(st, ['\\', 'u'], hex);
  }

  lemma {:induction false} PiecesQuiet(st: Scan, ps: seq<Piece>)
    requires st.inString && !st.escaped && PiecesOk(ps)
    ensures Quiet(st, PrintPieces(ps))
  {
    if ps != [] {
      PieceQuiet(st, ps[0]);
      PiecesQuiet(st, ps[1..]);
      QuietJoin(st, ps[0].Text(), PrintPieces(ps[1..]));
    }
  }

  lemma QuoteQuiet(st: Scan, ps: seq<Piece>)
    requires Outside(st) && PiecesOk(ps)
    ensures Quiet(st, Quote(ps))
  {
    var inside := st.(inString := true);
    Step1(st, '"');
    PiecesQuiet(inside, ps);
    Step1(inside, '"');
    ScanOfJoin(st, "\"", PrintPieces(ps));
    ScanOfJoin(st, "\"" + PrintPieces(ps), "\"");
  }

  lemma NameQuiet(st: Scan, nm: Name)
    requires Outside(st)
    requires nm.Named? ==> PiecesOk(nm.text) && AllSpace(nm.before) && AllSpace(nm.behind)
    ensures Quiet(st, PrintName(nm))
  {
    if nm.Named? {
      var colon := nm.before + ":" + nm.behind;
      QuoteQuiet(st, nm.text);
      PlainQuiet(st, colon);
      QuietJoin(st, Quote(nm.text), colon);
    }
  }

  // ----- what counts as quoted, JSON or not -----

  /** A character of a string literal: a plain one, or a backslash with whatever follows it. */
  datatype Bit = One(c: char) | Pair(c: char)
  {
    predicate Ok() {
      One? ==> c != '"' && c != '\\'
    }

    function Text(): string {
      if One? then [c] else ['\\', c]
    }
  }

  function Bits(bs: seq<Bit>): string {
    if bs == [] then "" else bs[0].Text() + Bits(bs[1..])
  }

  /** A stretch without quotes, or a string literal. */
  datatype Chunk = Bare(text: string) | Literal(bits: seq<Bit>)
  {
    predicate Ok() {
      match this
      case Bare(text) => '"' !in text
      case Literal(bits) => forall i | 0 <= i < |bits| :: bits[i].Ok()
    }

    function Text(): string {
      match this
      case Bare(text) => text
      case Literal(bits) => "\"" + Bits(bits) + "\""
    }
  }

  function Chunks(cs: seq<Chunk>): string {
    if cs == [] then "" else cs[0].Text() + Chunks(cs[1..])
  }

  /** Opening braces minus closing ones. */
  function Braces(s: string): int {
    if s == [] then 0
    else Braces(s[1..]) + if s[0] == '{' then 1 else if s[0] == '}' then -1 else 0
  }

  function BareBraces(cs: seq<Chunk>): int {
    if cs == [] then 0 else (if cs[0].Bare? then Braces(cs[0].text) else 0) + BareBraces(cs[1..])
  }

  lemma {:induction false} AfterBare(st: Scan, s: string)
    requires Outside(st) && '"' !in s
    ensures After(st, s) == st.(depth := st.depth + Braces(s))
    decreases s
  {
    if s != [] {
      assert s[0] in s;
      AfterBare(Next(st, s[0]), s[1..]);
    }
  }

  lemma {:induction false} AfterBits(st: Scan, bs: seq<Bit>)
    requires st.inString && !st.escaped && forall i | 0 <= i < |bs| :: bs[i].Ok()
    ensures After(st, Bits(bs)) == st
    decreases |bs|
  {
    if bs != [] {
      AfterBits(st, bs[1..]);
      ScanOfJoin(st, bs[0].Text(), Bits(bs[1..]));
      if bs[0].Pair? {
        EscapeQuiet(st, bs[0].c);
      } else {
        Step1(st, bs[0].c);
      }
    }
  }

  lemma AfterOpened(st: Scan, bs: seq<Bit>)
    requires Outside(st) && forall i | 0 <= i < |bs| :: bs[i].Ok()
    ensures After(st, "\"" + Bits(bs)) == st.(inString := true)
  {
    Step1(st, '"');
    AfterBits(st.(inString := true), bs);
    ScanOfJoin(st, "\"", Bits(bs));
  }

  lemma AfterChunk(st: Scan, c: Chunk)
    requires Outside(st) && c.Ok()
    ensures After(st, c.Text()) == if c.Bare? then st.(depth := st.depth + Braces(c.text)) else st
  {
    match c
    case Bare(text) => AfterBare(st, text);
    case Literal(bits) =>
      AfterOpened(st, bits);
      Step1(st.(inString := true), '"');
      ScanOfJoin(st, "\"" + Bits(bits), "\"");
  }

  lemma {:induction false} AfterChunks(st: Scan, cs: seq<Chunk>)
    requires Outside(st) && forall i | 0 <= i < |cs| :: cs[i].Ok()
    ensures After(st, Chunks(cs)) == st.(depth := st.depth + BareBraces(cs))
    decreases |cs|
  {
    if cs != [] {
      AfterChunk(st, cs[0]);
      AfterChunks(After(st, cs[0].Text()), cs[1..]);
      ScanOfJoin(st, cs[0].Text(), Chunks(cs[1..]));
    }
  }

  /** Whether JSON or not, of a text made of stretches without quotes and of string literals: the
      balance is that of the braces outside of the literals, and a literal that does not end hides
      all that follows. */
  lemma UnquotedBraces(cs: seq<Chunk>, open: seq<Bit>)
    requires forall i | 0 <= i < |cs| :: cs[i].Ok()
    requires forall i | 0 <= i < |open| :: open[i].Ok()
    ensures Balance(Chunks(cs)) == BareBraces(cs)
    ensures Balance(Chunks(cs) + ("\"" + Bits(open))) == BareBraces(cs)
  {
    AfterChunks(ZERO, cs);
    AfterOpened(After(ZERO, Chunks(cs)), open);
    ScanOfJoin(ZERO, Chunks(cs), "\"" + Bits(open));
  }

  // ----- whole values -----

  /** At a positive depth a printed value never stops the scan and leaves its state unchanged. */
  lemma {:induction false} ValueQuiet(v: Value, st: Scan)
    requires ValueOk(v) && Outside(st) && st.depth >= 1
    ensures Quiet(st, Print(v))
    decreases v, 1
  {
    match v
    case Word(t) => PlainQuiet(st, t);
    case Num(n) => NumberQuiet(st, n);
    case Str(ps) => QuoteQuiet(st, ps);
    case Array(lead, items) =>
      var inner := lead + PrintItems(items);
      SpaceQuiet(st, lead);
      ItemsQuiet(items, false, st);
      QuietJoin(st, lead, PrintItems(items));
      PlainQuiet(st, "[");
      PlainQuiet(st, "]");
      QuietJoin(st, "[", inner);
      QuietJoin(st, "[" + inner, "]");
    case Object(lead, items) =>
      ObjectScan(v, st);
  }

  lemma {:induction false} ItemsQuiet(items: Items, named: bool, st: Scan)
    requires ItemsOk(items, named) && Outside(st) && st.depth >= 1
    ensures Quiet(st, PrintItems(items))
    decreases items, 0
  {
    match items
    case End =>
    case Item(nm, v, after, sep, rest) =>
      var comma := if rest.End? then "" else "," + sep;
      ItemsQuiet(rest, named, st);
      PlainQuiet(st, comma);
      QuietJoin(st, comma, PrintItems(rest));
      SpaceQuiet(st, after);
      QuietJoin(st, after, comma + PrintItems(rest));
      ValueQuiet(v, st);
      QuietJoin(st, Print(v), after + (comma + PrintItems(rest)));
      NameQuiet(st, nm);
      QuietJoin(st, PrintName(nm), Print(v) + (after + (comma + PrintItems(rest))));
  }

  lemma {:induction false} BraceBefore(st: Scan, inner: string)
    requires Outside(st) && st.depth >= 0 && Quiet(st.(depth := st.depth + 1), inner)
    ensures After(st, "{" + inner) == st.(depth := st.depth + 1) && Close(st, "{" + inner).None?
  {
    var text := "{" + inner;
    assert text[0] == '{' && text[1..] == inner;
  }

  lemma {:induction false} BraceBehind(st: Scan, text: string)
    requires Outside(st) && st.depth >= 0
    requires After(st, text) == st.(depth := st.depth + 1) && Close(st, text).None?
    ensures After(st, text + "}") == st
    ensures Close(st, text + "}") == if st.depth == 0 then Some(|text|) else None
  {
    Step1(st.(depth := st.depth + 1), '}');
    ScanOfJoin(st, text, "}");
  }

  /** An object goes one level down and comes back; from depth zero its last brace stops the scan. */
  lemma {:induction false} ObjectScan(v: Value, st: Scan)
    requires ValueOk(v) && v.Object? && Outside(st) && st.depth >= 0
    ensures After(st, Print(v)) == st
    ensures Close(st, Print(v)) == if st.depth == 0 then Some(|Print(v)| - 1) else None
    decreases v, 0
  {
    var down := st.(depth := st.depth + 1);
    SpaceQuiet(down, v.lead);
    ItemsQuiet(v.items, true, down);
    QuietJoin(down, v.lead, PrintItems(v.items));
    BraceBefore(st, v.lead + PrintItems(v.items));
    BraceBehind(st, "{" + (v.lead + PrintItems(v.items)));
  }

  /** Started at any printed object, whatever follows it, the scan returns exactly its text. */
  lemma ObjectComesBack(v: Value, suffix: string)
    requires ValueOk(v) && v.Object?
    ensures Close(ZERO, Print(v) + suffix) == Some(|Print(v)| - 1)
    ensures (Print(v) + suffix)[..|Print(v)|] == Print(v)
  {
    ObjectScan(v, ZERO);
    ScanOfJoin(ZERO, Print(v), suffix);
  }
}
