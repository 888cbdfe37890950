// src/opts.rs: splitting a SIP003 plugin_opts string into its entries, and the escaping printer it inverts.
module Options {
  import opened Bytes

  type Entry = (string, string)

  // ── trimming ───────────────────────────────────────────────────────────────

  /** Unicode White_Space, which `str::trim` strips. */
  predicate IsSpace(c: char) {
    var u := c as int;
    || 0x09 <= u <= 0x0D || u == 0x20 || u == 0x85 || u == 0xA0 || u == 0x1680
    || 0x2000 <= u <= 0x200A || u == 0x2028 || u == 0x2029 || u == 0x202F || u == 0x205F || u == 0x3000
  }

  /** The 25 characters one by one. */
  lemma WhiteSpace(c: char)
    ensures IsSpace(c) <==>
              c as int in {9, 10, 11, 12, 13, 32, 133, 160, 5760, 8192, 8193, 8194, 8195, 8196, 8197, 8198, 8199, 8200,
                           8201, 8202, 8232, 8233, 8239, 8287, 12288}
  {
  }

  predicate AllSpace(s: string) {
    forall k :: 0 <= k < |s| ==> IsSpace(s[k])
  }

  function TrimStart(s: string): string {
    if s != [] && IsSpace(s[0]) then TrimStart(s[1..]) else s
  }

  function TrimEnd(s: string): string {
    if s != [] && IsSpace(s[|s| - 1]) then TrimEnd(s[..|s| - 1]) else s
  }

  function Trim(s: string): string {
    TrimEnd(TrimStart(s))
  }

  /** No white space at either end. */
  predicate Trimmed(s: string) {
    s == [] || (!IsSpace(s[0]) && !IsSpace(s[|s| - 1]))
  }

  lemma {:induction false} TrimStartShape(s: string) returns (n: nat)
    ensures n <= |s| && TrimStart(s) == s[n..] && AllSpace(s[..n])
    ensures TrimStart(s) != [] ==> !IsSpace(TrimStart(s)[0])
  {
    n := 0;
    if s != [] && IsSpace(s[0]) {
      var m := TrimStartShape(s[1..]);
      n := m + 1;
      assert s[1..][m..] == s[n..];
      forall k | 0 <= k < n
        ensures IsSpace(s[..n][k])
      {
        if k > 0 {
          assert s[..n][k] == s[1..][..m][k - 1];
        }
      }
    }
  }

  lemma {:induction false} TrimEndShape(s: string) returns (n: nat)
    ensures n <= |s| && TrimEnd(s) == s[..n] && AllSpace(s[n..])
    ensures TrimEnd(s) != [] ==> !IsSpace(TrimEnd(s)[|TrimEnd(s)| - 1])
  {
    n := |s|;
    if s != [] && IsSpace(s[|s| - 1]) {
      n := TrimEndShape(s[..|s| - 1]);
      assert s[n..] == s[..|s| - 1][n..] + [s[|s| - 1]];
    }
  }

  lemma {:induction false} TrimStartDrops(pad: string, s: string)
    requires AllSpace(pad)
    ensures TrimStart(pad + s) == TrimStart(s)
  {
    if pad == [] {
      assert pad + s == s;
    } else {
      TrimStartDrops(pad[1..], s);
      assert (pad + s)[1..] == pad[1..] + s;
    }
  }

  lemma {:induction false} TrimEndDrops(s: string, pad: string)
    requires AllSpace(pad)
    ensures TrimEnd(s + pad) == TrimEnd(s)
  {
    if pad == [] {
      assert s + pad == s;
    } else {
      TrimEndDrops(s, pad[..|pad| - 1]);
      assert (s + pad)[..|s + pad| - 1] == s + pad[..|pad| - 1];
    }
  }

  lemma FrontIsTrimmed(t: string, m: nat)
    requires m <= |t| && (t != [] ==> !IsSpace(t[0])) && (t[..m] != [] ==> !IsSpace(t[..m][|t[..m]| - 1]))
    ensures Trimmed(t[..m])
  {
    if m > 0 {
      assert t[..m][0] == t[0];
    }
  }

  /** Trimming leaves a trimmed part of the string, and nothing but white space around it. */
  lemma TrimShape(s: string) returns (before: string, after: string)
    ensures s == before + Trim(s) + after && AllSpace(before) && AllSpace(after) && Trimmed(Trim(s))
  {
    var n := TrimStartShape(s);
    var t := TrimStart(s);
    var m := TrimEndShape(t);
    before, after := s[..n], t[m..];
    assert s == s[..n] + t && t == t[..m] + t[m..];
    Assoc(s[..n], t[..m], t[m..]);
    FrontIsTrimmed(t, m);
  }

  /** And whatever is surrounded by white space comes out whole. */
  lemma TrimPadded(before: string, s: string, after: string)
    requires AllSpace(before) && AllSpace(after) && Trimmed(s)
    ensures Trim(before + s + after) == s
  {
    Assoc(before, s, after);
    TrimStartDrops(before, s + after);
    if s == [] {
      assert s + after == after && after + [] == after;
      TrimStartDrops(after, []);
    } else {
      assert TrimStart(s + after) == s + after;
      TrimEndDrops(s, after);
    }
  }

  /** Blanks, tabs and line ends go from both ends and stay inside. */
  lemma TrimExample()
    ensures Trim(" \t\r\n" + "a \t b" + "\n\r\t ") == "a \t b"
  {
    TrimPadded(" \t\r\n", "a \t b", "\n\r\t ");
  }

  // ── splitting ──────────────────────────────────────────────────────────────

  predicate Special(c: char) {
    c == ';' || c == '=' || c == '\\'
  }

  /** The `;`-separated pieces with escapes resolved; `current` is the piece being collected. */
  function Pieces(raw: string, current: string): seq<string> {
    if raw == [] then [current]
    else if raw[0] == '\\' then
      if |raw| > 1 && Special(raw[1]) then Pieces(raw[2..], current + [raw[1]])
      else Pieces(raw[1..], current + ['\\'])
    else if raw[0] == ';' then [current] + Pieces(raw[1..], [])
    else Pieces(raw[1..], current + [raw[0]])
  }

  /** `split_once('=')`. */
  function SplitOnce(s: string): Option<Entry> {
    if s == [] then None
    else if s[0] == '=' then Some(([], s[1..]))
    else
      match SplitOnce(s[1..])
      case None => None
      case Some(kv) => Some(([s[0]] + kv.0, kv.1))
  }

  function ParsePiece(piece: string): seq<Entry> {
    if Trim(piece) == [] then []
    else
      match SplitOnce(Trim(piece))
      case None => []
      case Some(kv) => [(Trim(kv.0), Trim(kv.1))]
  }

  function ParsePieces(pieces: seq<string>): seq<Entry> {
    if |pieces| == 0 then [] else ParsePieces(pieces[..|pieces| - 1]) + ParsePiece(pieces[|pieces| - 1])
  }

  function Parse(raw: string): seq<Entry> {
    ParsePieces(Pieces(raw, []))
  }

  // ── what a raw string means ────────────────────────────────────────────────

  /** One unit of a raw string: an escaped character, a character standing for itself, or a separator. */
  datatype Token = Esc(c: char) | Bare(c: char) | Sep

  function RenderToken(t: Token): string {
    match t
    case Esc(c) => ['\\', c]
    case Bare(c) => [c]
    case Sep => [';']
  }

  function Render(ts: seq<Token>): string {
    if |ts| == 0 then [] else RenderToken(ts[0]) + Render(ts[1..])
  }

  /** Only `;`, `=` and the backslash can be escaped; a `;` never stands for itself, and a backslash does unless
      one of the three follows. */
  predicate MayPrecede(t: Token, rest: string) {
    match t
    case Esc(c) => c == ';' || c == '=' || c == '\\'
    case Bare(c) => c != ';' && (c == '\\' && rest != [] ==> rest[0] != ';' && rest[0] != '=' && rest[0] != '\\')
    case Sep => true
  }

  predicate WellFormed(ts: seq<Token>) {
    |ts| > 0 ==> MayPrecede(ts[0], Render(ts[1..])) && WellFormed(ts[1..])
  }

  /** The texts between the separators. */
  function TextsOf(ts: seq<Token>, current: string): seq<string> {
    if |ts| == 0 then [current]
    else
      match ts[0]
      case Esc(c) => TextsOf(ts[1..], current + [c])
      case Bare(c) => TextsOf(ts[1..], current + [c])
      case Sep => [current] + TextsOf(ts[1..], [])
  }

  lemma PiecesOfToken(t: Token, rest: string, current: string)
    requires MayPrecede(t, rest)
    ensures Pieces(RenderToken(t) + rest, current)
            == if t.Sep? then [current] + Pieces(rest, []) else Pieces(rest, current + [t.c])
  {
    var raw := RenderToken(t) + rest;
    if t.Esc? {
      assert raw[2..] == rest;
    } else {
      assert raw[1..] == rest;
    }
  }

  /** However a raw string is made up of tokens, the loop reads their texts. */
  lemma {:induction false} TokensAreRead(ts: seq<Token>, current: string)
    requires WellFormed(ts)
    ensures Pieces(Render(ts), current) == TextsOf(ts, current)
  {
    if |ts| > 0 {
      PiecesOfToken(ts[0], Render(ts[1..]), current);
      TokensAreRead(ts[1..], if ts[0].Sep? then [] else current + [ts[0].c]);
    }
  }

  lemma TokensCons(t: Token, ts: seq<Token>)
    requires WellFormed(ts) && MayPrecede(t, Render(ts))
    ensures WellFormed([t] + ts) && Render([t] + ts) == RenderToken(t) + Render(ts)
  {
    assert ([t] + ts)[1..] == ts;
  }

  /** And every raw string is made up of tokens. */
  lemma {:induction false} EveryStringHasTokens(raw: string) returns (ts: seq<Token>)
    ensures WellFormed(ts) && Render(ts) == raw
    decreases |raw|
  {
    if raw == [] {
      ts := [];
    } else if raw[0] == '\\' && |raw| > 1 && Special(raw[1]) {
      var rest := EveryStringHasTokens(raw[2..]);
      TokensCons(Esc(raw[1]), rest);
      ts := [Esc(raw[1])] + rest;
      assert raw == ['\\', raw[1]] + raw[2..];
    } else {
      var rest := EveryStringHasTokens(raw[1..]);
      var t := if raw[0] == ';' then Sep else Bare(raw[0]);
      TokensCons(t, rest);
      ts := [t] + rest;
      assert raw == [raw[0]] + raw[1..];
    }
  }

  // ── the loop ───────────────────────────────────────────────────────────────

  lemma TailOfTail(raw: string, i: nat, n: nat)
    requires i + n <= |raw|
    ensures raw[i..][n..] == raw[i + n..]
  {
  }

  /** `split_entries`: the character loop with its one-character lookahead, then the filter. However the string is
      made up of tokens, the entries are those of the texts between the separators. */
  method SplitEntries(raw: string) returns (entries: seq<Entry>)
    ensures entries == Parse(raw)
    ensures forall ts: seq<Token> :: WellFormed(ts) && Render(ts) == raw ==> entries == ParsePieces(TextsOf(ts, []))
  {
    var pieces: seq<string>, current: string, i: nat := [], [], 0;
    while i < |raw|
      invariant i <= |raw| && pieces + Pieces(raw[i..], current) == Pieces(raw, [])
      decreases |raw| - i
    {
      var rest := raw[i..];
      if raw[i] == '\\' {
        if i + 1 < |raw| && Special(raw[i + 1]) {
          TailOfTail(raw, i, 2);
          current := current + [raw[i + 1]];
          i := i + 2;
          continue;
        }
        current := current + ['\\'];
      } else if raw[i] == ';' {
        Assoc(pieces, [current], Pieces(rest[1..], []));
        pieces := pieces + [current];
        current := [];
      } else {
        current := current + [raw[i]];
      }
      TailOfTail(raw, i, 1);
      i := i + 1;
    }
    pieces := pieces + [current];
    entries := [];
    for k := 0 to |pieces|
      invariant entries == ParsePieces(pieces[..k])
    {
      entries := entries + ParsePiece(pieces[k]);
      assert pieces[..k + 1][..k] == pieces[..k];
    }
    assert pieces[..|pieces|] == pieces;
    forall ts: seq<Token> | WellFormed(ts) && Render(ts) == raw
      ensures Pieces(raw, []) == TextsOf(ts, [])
    {
      TokensAreRead(ts, []);
    }
  }

  // ── strings without escapes ────────────────────────────────────────────────

  function Join(pieces: seq<string>): string {
    if |pieces| == 0 then [] else if |pieces| == 1 then pieces[0] else pieces[0] + [';'] + Join(pieces[1..])
  }

  /** No backslash stands before `;`, `=` or a backslash. */
  predicate Unescaped(raw: string) {
    forall k :: 0 <= k < |raw| - 1 && raw[k] == '\\' ==> raw[k + 1] != ';' && raw[k + 1] != '=' && raw[k + 1] != '\\'
  }

  /** Then nothing is an escape: the pieces, joined again, are the raw string, with every backslash in it. */
  lemma {:induction false} UnescapedIsVerbatim(raw: string, current: string)
    requires Unescaped(raw)
    ensures |Pieces(raw, current)| > 0 && Join(Pieces(raw, current)) == current + raw
    decreases |raw|
  {
    if raw == [] {
      assert current + raw == current;
    } else {
      assert Unescaped(raw[1..]) by {
        assert forall k :: 0 <= k < |raw[1..]| ==> raw[1..][k] == raw[k + 1];
      }
      assert raw == [raw[0]] + raw[1..];
      if raw[0] == ';' {
        UnescapedIsVerbatim(raw[1..], []);
        JoinCons(current, Pieces(raw[1..], []));
        assert current + [';'] + ([] + raw[1..]) == current + raw;
      } else {
        UnescapedIsVerbatim(raw[1..], current + [raw[0]]);
        assert current + [raw[0]] + raw[1..] == current + raw;
      }
    }
  }

  lemma JoinCons(first: string, rest: seq<string>)
    requires |rest| > 0
    ensures Join([first] + rest) == first + [';'] + Join(rest)
  {
    assert ([first] + rest)[1..] == rest;
  }

  // ── printing ───────────────────────────────────────────────────────────────

  /** With `bare` the equals signs are left as they are. */
  function Escape(s: string, bare: bool): string {
    if s == [] then [] else EscapeChar(s[0], bare) + Escape(s[1..], bare)
  }

  function EscapeChar(c: char, bare: bool): string {
    if Special(c) && !(bare && c == '=') then ['\\', c] else [c]
  }

  /** One written item: an entry with white space around its parts, the equals signs of its value escaped or
      bare, or a blank. */
  datatype Item =
    | Pair(b0: string, key: string, b1: string, b2: string, value: string, b3: string, bare: bool)
    | Blank(space: string)

  /** The text between two `;`, before escaping. */
  function Text(it: Item): string {
    match it
    case Pair(b0, key, b1, b2, value, b3, bare) => (b0 + key + b1) + ['='] + (b2 + value + b3)
    case Blank(space) => space
  }

  function PrintItem(it: Item): string {
    match it
    case Pair(b0, key, b1, b2, value, b3, bare) => Escape(b0 + key + b1, false) + ['='] + Escape(b2 + value + b3, bare)
    case Blank(space) => Escape(space, false)
  }

  function PrintItems(items: seq<Item>): string {
    if |items| == 0 then []
    else if |items| == 1 then PrintItem(items[0])
    else PrintItem(items[0]) + [';'] + PrintItems(items[1..])
  }

  function PairsOf(items: seq<Item>): seq<Entry> {
    if |items| == 0 then []
    else
      PairsOf(items[..|items| - 1])
      + match items[|items| - 1] case Pair(_, k, _, _, v, _, _) => [(k, v)] case Blank(_) => []
  }

  /** The keys and values the syntax can carry. */
  predicate Expressible(e: Entry) {
    Trimmed(e.0) && Trimmed(e.1) && '=' !in e.0
  }

  predicate ItemOk(it: Item) {
    match it
    case Pair(b0, key, b1, b2, value, b3, bare) =>
      AllSpace(b0) && AllSpace(b1) && AllSpace(b2) && AllSpace(b3) && Expressible((key, value))
    case Blank(space) => AllSpace(space)
  }

  // ── the round trip ─────────────────────────────────────────────────────────

  /** Reading an escaped text collects the text. */
  lemma {:induction false} PiecesOfEscape(s: string, bare: bool, rest: string, current: string)
    ensures Pieces(Escape(s, bare) + rest, current) == Pieces(rest, current + s)
    decreases |s|
  {
    if s == [] {
      assert Escape(s, bare) + rest == rest && current + s == current;
    } else {
      Assoc(EscapeChar(s[0], bare), Escape(s[1..], bare), rest);
      PiecesOfChar(s[0], bare, Escape(s[1..], bare) + rest, current);
      PiecesOfEscape(s[1..], bare, rest, current + [s[0]]);
      assert current + [s[0]] + s[1..] == current + s;
    }
  }

  lemma PiecesOfChar(c: char, bare: bool, rest: string, current: string)
    ensures Pieces(EscapeChar(c, bare) + rest, current) == Pieces(rest, current + [c])
  {
    if Special(c) && !(bare && c == '=') {
      assert (['\\', c] + rest)[2..] == rest;
    } else {
      assert ([c] + rest)[1..] == rest;
    }
  }

  lemma PiecesOfItem(it: Item, rest: string)
    ensures Pieces(PrintItem(it) + rest, []) == Pieces(rest, Text(it))
  {
    match it
    case Blank(space) =>
      PiecesOfEscape(space, false, rest, []);
      assert [] + space == space;
    case Pair(b0, key, b1, b2, value, b3, bare) =>
      var left, right := b0 + key + b1, b2 + value + b3;
      var tail := Escape(right, bare) + rest;
      assert PrintItem(it) + rest == Escape(left, false) + (['='] + tail);
      PiecesOfEscape(left, false, ['='] + tail, []);
      assert [] + left == left && (['='] + tail)[1..] == tail;
      PiecesOfEscape(right, bare, rest, left + ['=']);
  }

  function Texts(items: seq<Item>): seq<string> {
    if |items| == 0 then [] else [Text(items[0])] + Texts(items[1..])
  }

  lemma {:induction false} PiecesOfItems(items: seq<Item>)
    requires |items| > 0
    ensures Pieces(PrintItems(items), []) == Texts(items)
  {
    var it := items[0];
    if |items| == 1 {
      PiecesOfItem(it, []);
      assert PrintItem(it) + [] == PrintItem(it);
      assert Texts(items) == [Text(it)];
    } else {
      var tail := PrintItems(items[1..]);
      PiecesOfItem(it, [';'] + tail);
      assert PrintItems(items) == PrintItem(it) + ([';'] + tail);
      assert ([';'] + tail)[1..] == tail;
      PiecesOfItems(items[1..]);
    }
  }

  lemma {:induction false} SplitAtFirst(key: string, value: string)
    requires '=' !in key
    ensures SplitOnce(key + ['='] + value) == Some((key, value))
  {
    var s := key + ['='] + value;
    if key == [] {
      assert s[1..] == value;
    } else {
      SplitAtFirst(key[1..], value);
      assert s[1..] == key[1..] + ['='] + value;
      assert key == [key[0]] + key[1..];
    }
  }

  lemma Regroup(p: string, x: string, e: string, y: string, q: string)
    ensures (p + x) + e + (y + q) == p + (x + e + y) + q
  {
  }

  lemma TrimmedAroundEquals(x: string, y: string)
    requires x != [] ==> !IsSpace(x[0])
    requires y != [] ==> !IsSpace(y[|y| - 1])
    ensures Trimmed(x + ['='] + y)
  {
  }

  /** Trimming around an `=` trims the two parts outwards only. */
  lemma TrimAroundEquals(a: string, b: string)
    ensures Trim(a + ['='] + b) == TrimStart(a) + ['='] + TrimEnd(b)
  {
    var n := TrimStartShape(a);
    var m := TrimEndShape(b);
    var x, y := TrimStart(a), TrimEnd(b);
    assert a == a[..n] + x && b == y + b[m..];
    Regroup(a[..n], x, ['='], y, b[m..]);
    TrimmedAroundEquals(x, y);
    TrimPadded(a[..n], x + ['='] + y, b[m..]);
  }

  lemma TrimInner(s: string)
    ensures Trim(TrimEnd(s)) == Trim(s)
  {
    var before, after := TrimShape(s);
    var m := TrimEndShape(s);
    var t := Trim(s);
    if t == [] {
      assert AllSpace(s) by { assert s == before + after; }
      assert AllSpace(TrimEnd(s));
      TrimPadded(TrimEnd(s), [], []);
      assert TrimEnd(s) + [] + [] == TrimEnd(s);
    } else {
      TrimEndDrops(before + t, after);
      assert TrimEnd(before + t) == before + t;
      TrimPadded(before, t, []);
      assert before + t + [] == before + t;
    }
  }

  lemma NoEquals(pad: string)
    requires AllSpace(pad)
    ensures '=' !in pad
  {
  }

  /** A piece is split at its first `=`, and both parts are trimmed. */
  lemma PieceIsSplit(a: string, b: string)
    requires '=' !in a
    ensures ParsePiece(a + ['='] + b) == [(Trim(a), Trim(b))]
  {
    var n := TrimStartShape(a);
    TrimAroundEquals(a, b);
    SplitAtFirst(TrimStart(a), TrimEnd(b));
    assert Trim(TrimStart(a)) == Trim(a) by {
      assert TrimStart(TrimStart(a)) == TrimStart(a);
    }
    TrimInner(b);
  }

  /** A piece without an `=`, blank or not, gives no entry. */
  lemma PieceWithoutEquals(piece: string)
    requires '=' !in piece
    ensures ParsePiece(piece) == []
  {
    var before, after := TrimShape(piece);
    SplitNeedsEquals(Trim(piece));
  }

  lemma {:induction false} SplitNeedsEquals(s: string)
    ensures SplitOnce(s).None? <==> '=' !in s
  {
    if s != [] && s[0] != '=' {
      SplitNeedsEquals(s[1..]);
      assert s == [s[0]] + s[1..];
    }
  }

  lemma ParsePair(it: Item)
    requires it.Pair? && ItemOk(it)
    ensures ParsePiece(Text(it)) == [(it.key, it.value)]
  {
    TrimPadded(it.b0, it.key, it.b1);
    TrimPadded(it.b2, it.value, it.b3);
    NoEquals(it.b0);
    NoEquals(it.b1);
    PieceIsSplit(it.b0 + it.key + it.b1, it.b2 + it.value + it.b3);
  }

  lemma ParseBlank(space: string)
    requires AllSpace(space)
    ensures ParsePiece(space) == []
  {
    TrimPadded(space, [], []);
    assert space + [] + [] == space;
  }

  lemma {:induction false} ParseTexts(items: seq<Item>)
    requires forall k :: 0 <= k < |items| ==> ItemOk(items[k])
    ensures |Texts(items)| == |items| && forall k :: 0 <= k < |items| ==> Texts(items)[k] == Text(items[k])
    ensures ParsePieces(Texts(items)) == PairsOf(items)
  {
    TextsAt(items);
    if |items| > 0 {
      var n := |items| - 1;
      ParseTexts(items[..n]);
      TextsAt(items[..n]);
      assert Texts(items)[..n] == Texts(items[..n]);
      if items[n].Pair? { ParsePair(items[n]); } else { ParseBlank(items[n].space); }
    }
  }

  lemma {:induction false} TextsAt(items: seq<Item>)
    ensures |Texts(items)| == |items| && forall k :: 0 <= k < |items| ==> Texts(items)[k] == Text(items[k])
  {
    if |items| > 0 {
      TextsAt(items[1..]);
    }
  }

  /** Splitting inverts printing, with any white space around keys, values and entries, and any number of
      blank entries thrown in; the equals signs of a value may be escaped or not. */
  lemma SpacedRoundTrip(items: seq<Item>)
    requires forall k :: 0 <= k < |items| ==> ItemOk(items[k])
    ensures Parse(PrintItems(items)) == PairsOf(items)
  {
    if |items| == 0 {
      ParseBlank([]);
      assert ParsePieces([[]]) == ParsePieces([]) + ParsePiece([]);
    } else {
      PiecesOfItems(items);
      ParseTexts(items);
    }
  }

  function Plain(e: Entry, bare: bool): Item {
    Pair([], e.0, [], [], e.1, [], bare)
  }

  function PlainItems(entries: seq<Entry>, bare: bool): (items: seq<Item>)
    ensures |items| == |entries| && forall k :: 0 <= k < |entries| ==> items[k] == Plain(entries[k], bare)
  {
    if |entries| == 0 then [] else PlainItems(entries[..|entries| - 1], bare) + [Plain(entries[|entries| - 1], bare)]
  }

  function Print(entries: seq<Entry>, bare: bool): string {
    PrintItems(PlainItems(entries, bare))
  }

  lemma {:induction false} PairsOfPlain(entries: seq<Entry>, bare: bool)
    ensures PairsOf(PlainItems(entries, bare)) == entries
  {
    if |entries| > 0 {
      var n := |entries| - 1;
      PairsOfPlain(entries[..n], bare);
      assert PlainItems(entries, bare)[..n] == PlainItems(entries[..n], bare);
      assert entries == entries[..n] + [(entries[n].0, entries[n].1)];
    }
  }

  /** Whatever was written, the entries that come out are expressible. */
  lemma {:induction false} ParsedIsExpressible(pieces: seq<string>)
    ensures forall k :: 0 <= k < |ParsePieces(pieces)| ==> Expressible(ParsePieces(pieces)[k])
  {
    if |pieces| > 0 {
      ParsedIsExpressible(pieces[..|pieces| - 1]);
      var piece := pieces[|pieces| - 1];
      if ParsePiece(piece) != [] {
        var kv := SplitOnce(Trim(piece)).value;
        SplitKeyHasNoEquals(Trim(piece));
        var b0, b1 := TrimShape(kv.0);
        var b2, b3 := TrimShape(kv.1);
      }
    }
  }

  lemma {:induction false} SplitKeyHasNoEquals(s: string)
    ensures SplitOnce(s).Some? ==> '=' !in SplitOnce(s).value.0
  {
    if s != [] && s[0] != '=' {
      SplitKeyHasNoEquals(s[1..]);
    }
  }

  /** The round trip holds for a list of entries exactly when every key and value is trimmed and no key
      contains `=`, whether or not the equals signs of the values are escaped: that escape is resolved before
      the entry is split, so it protects nothing in a key and nothing in a value needs it. */
  lemma RoundTripIff(entries: seq<Entry>, bare: bool)
    ensures Parse(Print(entries, bare)) == entries <==> forall k :: 0 <= k < |entries| ==> Expressible(entries[k])
  {
    if forall k :: 0 <= k < |entries| ==> Expressible(entries[k]) {
      SpacedRoundTrip(PlainItems(entries, bare));
      PairsOfPlain(entries, bare);
    }
    ParsedIsExpressible(Pieces(Print(entries, bare), []));
  }

  lemma OneText(it: Item)
    ensures Texts([it]) == [Text(it)]
  {
    assert [it][1..] == [];
  }

  lemma OnePiece(piece: string)
    ensures ParsePieces([piece]) == ParsePiece(piece)
  {
    assert [piece][..0] == [];
    assert ParsePieces([]) == [];
  }

  /** Written one way, the text between two `;` reads another way. */
  lemma SameText(key: string, rest: string, value: string)
    ensures Text(Plain((key + ['='] + rest, value), false))
            == Text(Pair([], key, [], [], rest + ['='] + value, [], false))
  {
    var left, right := key + ['='] + rest, rest + ['='] + value;
    assert [] + left + [] == left && [] + value + [] == value && [] + key + [] == key && [] + right + [] == right;
    Regroup([], key, ['='], rest, ['='] + value);
    assert left + ['='] + value == key + ['='] + right;
  }

  /** What happens instead: the part of the key after an escaped `=` moves into the value. */
  lemma EscapedKeyIsSplit(key: string, rest: string, value: string)
    requires Trimmed(key) && '=' !in key && Trimmed(rest + ['='] + value)
    ensures Parse(Print([(key + ['='] + rest, value)], false)) == [(key, rest + ['='] + value)]
  {
    var it := Plain((key + ['='] + rest, value), false);
    var read := Pair([], key, [], [], rest + ['='] + value, [], false);
    var written := PlainItems([(key + ['='] + rest, value)], false);
    assert written == [it];
    PiecesOfItems(written);
    SameText(key, rest, value);
    OneText(it);
    ParsePair(read);
    OnePiece(Text(it));
  }

  /** For instance: written as the pair (a=b, c), read as the pair (a, b=c). */
  lemma EscapedKeyExample()
    ensures Parse(Print([("a=b", "c")], false)) == [("a", "b=c")]
  {
    EscapedKeyIsSplit("a", "b", "c");
    assert "a" + ['='] + "b" == "a=b" && "b" + ['='] + "c" == "b=c";
  }
}
