// backend/store/sql.go: array literals, printed and scanned, and the checkpoint list.
module ArrayLiteral {
  import opened Wrappers
  import opened Phases

  type Byte = b: int | 0 <= b < 256

  type Bytes = seq<Byte>

  const Quote: Byte := 34
  const Comma: Byte := 44
  const Backslash: Byte := 92
  const Open: Byte := 123
  const Close: Byte := 125

  // ---- printing ------------------------------------------------------------------

  function Escaped(v: Bytes): Bytes {
    if v == [] then []
    else (if v[0] == Backslash || v[0] == Quote then [Backslash, v[0]] else [v[0]]) + Escaped(v[1..])
  }

  function Quoted(v: Bytes): Bytes { [Quote] + Escaped(v) + [Quote] }

  function Joined(items: seq<Bytes>): Bytes {
    if items == [] then []
    else if |items| == 1 then items[0]
    else items[0] + [Comma] + Joined(items[1..])
  }

  function AllQuoted(items: seq<Bytes>): seq<Bytes> { seq(|items|, i requires 0 <= i < |items| => Quoted(items[i])) }

  function Literal(items: seq<Bytes>): Bytes { [Open] + Joined(AllQuoted(items)) + [Close] }

  /** Postgres array syntax; an empty list is {} and never NULL. */
  method TextArray(items: seq<Bytes>) returns (literal: Bytes)
    ensures literal == Literal(items)
  {
    if items == [] {
      assert Joined(AllQuoted(items)) == [];
      return [Open, Close];
    }
    var quoted: seq<Bytes> := [];
    for i := 0 to |items|
      invariant quoted == AllQuoted(items)[..i]
    {
      var escaped := Escape(items[i]);
      quoted := quoted + [[Quote] + escaped + [Quote]];
    }
    assert quoted == AllQuoted(items);
    literal := Join(quoted);
    return [Open] + literal + [Close];
  }

  lemma {:induction false} EscapedSnoc(v: Bytes, c: Byte)
    ensures Escaped(v + [c]) == Escaped(v) + Escaped([c])
  {
    if v == [] {
      assert v + [c] == [c];
    } else {
      assert (v + [c])[1..] == v[1..] + [c];
      EscapedSnoc(v[1..], c);
    }
  }

  method Escape(v: Bytes) returns (escaped: Bytes)
    ensures escaped == Escaped(v)
  {
    escaped := [];
    for i := 0 to |v|
      invariant escaped == Escaped(v[..i])
    {
      EscapedSnoc(v[..i], v[i]);
      assert v[..i + 1] == v[..i] + [v[i]];
      if v[i] == Backslash || v[i] == Quote {
        escaped := escaped + [Backslash];
      }
      escaped := escaped + [v[i]];
    }
    assert v[..|v|] == v;
  }

  method Join(items: seq<Bytes>) returns (joined: Bytes)
    requires items != []
    ensures joined == Joined(items)
  {
    joined := items[0];
    for i := 1 to |items|
      invariant joined + (if i == |items| then [] else [Comma] + Joined(items[i..])) == Joined(items)
    {
      assert items[i..][1..] == items[i + 1..];
      joined := joined + [Comma] + items[i];
    }
  }

  // ---- scanning --------------------------------------------------------------------

  datatype Scanner = Scanner(out: seq<Bytes>, current: Bytes, quoted: bool, escaped: bool)

  function Step(s: Scanner, c: Byte): Scanner {
    if s.escaped then s.(current := s.current + [c], escaped := false)
    else if c == Backslash then s.(escaped := true)
    else if c == Quote then s.(quoted := !s.quoted)
    else if c == Comma && !s.quoted then s.(out := s.out + [s.current], current := [])
    else s.(current := s.current + [c])
  }

  function Feed(s: Scanner, bytes: Bytes): Scanner
    decreases |bytes|
  {
    if bytes == [] then s else Feed(Step(s, bytes[0]), bytes[1..])
  }

  lemma {:induction false} FeedConcat(s: Scanner, a: Bytes, b: Bytes)
    ensures Feed(s, a + b) == Feed(Feed(s, a), b)
    decreases |a|
  {
    if a == [] {
      assert a + b == b;
    } else {
      assert (a + b)[0] == a[0] && (a + b)[1..] == a[1..] + b;
      FeedConcat(Step(s, a[0]), a[1..], b);
    }
  }

  const Start := Scanner([], [], false, false)

  predicate IsSpace(b: Byte) { 9 <= b <= 13 || b == 32 }

  function Trimmed(raw: Bytes): Bytes
    decreases |raw|
  {
    if raw != [] && IsSpace(raw[0]) then Trimmed(raw[1..])
    else if raw != [] && IsSpace(raw[|raw| - 1]) then Trimmed(raw[..|raw| - 1])
    else raw
  }

  /** What a column hands the scanner: NULL, text, or a value of some other type. */
  datatype Source = Null | Text(raw: Bytes) | Foreign

  function Scanned(src: Source): Option<seq<Bytes>> {
    match src
    case Null => Some([])
    case Foreign => None
    case Text(text) =>
      var raw := Trimmed(text);
      if raw == [] || raw[0] != Open || raw[|raw| - 1] != Close then None
      else if |raw| == 2 then Some([])
      else
        assert |raw| > 2;
        var s := Feed(Start, raw[1..|raw| - 1]);
        Some(s.out + [s.current])
  }

  /** None is the error; NULL and {} are the empty list. */
  method Scan(src: Source) returns (dest: Option<seq<Bytes>>)
    ensures dest == Scanned(src)
  {
    var raw: Bytes;
    match src {
      case Null => return Some([]);
      case Foreign => return None;
      case Text(text) => raw := Trimmed(text);
    }
    if |raw| == 0 || raw[0] != Open || raw[|raw| - 1] != Close { return None; }
    raw := raw[1..|raw| - 1];
    if |raw| == 0 { return Some([]); }
    var out: seq<Bytes>, current: Bytes, quoted, escaped := [], [], false, false;
    for i := 0 to |raw|
      invariant Scanner(out, current, quoted, escaped) == Feed(Start, raw[..i])
    {
      var c := raw[i];
      FeedConcat(Start, raw[..i], [c]);
      assert raw[..i + 1] == raw[..i] + [c];
      assert Feed(Feed(Start, raw[..i]), [c]) == Step(Feed(Start, raw[..i]), c);
      if escaped {
        current := current + [c];
        escaped := false;
      } else if c == Backslash {
        escaped := true;
      } else if c == Quote {
        quoted := !quoted;
      } else if c == Comma && !quoted {
        out := out + [current];
        current := [];
      } else {
        current := current + [c];
      }
    }
    assert raw[..|raw|] == raw;
    return Some(out + [current]);
  }

  // ---- what is printed is what is scanned -------------------------------------------

  /** An element that may stand without quotes (section 8.15.6 of the PostgreSQL manual). */
  predicate Plain(v: Bytes) { v != [] && forall i | 0 <= i < |v| :: Ordinary(v[i]) }

  predicate Ordinary(b: Byte) {
    b != Quote && b != Comma && b != Backslash && b != Open && b != Close && !IsSpace(b)
  }

  /** An element as TextArray prints it, or as the server prints it back when it needs no quotes. */
  predicate Renders(text: Bytes, v: Bytes) { text == Quoted(v) || (text == v && Plain(v)) }

  lemma ByteReads(s: Scanner, c: Byte)
    requires s.quoted && !s.escaped
    ensures Feed(s, if c == Backslash || c == Quote then [Backslash, c] else [c]) == s.(current := s.current + [c])
  {
    if c == Backslash || c == Quote {
      assert [Backslash, c][1..] == [c];
      assert Feed(s.(escaped := true), [c]) == s.(current := s.current + [c]);
    }
  }

  lemma {:induction false} EscapedReads(s: Scanner, v: Bytes)
    requires s.quoted && !s.escaped
    ensures Feed(s, Escaped(v)) == s.(current := s.current + v)
    decreases |v|
  {
    if v == [] {
      assert s.current + v == s.current;
    } else {
      var head := if v[0] == Backslash || v[0] == Quote then [Backslash, v[0]] else [v[0]];
      FeedConcat(s, head, Escaped(v[1..]));
      ByteReads(s, v[0]);
      EscapedReads(s.(current := s.current + [v[0]]), v[1..]);
      assert s.current + [v[0]] + v[1..] == s.current + v;
    }
  }

  lemma {:induction false} PlainReads(s: Scanner, v: Bytes)
    requires !s.quoted && !s.escaped && forall i | 0 <= i < |v| :: Ordinary(v[i])
    ensures Feed(s, v) == s.(current := s.current + v)
    decreases |v|
  {
    if v == [] {
      assert s.current + v == s.current;
    } else {
      assert Ordinary(v[0]);
      PlainReads(s.(current := s.current + [v[0]]), v[1..]);
      assert s.current + [v[0]] + v[1..] == s.current + v;
    }
  }

  lemma ElementReads(out: seq<Bytes>, text: Bytes, v: Bytes)
    requires Renders(text, v)
    ensures Feed(Scanner(out, [], false, false), text) == Scanner(out, v, false, false)
  {
    var s := Scanner(out, [], false, false);
    assert [] + v == v;
    if text == Quoted(v) {
      FeedConcat(s, [Quote] + Escaped(v), [Quote]);
      FeedConcat(s, [Quote], Escaped(v));
      EscapedReads(s.(quoted := true), v);
    } else {
      PlainReads(s, v);
    }
  }

  lemma {:induction false} JoinedReads(out: seq<Bytes>, texts: seq<Bytes>, items: seq<Bytes>)
    requires |texts| == |items| > 0 && forall i | 0 <= i < |items| :: Renders(texts[i], items[i])
    ensures var s := Feed(Scanner(out, [], false, false), Joined(texts)); s.out + [s.current] == out + items
    decreases |items|
  {
    var s := Scanner(out, [], false, false);
    ElementReads(out, texts[0], items[0]);
    if |items| == 1 {
      assert items == [items[0]];
    } else {
      FeedConcat(s, texts[0] + [Comma], Joined(texts[1..]));
      FeedConcat(s, texts[0], [Comma]);
      assert Feed(s, texts[0] + [Comma]) == Scanner(out + [items[0]], [], false, false);
      JoinedReads(out + [items[0]], texts[1..], items[1..]);
      assert out + [items[0]] + items[1..] == out + items;
    }
  }

  lemma BracedScans(inner: Bytes)
    ensures Scanned(Text([Open] + inner + [Close])) ==
      if inner == [] then Some([]) else var s := Feed(Start, inner); Some(s.out + [s.current])
  {
    var raw := [Open] + inner + [Close];
    assert raw[0] == Open && raw[|raw| - 1] == Close && Trimmed(raw) == raw;
    assert raw[1..|raw| - 1] == inner;
  }

  /**
   * Every list of byte strings survives: printed element by element with quotes,
   * or without them where the syntax allows, it scans back to itself.
   */
  lemma LiteralsRoundTrip(texts: seq<Bytes>, items: seq<Bytes>)
    requires |texts| == |items| && forall i | 0 <= i < |items| :: Renders(texts[i], items[i])
    ensures Scanned(Text([Open] + Joined(texts) + [Close])) == Some(items)
  {
    BracedScans(Joined(texts));
    if items != [] {
      assert Renders(texts[0], items[0]) && texts[0] != [];
      JoinedReads([], texts, items);
      assert [] + items == items;
    }
  }

  // ---- what is printed, to the byte ---------------------------------------------------

  lemma {:induction false} NothingToEscape(v: Bytes)
    requires forall i | 0 <= i < |v| :: v[i] != 34 && v[i] != 92
    ensures Escaped(v) == v
  {
    if v != [] { NothingToEscape(v[1..]); }
  }

  /** An element stands between double quotes; a quote or a backslash in it takes a backslash before it. */
  lemma QuotedBytes(v: Bytes, w: Bytes)
    requires forall i | 0 <= i < |v| :: v[i] != 34 && v[i] != 92
    ensures Quoted(v) == [34] + v + [34]
    ensures Escaped(v + [34] + w) == v + [92, 34] + Escaped(w)
    ensures Escaped(v + [92] + w) == v + [92, 92] + Escaped(w)
  {
    NothingToEscape(v);
    EscapedConcat(v, [34] + w);
    EscapedConcat(v, [92] + w);
    assert v + [34] + w == v + ([34] + w) && v + [92] + w == v + ([92] + w);
    assert ([34] + w)[1..] == w && ([92] + w)[1..] == w;
  }

  lemma {:induction false} EscapedConcat(v: Bytes, w: Bytes)
    ensures Escaped(v + w) == Escaped(v) + Escaped(w)
  {
    if v == [] {
      assert v + w == w;
    } else {
      assert (v + w)[1..] == v[1..] + w;
      EscapedConcat(v[1..], w);
    }
  }

  /** Elements are separated by commas and stand between braces. */
  lemma LiteralBytes(v: Bytes, rest: seq<Bytes>)
    ensures Literal([]) == [123, 125]
    ensures Literal([v]) == [123] + Quoted(v) + [125]
    ensures rest != [] ==> Literal([v] + rest) == [123] + Quoted(v) + [44] + Literal(rest)[1..]
  {
    assert AllQuoted([v]) == [Quoted(v)];
    assert AllQuoted([v] + rest) == [Quoted(v)] + AllQuoted(rest);
    assert AllQuoted([v] + rest)[1..] == AllQuoted(rest);
    assert Literal(rest)[1..] == Joined(AllQuoted(rest)) + [125];
  }

  predicate Blank(b: Byte) { b in {9, 10, 11, 12, 13, 32} }

  /** Trimming takes the blanks off both ends and nothing else. */
  lemma {:induction false} TrimmedIs(raw: Bytes) returns (before: Bytes, after: Bytes)
    ensures raw == before + Trimmed(raw) + after
    ensures forall b | b in before + after :: Blank(b)
    ensures Trimmed(raw) != [] ==> !Blank(Trimmed(raw)[0]) && !Blank(Trimmed(raw)[|Trimmed(raw)| - 1])
    decreases |raw|
  {
    before, after := [], [];
    if raw != [] && IsSpace(raw[0]) {
      before, after := TrimmedIs(raw[1..]);
      before := [raw[0]] + before;
    } else if raw != [] && IsSpace(raw[|raw| - 1]) {
      before, after := TrimmedIs(raw[..|raw| - 1]);
      after := after + [raw[|raw| - 1]];
    }
  }

  predicate InBraces(raw: Bytes) { |raw| >= 2 && raw[0] == 123 && raw[|raw| - 1] == 125 }

  /** Scanning fails exactly on what is no text, or no text in braces; NULL reads as nothing. */
  lemma ScanFailsIff(src: Source)
    ensures Scanned(src).Some? <==> src.Null? || (src.Text? && InBraces(Trimmed(src.raw)))
    ensures src.Null? ==> Scanned(src) == Some([])
  {}

  lemma TextArrayRoundTrips(items: seq<Bytes>)
    ensures Scanned(Text(Literal(items))) == Some(items)
  {
    LiteralsRoundTrip(AllQuoted(items), items);
  }
}
