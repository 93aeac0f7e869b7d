// backend/app/chatprompt.go: a thread quoted into a prompt, within a budget of bytes.
module Quoting {
  import opened Numbers
  import opened Wrappers
  import opened ArrayLiteral

  type PostId = nat

  datatype Post = Post(id: PostId, username: Bytes, fromSelf: bool, text: Bytes, createdAt: int, system: bool)

  // ---- one post --------------------------------------------------------------------

  const Newline: Byte := 10
  /** " […]" in UTF-8. */
  const Ellipsis: Bytes := [32, 91, 0xE2, 0x80, 0xA6, 93]
  /** "someone" and " (you)". */
  const Someone: Bytes := [115, 111, 109, 101, 111, 110, 101]
  const You: Bytes := [32, 40, 121, 111, 117, 41]

  /** A byte that begins a character: anything but 10xxxxxx. */
  predicate RuneStart(b: Byte) { b < 0x80 || b >= 0xC0 }

  /** A cut after n bytes splits no character. */
  predicate Boundary(s: Bytes, n: nat) { n == 0 || n == |s| || (n < |s| && RuneStart(s[n])) }

  function LastBoundary(s: Bytes, n: nat): (m: nat)
    requires n < |s|
    ensures m <= n && Boundary(s, m) && forall k | m < k <= n :: !Boundary(s, k)
  {
    if n == 0 || RuneStart(s[n]) then n else LastBoundary(s, n - 1)
  }

  function Cut(s: Bytes, n: int): Bytes {
    if n <= 0 then [] else if |s| <= n then s else s[..LastBoundary(s, n)]
  }

  /** No cut comes before the second or a later byte of a character, and none is shorter than that takes. */
  lemma CutSplitsNothing(s: Bytes, n: int)
    ensures 0 < |Cut(s, n)| < |s| ==> !(0x80 <= s[|Cut(s, n)|] < 0xC0)
    ensures forall k | |Cut(s, n)| < k <= n && k < |s| :: 0x80 <= s[k] < 0xC0
  {
    if 0 < n < |s| {
      forall k | |Cut(s, n)| < k <= n ensures 0x80 <= s[k] < 0xC0 { assert !Boundary(s, k); }
    }
  }

  /** The longest prefix of at most n bytes that splits no character. */
  method CutBytes(s: Bytes, n: int) returns (cut: Bytes)
    ensures cut == Cut(s, n) && cut <= s && |cut| <= (if n <= 0 then 0 else n) && Boundary(s, |cut|)
    ensures forall k | |cut| < k <= n && k <= |s| :: !Boundary(s, k)
    ensures 0 < |cut| < |s| ==> !(0x80 <= s[|cut|] < 0xC0)
    ensures forall k | |cut| < k <= n && k < |s| :: 0x80 <= s[k] < 0xC0
  {
    CutSplitsNothing(s, n);
    if n <= 0 { return []; }
    if |s| <= n { return s; }
    var m := n;
    while m > 0 && !RuneStart(s[m])
      invariant 0 <= m <= n && LastBoundary(s, m) == LastBoundary(s, n)
    {
      m := m - 1;
    }
    return s[..m];
  }

  function Speaker(username: Bytes, self: bool): Bytes {
    (if username == [] then Someone else username) + if self then You else []
  }

  /** Continuation lines are indented. */
  function Indented(text: Bytes): Bytes {
    if text == [] then []
    else (if text[0] == Newline then [Newline, 32, 32] else [text[0]]) + Indented(text[1..])
  }

  function Head(p: Post): Bytes { Speaker(p.username, p.fromSelf) + [58, 32] }

  function QuotePost(p: Post, limit: int): (quoted: Bytes)
    ensures quoted != []
  {
    var head, text := Head(p), Indented(Trimmed(p.text));
    var room := limit - |head| - 1;
    head + (if |text| > room then Cut(text, room - |Ellipsis|) + Ellipsis else text) + [Newline]
  }

  /** A quoted post keeps to its limit unless the name alone, with the mark of a cut, is longer. */
  lemma QuotedPostFits(p: Post, limit: int)
    ensures |QuotePost(p, limit)| <= limit || |QuotePost(p, limit)| == |Head(p)| + |Ellipsis| + 1
  {
    var head, text := Head(p), Indented(Trimmed(p.text));
    var room := limit - |head| - 1;
    if |text| > room && room - |Ellipsis| > 0 {
      assert |Cut(text, room - |Ellipsis|)| <= room - |Ellipsis|;
    }
  }

  /** These bytes are this text. */
  predicate Spells(b: Bytes, s: string) { |b| == |s| && forall i | 0 <= i < |s| :: b[i] == s[i] as int }

  /** Who a post is from, with its colon: a post of nobody is someone's, and the bot's own is marked. */
  predicate Introduces(head: Bytes, p: Post) {
    var name := if p.username == [] then 7 else |p.username|;
    && |head| == name + (if p.fromSelf then 6 else 0) + 2
    && (if p.username == [] then Spells(head[..name], "someone") else head[..name] == p.username)
    && (p.fromSelf ==> Spells(head[name..name + 6], " (you)"))
    && Spells(head[|head| - 2..], ": ")
  }

  /** The text is all there, or cut with a mark: " […]". */
  ghost predicate CutOff(body: Bytes, text: Bytes, limit: int) {
    if |text| <= limit then body == text
    else exists cut :: cut <= text && body == cut + [32, 91, 0xE2, 0x80, 0xA6, 93] && (cut == [] || |body| <= limit)
  }

  /** A post is quoted as who, what, and an end of line. */
  lemma QuotedPostReads(p: Post, limit: int)
    ensures var quoted, head, text := QuotePost(p, limit), Head(p), Indented(Trimmed(p.text));
      && Introduces(head, p) && |quoted| > |head| && quoted[..|head|] == head && quoted[|quoted| - 1] == 10
      && CutOff(quoted[|head|..|quoted| - 1], text, limit - |head| - 1)
  {
    HeadReads(p);
    var head, text := Head(p), Indented(Trimmed(p.text));
    var room := limit - |head| - 1;
    if |text| > room {
      CutIsMarked(text, room);
      assert QuotePost(p, limit)[|head|..|QuotePost(p, limit)| - 1] == Cut(text, room - 6) + Ellipsis;
    } else {
      assert QuotePost(p, limit)[|head|..|QuotePost(p, limit)| - 1] == text;
    }
  }

  lemma CutIsMarked(text: Bytes, room: int)
    requires |text| > room
    ensures CutOff(Cut(text, room - 6) + Ellipsis, text, room)
  {
    var cut := Cut(text, room - 6);
    assert cut <= text && (cut == [] || |cut| <= room - 6);
  }

  lemma HeadReads(p: Post)
    ensures Introduces(Head(p), p)
  {
    var head, name := Head(p), if p.username == [] then Someone else p.username;
    assert head[..|name|] == name && head[|head| - 2..] == [58, 32];
    if p.fromSelf { assert head[|name|..|name| + 6] == You; }
  }

  /** Every line of a text but its first is indented by two blanks, and nothing else is changed. */
  lemma {:induction false} IndentedLines(line: Bytes, rest: Bytes)
    requires forall i | 0 <= i < |line| :: line[i] != 10
    ensures Indented(line) == line
    ensures Indented(line + [10] + rest) == line + [10, 32, 32] + Indented(rest)
  {
    if line == [] {
      assert line + [10] + rest == [10] + rest && ([10] + rest)[1..] == rest;
    } else {
      var all := line + [10] + rest;
      assert all[1..] == line[1..] + [10] + rest;
      IndentedLines(line[1..], rest);
    }
  }

  // ---- which posts -------------------------------------------------------------------

  /** The root, if it was kept, and everything from start on. */
  datatype Selection = Selection(root: nat, rootKept: bool, start: nat) {
    predicate Keeps(i: nat) { (rootKept && i == root) || i >= start }
  }

  /** Going back from i, where the newest posts that fit begin; a kept root costs nothing more. */
  function SuffixStart(rendered: seq<Bytes>, root: nat, rootKept: bool, used: nat, budget: nat, i: nat): (start: nat)
    requires i <= |rendered|
    ensures start <= i
    decreases i
  {
    if i == 0 then 0
    else if rootKept && i - 1 == root then SuffixStart(rendered, root, rootKept, used, budget, i - 1)
    else if used + |rendered[i - 1]| > budget then i
    else SuffixStart(rendered, root, rootKept, used + |rendered[i - 1]|, budget, i - 1)
  }

  function Select(rendered: seq<Bytes>, root: nat, budget: nat): Selection
    requires root < |rendered|
  {
    var rootKept := |rendered[root]| <= budget;
    Selection(root, rootKept,
              SuffixStart(rendered, root, rootKept, if rootKept then |rendered[root]| else 0, budget, |rendered|))
  }

  /** The bytes of the kept posts from i on. */
  function KeptBytes(rendered: seq<Bytes>, sel: Selection, i: nat): nat
    requires i <= |rendered|
    decreases |rendered| - i
  {
    if i == |rendered| then 0
    else (if sel.Keeps(i) then |rendered[i]| else 0) + KeptBytes(rendered, sel, i + 1)
  }

  /** The bytes of the posts from i on, the root's apart if it was kept. */
  function SuffixBytes(rendered: seq<Bytes>, root: nat, rootKept: bool, i: nat): nat
    requires i <= |rendered|
    decreases |rendered| - i
  {
    if i == |rendered| then 0
    else (if rootKept && i == root then 0 else |rendered[i]|) + SuffixBytes(rendered, root, rootKept, i + 1)
  }

  lemma {:induction false} SuffixFits(rendered: seq<Bytes>, root: nat, rootKept: bool, first: nat, used: nat, budget: nat, i: nat)
    requires i <= |rendered| && used <= budget && used == first + SuffixBytes(rendered, root, rootKept, i)
    ensures var start := SuffixStart(rendered, root, rootKept, used, budget, i);
      && first + SuffixBytes(rendered, root, rootKept, start) <= budget
      && (start > 0 ==> !(rootKept && start - 1 == root)
                        && first + SuffixBytes(rendered, root, rootKept, start) + |rendered[start - 1]| > budget)
    decreases i
  {
    if i > 0 && !(rootKept && i - 1 == root) && used + |rendered[i - 1]| <= budget {
      SuffixFits(rendered, root, rootKept, first, used + |rendered[i - 1]|, budget, i - 1);
    } else if i > 0 && rootKept && i - 1 == root {
      SuffixFits(rendered, root, rootKept, first, used, budget, i - 1);
    }
  }

  lemma {:induction false} KeptIsRootAndSuffix(rendered: seq<Bytes>, sel: Selection, i: nat)
    requires i <= |rendered| && sel.root < |rendered| && sel.start <= |rendered|
    ensures KeptBytes(rendered, sel, i) ==
      (if sel.rootKept && i <= sel.root then |rendered[sel.root]| else 0)
      + SuffixBytes(rendered, sel.root, sel.rootKept, if i < sel.start then sel.start else i)
    decreases |rendered| - i
  {
    if i < |rendered| { KeptIsRootAndSuffix(rendered, sel, i + 1); }
  }

  /**
   * What is kept fits the budget, and is the root when it fits and the longest
   * run of newest posts that fits beside it.
   */
  lemma SelectionFits(rendered: seq<Bytes>, root: nat, budget: nat)
    requires root < |rendered|
    ensures var sel := Select(rendered, root, budget);
      && KeptBytes(rendered, sel, 0) <= budget
      && (sel.rootKept <==> |rendered[root]| <= budget)
      && (sel.start > 0 ==> !sel.Keeps(sel.start - 1) && KeptBytes(rendered, sel, 0) + |rendered[sel.start - 1]| > budget)
  {
    var sel := Select(rendered, root, budget);
    SuffixFits(rendered, root, sel.rootKept, if sel.rootKept then |rendered[root]| else 0,
               if sel.rootKept then |rendered[root]| else 0, budget, |rendered|);
    KeptIsRootAndSuffix(rendered, sel, 0);
  }

  // ---- what is written -----------------------------------------------------------------

  function Decimal(n: nat): Bytes {
    if n < 10 then [48 + n] else Decimal(n / 10) + [48 + n % 10]
  }

  lemma {:induction false} DecimalFits(n: nat, e: nat)
    requires 1 <= e && n < Pow(10, e)
    ensures |Decimal(n)| <= e
  {
    if n >= 10 { DecimalFits(n / 10, e - 1); }
  }

  /** The number a run of digits spells. */
  function ValueOf(digits: Bytes): int {
    if digits == [] then 0 else 10 * ValueOf(digits[..|digits| - 1]) + digits[|digits| - 1] - 48
  }

  /** A number is written in decimal, without leading zeros. */
  lemma {:induction false} DecimalReads(n: nat)
    ensures ValueOf(Decimal(n)) == n && forall d | d in Decimal(n) :: 48 <= d <= 57
    ensures Decimal(n) != [] && (n > 0 ==> Decimal(n)[0] != 48)
  {
    if n < 10 {
      assert Decimal(n)[..0] == [];
    } else {
      DecimalReads(n / 10);
      assert Decimal(n)[..|Decimal(n)| - 1] == Decimal(n / 10);
    }
  }

  /** " earlier messages omitted]". */
  const Omitted: Bytes :=
    [32, 101, 97, 114, 108, 105, 101, 114, 32, 109, 101, 115, 115, 97, 103, 101, 115, 32, 111, 109, 105, 116, 116, 101, 100, 93]

  function Note(omitted: nat): Bytes { [91] + Decimal(omitted) + Omitted + [Newline] }

  /** A note says how many messages it stands for. */
  lemma NoteReads(omitted: nat)
    ensures exists digits, words ::
      Note(omitted) == [91] + digits + words + [10]
      && ValueOf(digits) == omitted && Spells(words, " earlier messages omitted]")
  {
    DecimalReads(omitted);
    assert Spells(Omitted, " earlier messages omitted]");
    assert Note(omitted) == [91] + Decimal(omitted) + Omitted + [10];
  }

  const NoteRoom := 48

  /** No thread has more posts than a slice can hold. */
  const MaxPosts: nat := 0x7FFF_FFFF_FFFF_FFFF

  lemma NoteFits(omitted: nat)
    requires omitted <= MaxPosts
    ensures |Note(omitted)| <= NoteRoom
  {
    TwentyDigits();
    DecimalFits(omitted, 20);
  }

  lemma TwentyDigits()
    ensures Pow(10, 20) == 100_000_000_000_000_000_000
  {
    assert Pow(10, 5) == 100_000;
    assert Pow(10, 10) == 10_000_000_000 by { PowAdds(10, 5, 5); }
    PowAdds(10, 10, 10);
  }

  function Written(rendered: seq<Bytes>, sel: Selection, i: nat, omitted: nat): Bytes
    requires i <= |rendered|
    decreases |rendered| - i
  {
    if i == |rendered| then []
    else if !sel.Keeps(i) then Written(rendered, sel, i + 1, omitted + 1)
    else (if omitted > 0 then Note(omitted) else []) + rendered[i] + Written(rendered, sel, i + 1, 0)
  }

  function Notes(n: nat, sel: Selection, i: nat, omitted: nat): nat
    requires i <= n
    decreases n - i
  {
    if i == n then 0
    else if !sel.Keeps(i) then Notes(n, sel, i + 1, omitted + 1)
    else (if omitted > 0 then 1 else 0) + Notes(n, sel, i + 1, 0)
  }

  lemma {:induction false} WrittenFits(rendered: seq<Bytes>, sel: Selection, i: nat, omitted: nat)
    requires i <= |rendered| && omitted + |rendered| - i <= MaxPosts
    ensures |Written(rendered, sel, i, omitted)| <=
            KeptBytes(rendered, sel, i) + NoteRoom * Notes(|rendered|, sel, i, omitted)
    decreases |rendered| - i
  {
    if i < |rendered| {
      WrittenFits(rendered, sel, i + 1, if sel.Keeps(i) then 0 else omitted + 1);
      NoteFits(omitted);
    }
  }

  lemma {:induction false} NotesAcrossGap(n: nat, sel: Selection, i: nat, j: nat, omitted: nat)
    requires i <= j <= n && forall k | i <= k < j :: !sel.Keeps(k)
    ensures Notes(n, sel, i, omitted) == Notes(n, sel, j, omitted + j - i)
    decreases j - i
  {
    if i < j { NotesAcrossGap(n, sel, i + 1, j, omitted + 1); }
  }

  lemma {:induction false} NoNotesInSuffix(n: nat, sel: Selection, i: nat)
    requires sel.start <= i <= n
    ensures Notes(n, sel, i, 0) == 0
    decreases n - i
  {
    if i < n { NoNotesInSuffix(n, sel, i + 1); }
  }

  /** From a gap that reaches the suffix: one note if anything was left out and anything follows. */
  lemma NotesBeforeSuffix(n: nat, sel: Selection, i: nat)
    requires i <= sel.start <= n && forall k | i <= k < sel.start :: !sel.Keeps(k)
    ensures Notes(n, sel, i, 0) == if i < sel.start < n then 1 else 0
  {
    NotesAcrossGap(n, sel, i, sel.start, 0);
    if sel.start < n { NoNotesInSuffix(n, sel, sel.start + 1); }
  }

  /** How many notes are written: two exactly when a kept root has posts left out on both sides. */
  lemma CountNotes(n: nat, sel: Selection)
    requires sel.root < n && sel.start <= n
    ensures Notes(n, sel, 0, 0) ==
      if sel.rootKept && sel.root < sel.start
      then (if sel.root > 0 then 1 else 0) + (if sel.root + 1 < sel.start < n then 1 else 0)
      else if 0 < sel.start < n then 1 else 0
  {
    if sel.rootKept && sel.root < sel.start {
      NotesAcrossGap(n, sel, 0, sel.root, 0);
      NotesBeforeSuffix(n, sel, sel.root + 1);
    } else {
      NotesBeforeSuffix(n, sel, 0);
    }
  }

  // ---- the thread ------------------------------------------------------------------------

  function RootFrom(posts: seq<Post>, root: PostId, i: nat): (index: nat)
    requires i <= |posts|
    ensures index < |posts| || index == 0
    decreases |posts| - i
  {
    if i == |posts| then 0 else if posts[i].id == root then i else RootFrom(posts, root, i + 1)
  }

  function PerPost(room: int): int { if room / 4 > 256 then room / 4 else 256 }

  /** No post may take more than a quarter of the room, or 256 bytes if that is more. */
  lemma QuarterOrMore(room: int)
    ensures PerPost(room) >= 256 && PerPost(room) >= room / 4 && PerPost(room) in {256, room / 4}
  {}

  function Rendered(posts: seq<Post>, room: int): seq<Bytes> {
    seq(|posts|, i requires 0 <= i < |posts| => QuotePost(posts[i], PerPost(room)))
  }

  function QuotedThread(posts: seq<Post>, root: PostId, budget: int): Bytes {
    var room := budget - NoteRoom;
    if room <= 0 || posts == [] then []
    else
      var rendered := Rendered(posts, room);
      Written(rendered, Select(rendered, RootFrom(posts, root, 0), room), 0, 0)
  }

  method QuoteThread(posts: seq<Post>, rootId: PostId, budget: int) returns (text: Bytes)
    requires posts != []
    ensures text == QuotedThread(posts, rootId, budget)
  {
    var room := budget - NoteRoom;
    if room <= 0 { return []; }
    var perPost := if room / 4 > 256 then room / 4 else 256;
    var rendered: seq<Bytes> := [];
    for i := 0 to |posts|
      invariant rendered == Rendered(posts, room)[..i]
    {
      rendered := rendered + [QuotePost(posts[i], perPost)];
    }
    assert rendered == Rendered(posts, room);
    var root := FindRoot(posts, rootId);
    var keep := Choose(rendered, root, room);
    text := Write(rendered, keep, Select(rendered, root, room));
  }

  method FindRoot(posts: seq<Post>, rootId: PostId) returns (root: nat)
    ensures root == RootFrom(posts, rootId, 0)
  {
    root := 0;
    for i := 0 to |posts|
      invariant root == 0 && RootFrom(posts, rootId, i) == RootFrom(posts, rootId, 0)
    {
      if posts[i].id == rootId { return i; }
    }
  }

  /** Marks the root if it fits, then the newest posts back to the first that does not. */
  method Choose(rendered: seq<Bytes>, root: nat, budget: nat) returns (keep: array<bool>)
    requires root < |rendered|
    ensures fresh(keep) && keep.Length == |rendered|
    ensures forall i | 0 <= i < |rendered| :: keep[i] == Select(rendered, root, budget).Keeps(i)
  {
    keep := new bool[|rendered|](i => false);
    var used := 0;
    if |rendered[root]| <= budget {
      keep[root] := true;
      used := |rendered[root]|;
    }
    ghost var rootKept, start := keep[root], Select(rendered, root, budget).start;
    var i := |rendered|;
    while i > 0
      invariant 0 <= i <= |rendered| && 0 <= used && start == SuffixStart(rendered, root, rootKept, used, budget, i)
      invariant forall j | 0 <= j < |rendered| :: keep[j] == (j >= i || (rootKept && j == root))
    {
      if !keep[i - 1] {
        if used + |rendered[i - 1]| > budget { break; }
        keep[i - 1] := true;
        used := used + |rendered[i - 1]|;
      }
      i := i - 1;
    }
  }

  method Write(rendered: seq<Bytes>, keep: array<bool>, ghost sel: Selection) returns (text: Bytes)
    requires keep.Length == |rendered| && forall i | 0 <= i < |rendered| :: keep[i] == sel.Keeps(i)
    ensures text == Written(rendered, sel, 0, 0)
  {
    text := [];
    var omitted := 0;
    for i := 0 to |rendered|
      invariant text + Written(rendered, sel, i, omitted) == Written(rendered, sel, 0, 0)
    {
      if keep[i] {
        if omitted > 0 {
          text := text + Note(omitted);
          omitted := 0;
        }
        text := text + rendered[i];
      } else {
        omitted := omitted + 1;
      }
    }
  }

  /** A kept root with posts left out before it, and others between it and the newest. */
  predicate TwoGaps(sel: Selection, n: nat) { sel.rootKept && 0 < sel.root && sel.root + 1 < sel.start < n }

  /** The room one omission note takes, if there is anything to omit. */
  function NoteBytes(omitted: nat): nat { if omitted > 0 then |Note(omitted)| else 0 }

  lemma {:induction false} WrittenAcrossGap(rendered: seq<Bytes>, sel: Selection, i: nat, j: nat, omitted: nat)
    requires i <= j <= |rendered| && forall k | i <= k < j :: !sel.Keeps(k)
    ensures Written(rendered, sel, i, omitted) == Written(rendered, sel, j, omitted + j - i)
    ensures KeptBytes(rendered, sel, i) == KeptBytes(rendered, sel, j)
    decreases j - i
  {
    if i < j { WrittenAcrossGap(rendered, sel, i + 1, j, omitted + 1); }
  }

  lemma {:induction false} SuffixIsWritten(rendered: seq<Bytes>, sel: Selection, i: nat)
    requires sel.start <= i <= |rendered|
    ensures |Written(rendered, sel, i, 0)| == KeptBytes(rendered, sel, i)
    decreases |rendered| - i
  {
    if i < |rendered| { SuffixIsWritten(rendered, sel, i + 1); }
  }

  lemma GapThenSuffix(rendered: seq<Bytes>, sel: Selection, i: nat)
    requires i <= sel.start <= |rendered| && forall k | i <= k < sel.start :: !sel.Keeps(k)
    ensures |Written(rendered, sel, i, 0)| == KeptBytes(rendered, sel, i)
      + if sel.start < |rendered| then NoteBytes(sel.start - i) else 0
  {
    WrittenAcrossGap(rendered, sel, i, sel.start, 0);
    if sel.start < |rendered| { SuffixIsWritten(rendered, sel, sel.start + 1); }
  }

  /** With two gaps the text is the kept posts and the two notes, to the byte. */
  lemma TwoGapsAreWritten(rendered: seq<Bytes>, sel: Selection)
    requires sel.root < |rendered| && sel.start <= |rendered| && TwoGaps(sel, |rendered|)
    ensures |Written(rendered, sel, 0, 0)|
         == KeptBytes(rendered, sel, 0) + |Note(sel.root)| + |Note(sel.start - sel.root - 1)|
  {
    WrittenAcrossGap(rendered, sel, 0, sel.root, 0);
    GapThenSuffix(rendered, sel, sel.root + 1);
  }

  function SelectionOf(posts: seq<Post>, root: PostId, room: int): Selection
    requires posts != [] && room > 0
  {
    Select(Rendered(posts, room), RootFrom(posts, root, 0), room)
  }

  /** What two gaps cost: the kept posts and both notes are more than the budget. */
  predicate NotesOverflow(rendered: seq<Bytes>, sel: Selection, budget: int) {
    TwoGaps(sel, |rendered|)
    && KeptBytes(rendered, sel, 0) + |Note(sel.root)| + |Note(sel.start - sel.root - 1)| > budget
  }

  predicate Overflows(posts: seq<Post>, root: PostId, budget: int)
    requires posts != [] && budget > NoteRoom
  {
    NotesOverflow(Rendered(posts, budget - NoteRoom), SelectionOf(posts, root, budget - NoteRoom), budget)
  }

  /**
   * Wherever the root stands, the text is within its budget unless two gaps are
   * noted and the two notes take more than the room left, and even then it is
   * over by less than one note.
   */
  lemma QuotesWithinBudgetIff(posts: seq<Post>, root: PostId, budget: int)
    requires posts != [] && budget > NoteRoom && |posts| <= MaxPosts
    ensures |QuotedThread(posts, root, budget)| <= budget <==> !Overflows(posts, root, budget)
    ensures |QuotedThread(posts, root, budget)| <= budget + NoteRoom
    ensures Notes(|posts|, SelectionOf(posts, root, budget - NoteRoom), 0, 0)
         <= if TwoGaps(SelectionOf(posts, root, budget - NoteRoom), |posts|) then 2 else 1
  {
    var room := budget - NoteRoom;
    var rendered, sel := Rendered(posts, room), SelectionOf(posts, root, room);
    SelectionFits(rendered, sel.root, room);
    CountNotes(|rendered|, sel);
    FitsIff(rendered, sel, room);
  }

  lemma FitsIff(rendered: seq<Bytes>, sel: Selection, room: nat)
    requires sel.root < |rendered| <= MaxPosts && sel.start <= |rendered| && KeptBytes(rendered, sel, 0) <= room
    ensures |Written(rendered, sel, 0, 0)| <= room + 2 * NoteRoom
    ensures |Written(rendered, sel, 0, 0)| <= room + NoteRoom <==> !NotesOverflow(rendered, sel, room + NoteRoom)
  {
    GapsFit(rendered, sel, room);
    if TwoGaps(sel, |rendered|) { TwoGapsAreWritten(rendered, sel); }
  }

  /** The room held back is enough for one note, and twice that for two. */
  lemma GapsFit(rendered: seq<Bytes>, sel: Selection, room: nat)
    requires sel.root < |rendered| <= MaxPosts && sel.start <= |rendered| && KeptBytes(rendered, sel, 0) <= room
    ensures |Written(rendered, sel, 0, 0)| <= room + NoteRoom + if TwoGaps(sel, |rendered|) then NoteRoom else 0
  {
    WrittenFits(rendered, sel, 0, 0);
    CountNotes(|rendered|, sel);
  }

  /** Where the root stands among the posts: first, or not at all. */
  predicate RootFirst(posts: seq<Post>, root: PostId) { posts != [] && RootFrom(posts, root, 0) == 0 }

  /**
   * A thread whose root comes first is quoted within its budget with one note at
   * most; and after a kept root the one note stands between it and the newest
   * posts, in the place of those it counts.
   */
  lemma QuotesWithinBudget(posts: seq<Post>, root: PostId, budget: int)
    requires RootFirst(posts, root) && |posts| <= MaxPosts
    ensures QuotedThread(posts, root, budget) == [] || |QuotedThread(posts, root, budget)| <= budget
    ensures budget > NoteRoom ==>
      var rendered, sel := Rendered(posts, budget - NoteRoom), SelectionOf(posts, root, budget - NoteRoom);
      && Notes(|posts|, sel, 0, 0) <= 1
      && (sel.rootKept && 1 < sel.start < |posts| ==>
            QuotedThread(posts, root, budget)
              == rendered[0] + Note(sel.start - 1) + rendered[sel.start] + Written(rendered, sel, sel.start + 1, 0))
  {
    if budget > NoteRoom {
      var rendered, sel := Rendered(posts, budget - NoteRoom), SelectionOf(posts, root, budget - NoteRoom);
      RootFirstNeverOverflows(posts, root, budget);
      QuotesWithinBudgetIff(posts, root, budget);
      if sel.rootKept && 1 < sel.start < |posts| { NoteStandsBetween(rendered, sel); }
    }
  }

  lemma RootFirstNeverOverflows(posts: seq<Post>, root: PostId, budget: int)
    requires RootFirst(posts, root) && budget > NoteRoom
    ensures SelectionOf(posts, root, budget - NoteRoom).root == 0
    ensures !TwoGaps(SelectionOf(posts, root, budget - NoteRoom), |posts|) && !Overflows(posts, root, budget)
  {}

  lemma NoteStandsBetween(rendered: seq<Bytes>, sel: Selection)
    requires sel.root == 0 && sel.rootKept && 1 < sel.start < |rendered|
    ensures Written(rendered, sel, 0, 0)
      == rendered[0] + Note(sel.start - 1) + rendered[sel.start] + Written(rendered, sel, sel.start + 1, 0)
  {
    WrittenAcrossGap(rendered, sel, 1, sel.start, 0);
    KeptIsWritten(rendered, sel, 0, 0);
    KeptIsWritten(rendered, sel, sel.start, sel.start - 1);
    Regrouped(rendered[0], Note(sel.start - 1), rendered[sel.start], Written(rendered, sel, sel.start + 1, 0));
  }

  lemma KeptIsWritten(rendered: seq<Bytes>, sel: Selection, i: nat, omitted: nat)
    requires i < |rendered| && sel.Keeps(i)
    ensures omitted == 0 ==> Written(rendered, sel, i, omitted) == rendered[i] + Written(rendered, sel, i + 1, 0)
    ensures omitted > 0 ==>
      Written(rendered, sel, i, omitted) == Note(omitted) + rendered[i] + Written(rendered, sel, i + 1, 0)
  {}

  lemma Regrouped(a: Bytes, b: Bytes, c: Bytes, d: Bytes)
    ensures a + (b + c + d) == a + b + c + d
  {}

  /** With the root elsewhere there is a second note exactly when posts are missing before it and after it. */
  lemma SecondNoteIff(posts: seq<Post>, root: PostId, room: nat)
    requires posts != [] && room > 0
    ensures var rendered := Rendered(posts, room);
      var sel := Select(rendered, RootFrom(posts, root, 0), room);
      Notes(|posts|, sel, 0, 0) == 2 <==> sel.rootKept && sel.root > 0 && sel.root + 1 < sel.start < |posts|
  {
    var rendered := Rendered(posts, room);
    CountNotes(|rendered|, Select(rendered, RootFrom(posts, root, 0), room));
  }

  function Line(id: PostId): Post { Post(id, [], false, [120], id, false) }

  /**
   * Threads that overflow exist, when posts dated before the root are in its
   * thread: five short posts around a root in the middle take eighty bytes of a
   * budget of seventy.
   */
  lemma RootInTheMiddleOverflows()
    ensures var posts := [Line(0), Line(1), Line(2), Line(3), Line(4)];
      InTime(posts) && |QuotedThread(posts, 2, 70)| == 80
  {
    var posts := [Line(0), Line(1), Line(2), Line(3), Line(4)];
    var rendered := Rendered(posts, 22);
    forall i | 0 <= i < 5 ensures |rendered[i]| == 11 { LineIsEleven(i); }
    assert RootFrom(posts, 2, 0) == RootFrom(posts, 2, 1) == RootFrom(posts, 2, 2) == 2;
    assert SuffixStart(rendered, 2, true, 22, 22, 4) == 4;
    var sel := Select(rendered, 2, 22);
    assert sel == Selection(2, true, 4);
    assert |Written(rendered, sel, 5, 0)| == 0;
    assert |Note(1)| == |Note(2)| == 29;
    assert |Written(rendered, sel, 4, 1)| == 40;
    assert |Written(rendered, sel, 3, 0)| == 40;
    assert |Written(rendered, sel, 2, 2)| == 80;
    assert |Written(rendered, sel, 1, 1)| == 80;
    assert |Written(rendered, sel, 0, 0)| == 80;
  }

  lemma LineIsEleven(id: PostId)
    ensures |QuotePost(Line(id), 256)| == 11
  {
    assert Trimmed([120]) == [120];
    assert Indented([120]) == [120] + Indented([]);
    assert |Head(Line(id))| == 9;
  }

  // ---- the context, and the prompt ----------------------------------------------------------

  datatype Trigger = Trigger(id: PostId, rootId: PostId, createdAt: Option<int>, username: Bytes, text: Bytes)

  predicate IsContext(p: Post, trigger: Trigger) {
    && p.id != trigger.id && !p.system && Trimmed(p.text) != []
    && (trigger.createdAt.Some? ==> p.createdAt <= trigger.createdAt.value)
  }

  function Filtered(thread: seq<Post>, trigger: Trigger): seq<Post> {
    if thread == [] then []
    else (if IsContext(thread[0], trigger) then [thread[0]] else []) + Filtered(thread[1..], trigger)
  }

  /** A stable sort by time: an element goes before the first that is later than it. */
  function Insert(p: Post, sorted: seq<Post>): seq<Post> {
    if sorted == [] || p.createdAt <= sorted[0].createdAt then [p] + sorted
    else [sorted[0]] + Insert(p, sorted[1..])
  }

  function Sorted(posts: seq<Post>): seq<Post> {
    if posts == [] then [] else Insert(posts[0], Sorted(posts[1..]))
  }

  function ContextPosts(thread: seq<Post>, trigger: Trigger): seq<Post> { Sorted(Filtered(thread, trigger)) }

  predicate InTime(posts: seq<Post>) { forall i, j | 0 <= i < j < |posts| :: posts[i].createdAt <= posts[j].createdAt }

  lemma {:induction false} InsertAdds(p: Post, sorted: seq<Post>)
    ensures multiset(Insert(p, sorted)) == multiset(sorted) + multiset{p}
  {
    if sorted != [] && sorted[0].createdAt < p.createdAt {
      InsertAdds(p, sorted[1..]);
      assert sorted == [sorted[0]] + sorted[1..];
    }
  }

  lemma {:induction false} InsertKeepsTime(p: Post, sorted: seq<Post>)
    requires InTime(sorted)
    ensures InTime(Insert(p, sorted))
    ensures forall i | 0 <= i < |Insert(p, sorted)| ::
      Insert(p, sorted)[i].createdAt >= p.createdAt || (sorted != [] && Insert(p, sorted)[i].createdAt >= sorted[0].createdAt)
  {
    if sorted != [] && sorted[0].createdAt < p.createdAt {
      InsertKeepsTime(p, sorted[1..]);
    }
  }

  /** The context is every post of the thread that came before, in order, and nothing else. */
  lemma {:induction false} SortedKeeps(posts: seq<Post>)
    ensures InTime(Sorted(posts)) && multiset(Sorted(posts)) == multiset(posts)
  {
    if posts != [] {
      SortedKeeps(posts[1..]);
      InsertAdds(posts[0], Sorted(posts[1..]));
      InsertKeepsTime(posts[0], Sorted(posts[1..]));
      assert posts == [posts[0]] + posts[1..];
    }
  }

  /** The posts of one moment, in the order they stand in. */
  function AtTime(posts: seq<Post>, t: int): seq<Post> {
    if posts == [] then []
    else (if posts[0].createdAt == t then [posts[0]] else []) + AtTime(posts[1..], t)
  }

  lemma AtTimeCons(p: Post, posts: seq<Post>, t: int)
    ensures AtTime([p] + posts, t) == (if p.createdAt == t then [p] else []) + AtTime(posts, t)
  {
    assert ([p] + posts)[1..] == posts;
  }

  lemma {:induction false} InsertIsStable(p: Post, sorted: seq<Post>, t: int)
    ensures AtTime(Insert(p, sorted), t) == (if p.createdAt == t then [p] else []) + AtTime(sorted, t)
  {
    if sorted != [] && sorted[0].createdAt < p.createdAt {
      InsertIsStable(p, sorted[1..], t);
      AtTimeCons(sorted[0], Insert(p, sorted[1..]), t);
    } else {
      AtTimeCons(p, sorted, t);
    }
  }

  /** Posts of one moment keep the order they came in. */
  lemma {:induction false} SortIsStable(posts: seq<Post>, t: int)
    ensures AtTime(Sorted(posts), t) == AtTime(posts, t)
  {
    if posts != [] {
      SortIsStable(posts[1..], t);
      InsertIsStable(posts[0], Sorted(posts[1..]), t);
    }
  }

  lemma {:induction false} FilteredIsContext(thread: seq<Post>, trigger: Trigger)
    ensures forall p :: p in Filtered(thread, trigger) <==> p in thread && IsContext(p, trigger)
  {
    if thread != [] { FilteredIsContext(thread[1..], trigger); }
  }

  lemma ContextIsFromThread(thread: seq<Post>, trigger: Trigger)
    ensures var posts := ContextPosts(thread, trigger);
      forall i | 0 <= i < |posts| :: posts[i] in thread && IsContext(posts[i], trigger)
  {
    var posts := ContextPosts(thread, trigger);
    FilteredIsContext(thread, trigger);
    SortedKeeps(Filtered(thread, trigger));
    forall i | 0 <= i < |posts| ensures posts[i] in Filtered(thread, trigger) {
      assert posts[i] in multiset(posts);
    }
  }

  /** A root older than everything else in its thread comes first, if it is context at all. */
  lemma OldestRootIsFirst(thread: seq<Post>, trigger: Trigger)
    requires ContextPosts(thread, trigger) != []
    requires forall p, q | p in thread && q in thread && p.id == trigger.rootId && q.id != trigger.rootId ::
      p.createdAt < q.createdAt
    ensures RootFirst(ContextPosts(thread, trigger), trigger.rootId)
  {
    var posts := ContextPosts(thread, trigger);
    ContextIsFromThread(thread, trigger);
    SortedKeeps(Filtered(thread, trigger));
    var r := RootFrom(posts, trigger.rootId, 0);
    if r > 0 {
      FirstWithId(posts, trigger.rootId, 0);
    }
  }

  lemma {:induction false} FirstWithId(posts: seq<Post>, root: PostId, i: nat)
    requires i <= |posts| && RootFrom(posts, root, i) > 0
    ensures posts[RootFrom(posts, root, i)].id == root
    ensures forall k | i <= k < RootFrom(posts, root, i) :: posts[k].id != root
    decreases |posts| - i
  {
    if i < |posts| && posts[i].id != root { FirstWithId(posts, root, i + 1); }
  }

  /** A post is quoted exactly when it is another, of a person or the bot, says something, and did not come later. */
  lemma ContextIs(thread: seq<Post>, trigger: Trigger, p: Post)
    ensures p in ContextPosts(thread, trigger) <==>
      p in thread && p.id != trigger.id && !p.system && (exists b | b in p.text :: !Blank(b))
      && (trigger.createdAt.None? || p.createdAt <= trigger.createdAt.value)
  {
    FilteredIsContext(thread, trigger);
    SortedKeeps(Filtered(thread, trigger));
    assert p in ContextPosts(thread, trigger) <==> p in multiset(ContextPosts(thread, trigger));
    assert p in Filtered(thread, trigger) <==> p in multiset(Filtered(thread, trigger));
    var before, after := TrimmedIs(p.text);
    if Trimmed(p.text) != [] { assert p.text[|before|] == Trimmed(p.text)[0]; }
  }

  /** The fixed texts around a quoted thread. */
  datatype Frame = Frame(preamble: Bytes, open: Bytes, close: Bytes, requestHead: Bytes, requestTail: Bytes, emptyAsk: Bytes)

  function Request(trigger: Trigger, frame: Frame): Bytes {
    frame.requestHead + Speaker(trigger.username, false) + frame.requestTail
    + (if Trimmed(trigger.text) == [] then frame.emptyAsk else trigger.text) + [Newline]
  }

  function ThreadBudget(header: Bytes, trigger: Trigger, frame: Frame, maxBytes: int, maxThreadBytes: int): int {
    var budget := maxBytes - |header| - |frame.preamble| - |frame.open| - |frame.close| - |Request(trigger, frame)|;
    if 0 < maxThreadBytes < budget then maxThreadBytes else budget
  }

  function Prompt(header: Bytes, thread: seq<Post>, trigger: Trigger, frame: Frame, maxBytes: int, maxThreadBytes: int): Bytes {
    var posts := ContextPosts(thread, trigger);
    var quoted := QuotedThread(posts, trigger.rootId, ThreadBudget(header, trigger, frame, maxBytes, maxThreadBytes));
    if quoted == [] then header + trigger.text
    else header + frame.preamble + frame.open + quoted + frame.close + Request(trigger, frame)
  }

  lemma SpeakerReads(username: Bytes)
    ensures if username == [] then Spells(Speaker(username, false), "someone") else Speaker(username, false) == username
  {}

  /** What was asked, and by whom: a message that says nothing asks what the bot is asked then. */
  lemma RequestReads(trigger: Trigger, frame: Frame)
    ensures var ask := if forall b | b in trigger.text :: Blank(b) then frame.emptyAsk else trigger.text;
      Request(trigger, frame) == frame.requestHead + Speaker(trigger.username, false) + frame.requestTail + ask + [10]
  {
    var before, after := TrimmedIs(trigger.text);
    if Trimmed(trigger.text) != [] { assert trigger.text[|before|] == Trimmed(trigger.text)[0]; }
  }

  /**
   * The prompt is the header, the thread as it was quoted, and the request, each
   * in its frame and in this order; without a quoted thread, the header and the
   * message as it came.
   */
  lemma PromptReads(header: Bytes, thread: seq<Post>, trigger: Trigger, frame: Frame, maxBytes: int, maxThreadBytes: int)
    ensures var prompt := Prompt(header, thread, trigger, frame, maxBytes, maxThreadBytes);
      var room := maxBytes - |header| - |frame.preamble| - |frame.open| - |frame.close| - |Request(trigger, frame)|;
      var quoted := QuotedThread(ContextPosts(thread, trigger), trigger.rootId,
                                 if maxThreadBytes <= 0 || room <= maxThreadBytes then room else maxThreadBytes);
      && (quoted == [] ==> prompt == header + trigger.text)
      && (quoted != [] ==> prompt == header + frame.preamble + frame.open + quoted + frame.close + Request(trigger, frame))
  {}

  /**
   * Whenever anything of the thread is quoted the whole prompt keeps to maxBytes,
   * unless two notes overflow the thread's budget, and is never over by more than
   * a note.
   */
  lemma PromptFits(header: Bytes, thread: seq<Post>, trigger: Trigger, frame: Frame, maxBytes: int, maxThreadBytes: int)
    requires |ContextPosts(thread, trigger)| <= MaxPosts
    ensures var prompt := Prompt(header, thread, trigger, frame, maxBytes, maxThreadBytes);
      var posts := ContextPosts(thread, trigger);
      var budget := ThreadBudget(header, trigger, frame, maxBytes, maxThreadBytes);
      prompt == header + trigger.text
      || (|prompt| <= maxBytes + NoteRoom && posts != [] && budget > NoteRoom
          && (|prompt| <= maxBytes || Overflows(posts, trigger.rootId, budget)))
  {
    var posts := ContextPosts(thread, trigger);
    var budget := ThreadBudget(header, trigger, frame, maxBytes, maxThreadBytes);
    if posts != [] && budget > NoteRoom {
      QuotesWithinBudgetIff(posts, trigger.rootId, budget);
    }
  }

  /** In particular when the root comes first among the posts quoted. */
  lemma RootFirstPromptFits(
    header: Bytes, thread: seq<Post>, trigger: Trigger, frame: Frame, maxBytes: int, maxThreadBytes: int)
    requires |ContextPosts(thread, trigger)| <= MaxPosts
    requires ContextPosts(thread, trigger) != [] ==> RootFirst(ContextPosts(thread, trigger), trigger.rootId)
    ensures var prompt := Prompt(header, thread, trigger, frame, maxBytes, maxThreadBytes);
      prompt == header + trigger.text || |prompt| <= maxBytes
  {
    var posts := ContextPosts(thread, trigger);
    var budget := ThreadBudget(header, trigger, frame, maxBytes, maxThreadBytes);
    if posts != [] && budget > NoteRoom {
      RootFirstNeverOverflows(posts, trigger.rootId, budget);
    }
    PromptFits(header, thread, trigger, frame, maxBytes, maxThreadBytes);
  }
}
