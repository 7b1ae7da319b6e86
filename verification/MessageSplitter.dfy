/**
 The chunk splitter of internal/telegram/bot.go: a message longer than the API
 takes goes out in pieces, cut at line breaks where there are any and between
 characters where there are none.
 */
module MessageSplitter {

  import opened Bytes

  const MAX_MESSAGE := 4096
  const NEWLINE: byte := 10

  // ----- UTF-8, section 3 of RFC 3629 -----

  predicate Tail(b: byte) { 0x80 <= b <= 0xBF }

  /** The length of the well-formed character at the head of s, 0 if there is none. */
  function RuneLen(s: Bytes): (n: nat)
    requires s != []
    ensures n <= 4 && n <= |s|
    ensures n > 0 ==> !Tail(s[0]) && forall i :: 1 <= i < n ==> Tail(s[i])
  {
    var b := s[0];
    if b <= 0x7F then 1
    else if 0xC2 <= b <= 0xDF then (if |s| >= 2 && Tail(s[1]) then 2 else 0)
    else if 0xE0 <= b <= 0xEF then
      if |s| >= 3 && Tail(s[1]) && Tail(s[2]) && (b == 0xE0 ==> s[1] >= 0xA0) && (b == 0xED ==> s[1] <= 0x9F) then 3
      else 0
    else if 0xF0 <= b <= 0xF4 then
      if |s| < 4 || !Tail(s[1]) || !Tail(s[2]) || !Tail(s[3]) then 0
      else if (b == 0xF0 ==> s[1] >= 0x90) && (b == 0xF4 ==> s[1] <= 0x8F) then 4
      else 0
    else 0
  }

  predicate Valid(s: Bytes)
    decreases |s|
  {
    s == [] || (RuneLen(s) > 0 && Valid(s[RuneLen(s)..]))
  }

  /** utf8.RuneStart. */
  predicate RuneStart(b: byte) { !Tail(b) }

  /** The message's length as the API counts it: two units for a four-byte character, one for any other. */
  function Utf16Len(s: Bytes): nat
    requires Valid(s)
    decreases |s|
  {
    if s == [] then 0 else (if RuneLen(s) == 4 then 2 else 1) + Utf16Len(s[RuneLen(s)..])
  }

  lemma {:induction false} UnitsAtMostBytes(s: Bytes)
    requires Valid(s)
    ensures Utf16Len(s) <= |s|
    decreases |s|
  {
    if s != [] {
      UnitsAtMostBytes(s[RuneLen(s)..]);
    }
  }

  /** Cutting valid text where a character starts leaves two valid texts. */
  lemma {:induction false} CutAtRuneStart(s: Bytes, c: nat)
    requires Valid(s) && c <= |s| && (c < |s| ==> RuneStart(s[c]))
    ensures Valid(s[..c]) && Valid(s[c..])
    decreases |s|
  {
    if c == 0 {
      assert s[c..] == s;
    } else {
      var n := RuneLen(s);
      assert n <= c;
      CutAtRuneStart(s[n..], c - n);
      assert s[n..][c - n..] == s[c..];
      assert s[..c][n..] == s[n..][..c - n];
      assert RuneLen(s[..c]) == n;
    }
  }

  /** In valid text a character starts at most three bytes back from anywhere. */
  lemma {:induction false} RuneStartNearby(s: Bytes, p: nat) returns (q: nat)
    requires Valid(s) && p < |s|
    ensures q <= p <= q + 3 && RuneStart(s[q])
    decreases |s|
  {
    var n := RuneLen(s);
    if p < n {
      q := 0;
    } else {
      q := RuneStartNearby(s[n..], p - n);
      q := q + n;
    }
  }

  // ----- where a long text is cut -----

  /** strings.LastIndexByte(s, '\n'). */
  function LastNewline(s: Bytes): (i: int)
    ensures -1 <= i < |s|
    ensures i >= 0 ==> s[i] == NEWLINE
    ensures forall j :: i < j < |s| ==> s[j] != NEWLINE
  {
    if s == [] then -1
    else if s[|s| - 1] == NEWLINE then |s| - 1
    else LastNewline(s[..|s| - 1])
  }

  function BackToRuneStart(s: Bytes, c: nat): (r: nat)
    requires c < |s|
    ensures r <= c && (r > 0 ==> RuneStart(s[r])) && forall j :: r < j <= c ==> !RuneStart(s[j])
  {
    if c == 0 || RuneStart(s[c]) then c else BackToRuneStart(s, c - 1)
  }

  function CutOf(text: Bytes): nat
    requires |text| > MAX_MESSAGE
  {
    var nl := LastNewline(text[..MAX_MESSAGE]);
    if nl > 0 then nl else BackToRuneStart(text, MAX_MESSAGE)
  }

  /** A line break within the limit that leaves a chunk before it. */
  predicate UsableBreak(text: Bytes, i: int) { 0 < i < MAX_MESSAGE && i < |text| && text[i] == NEWLINE }

  /** The cut is at the last usable line break, and without one before the last character that starts within
      the limit. */
  lemma CutExact(text: Bytes)
    requires |text| > MAX_MESSAGE
    ensures var cut := CutOf(text);
      if exists i :: UsableBreak(text, i) then UsableBreak(text, cut) && forall j :: UsableBreak(text, j) ==> j <= cut
      else
        && cut <= MAX_MESSAGE && (cut > 0 ==> RuneStart(text[cut]))
        && forall j :: cut < j <= MAX_MESSAGE ==> !RuneStart(text[j])
  {
    var head := text[..MAX_MESSAGE];
    var nl := LastNewline(head);
    forall j | UsableBreak(text, j) ensures j <= nl {
      assert head[j] == NEWLINE;
    }
    if nl > 0 {
      assert UsableBreak(text, nl);
    }
  }

  lemma CutIsGood(text: Bytes)
    requires Valid(text) && |text| > MAX_MESSAGE
    ensures var cut := CutOf(text);
      && 0 < cut <= MAX_MESSAGE && RuneStart(text[cut])
      && Valid(text[..cut]) && Valid(text[cut..])
      && (LastNewline(text[..MAX_MESSAGE]) <= 0 ==> cut >= MAX_MESSAGE - 3)
  {
    var q := RuneStartNearby(text, MAX_MESSAGE);
    var cut := CutOf(text);
    if LastNewline(text[..MAX_MESSAGE]) > 0 {
      assert text[cut] == NEWLINE;
    } else {
      assert cut >= q;
    }
    CutAtRuneStart(text, cut);
  }

  /** strings.TrimPrefix(s, "\n"). */
  function TrimNewline(s: Bytes): Bytes { if s != [] && s[0] == NEWLINE then s[1..] else s }

  lemma TrimKeepsValid(s: Bytes)
    requires Valid(s)
    ensures Valid(TrimNewline(s))
  {
  }

  // ----- the pieces -----

  /** A chunk, and whether the newline after it was dropped. */
  datatype Piece = Piece(chunk: Bytes, dropped: bool)

  function Pieces(text: Bytes): seq<Piece>
    requires Valid(text)
    decreases |text|
  {
    if |text| <= MAX_MESSAGE then [Piece(text, false)]
    else
      CutIsGood(text);
      var cut := CutOf(text);
      TrimKeepsValid(text[cut..]);
      [Piece(text[..cut], text[cut] == NEWLINE)] + Pieces(TrimNewline(text[cut..]))
  }

  /** Putting the pieces back together, a dropped newline restored after its chunk. */
  function Rejoin(ps: seq<Piece>): Bytes {
    if ps == [] then [] else ps[0].chunk + (if ps[0].dropped then [NEWLINE] else []) + Rejoin(ps[1..])
  }

  lemma RejoinCons(p: Piece, ps: seq<Piece>)
    ensures Rejoin([p] + ps) == p.chunk + (if p.dropped then [NEWLINE] else []) + Rejoin(ps)
  {
    assert ([p] + ps)[1..] == ps;
  }

  lemma CutRejoins(text: Bytes, cut: nat)
    requires cut < |text|
    ensures text[..cut] + (if text[cut] == NEWLINE then [NEWLINE] else []) + TrimNewline(text[cut..]) == text
  {
  }

  /** Nothing is lost but the newlines that were dropped, one at each such cut. */
  lemma {:induction false} PiecesRejoin(text: Bytes)
    requires Valid(text)
    ensures Rejoin(Pieces(text)) == text
    decreases |text|
  {
    if |text| <= MAX_MESSAGE {
      RejoinCons(Piece(text, false), []);
      assert [Piece(text, false)] + [] == Pieces(text);
    } else {
      CutIsGood(text);
      var cut := CutOf(text);
      TrimKeepsValid(text[cut..]);
      var rest := TrimNewline(text[cut..]);
      PiecesRejoin(rest);
      RejoinCons(Piece(text[..cut], text[cut] == NEWLINE), Pieces(rest));
      CutRejoins(text, cut);
    }
  }

  /** Every chunk is valid UTF-8 that the API's limit admits, in bytes and so in UTF-16 units. */
  lemma {:induction false} ChunksFit(text: Bytes, i: nat)
    requires Valid(text) && i < |Pieces(text)|
    ensures var chunk := Pieces(text)[i].chunk;
      |chunk| <= MAX_MESSAGE && Valid(chunk) && Utf16Len(chunk) <= MAX_MESSAGE
    decreases |text|
  {
    UnitsAtMostBytesOf(Pieces(text)[i].chunk);
    if |text| > MAX_MESSAGE {
      CutIsGood(text);
      TrimKeepsValid(text[CutOf(text)..]);
      if i > 0 {
        ChunksFit(TrimNewline(text[CutOf(text)..]), i - 1);
      }
    }
  }

  lemma UnitsAtMostBytesOf(s: Bytes)
    ensures Valid(s) ==> Utf16Len(s) <= |s|
  {
    if Valid(s) {
      UnitsAtMostBytes(s);
    }
  }

  /** A chunk but the last is cut at a line break, and then is not empty; or it holds no line break past its
      first byte, and then the line goes on to within three bytes of the limit. */
  lemma {:induction false} CutsOnLinesOrInLongOnes(text: Bytes, i: nat)
    requires Valid(text) && i + 1 < |Pieces(text)|
    ensures var p := Pieces(text)[i];
      && p.chunk != []
      && (|p.chunk| < MAX_MESSAGE - 3 ==> p.dropped)
      && (!p.dropped ==> forall j :: 1 <= j < |p.chunk| ==> p.chunk[j] != NEWLINE)
    decreases |text|
  {
    CutIsGood(text);
    TrimKeepsValid(text[CutOf(text)..]);
    if i > 0 {
      CutsOnLinesOrInLongOnes(TrimNewline(text[CutOf(text)..]), i - 1);
    } else {
      FirstCut(text);
    }
  }

  lemma FirstCut(text: Bytes)
    requires Valid(text) && |text| > MAX_MESSAGE
    ensures var cut := CutOf(text);
      && 0 < cut <= MAX_MESSAGE && (cut < MAX_MESSAGE - 3 ==> text[cut] == NEWLINE)
      && (text[cut] != NEWLINE ==> forall j :: 1 <= j < cut ==> text[..cut][j] != NEWLINE)
  {
    CutIsGood(text);
    var cut := CutOf(text);
    assert forall j :: 0 <= j < cut ==> text[..cut][j] == text[..MAX_MESSAGE][j];
  }

  /** A text that does not end in a line break goes out without an empty chunk. */
  lemma {:induction false} NoEmptyChunk(text: Bytes, i: nat)
    requires Valid(text) && text != [] && text[|text| - 1] != NEWLINE && i < |Pieces(text)|
    ensures Pieces(text)[i].chunk != []
    decreases |text|
  {
    if |text| > MAX_MESSAGE {
      CutIsGood(text);
      var cut := CutOf(text);
      TrimKeepsValid(text[cut..]);
      var rest := TrimNewline(text[cut..]);
      assert rest != [] && rest[|rest| - 1] == text[|text| - 1];
      if i > 0 {
        NoEmptyChunk(rest, i - 1);
      }
    }
  }

  /** One that does can: a line of exactly the limit with its line break sends an empty last chunk. */
  lemma EmptyLastChunk(line: Bytes)
    requires Valid(line) && |line| == MAX_MESSAGE && NEWLINE !in line
    requires Valid(line + [NEWLINE])
    ensures Pieces(line + [NEWLINE]) == [Piece(line, true), Piece([], false)]
  {
    var text := line + [NEWLINE];
    assert text[..MAX_MESSAGE] == line;
    assert CutOf(text) == MAX_MESSAGE;
    assert TrimNewline(text[MAX_MESSAGE..]) == [];
  }

  /** One byte over the limit, a line break, and none before it but perhaps at the very start. */
  predicate OneOver(s: Bytes) {
    |s| == MAX_MESSAGE + 1 && s[MAX_MESSAGE] == NEWLINE && NEWLINE !in s[1..MAX_MESSAGE]
  }

  lemma NoUsableBreak(text: Bytes)
    requires |text| > MAX_MESSAGE
    ensures LastNewline(text[..MAX_MESSAGE]) <= 0 <==> NEWLINE !in text[1..MAX_MESSAGE]
  {
    var head := text[..MAX_MESSAGE];
    var nl := LastNewline(head);
    if nl > 0 {
      assert text[1..MAX_MESSAGE][nl - 1] == head[nl];
    } else {
      assert forall j :: 0 <= j < MAX_MESSAGE - 1 ==> text[1..MAX_MESSAGE][j] == head[j + 1];
    }
  }

  /** A round of the loop leaves nothing over for exactly these texts. */
  lemma NothingLeftIff(text: Bytes)
    requires Valid(text) && |text| > MAX_MESSAGE
    ensures CutOf(text) < |text| && (TrimNewline(text[CutOf(text)..]) == [] <==> OneOver(text))
  {
    CutIsGood(text);
    NoUsableBreak(text);
    var rest := text[CutOf(text)..];
    assert TrimNewline(rest) == [] <==> |rest| == 1 && rest[0] == NEWLINE;
  }

  /** What is left of the text at the start of each round, and at the end of the loop. */
  function Remainders(text: Bytes): (rs: seq<Bytes>)
    requires Valid(text)
    ensures rs != [] && rs[0] == text
    decreases |text|
  {
    if |text| <= MAX_MESSAGE then [text]
    else
      CutIsGood(text);
      TrimKeepsValid(text[CutOf(text)..]);
      [text] + Remainders(TrimNewline(text[CutOf(text)..]))
  }

  predicate HasEmptyChunk(ps: seq<Piece>) {
    exists i :: 0 <= i < |ps| && ps[i].chunk == []
  }

  predicate SomeOneOver(rs: seq<Bytes>) {
    exists j :: 0 <= j < |rs| && OneOver(rs[j])
  }

  lemma HasEmptyCons(p: Piece, ps: seq<Piece>)
    ensures HasEmptyChunk([p] + ps) <==> p.chunk == [] || HasEmptyChunk(ps)
  {
    if i :| 0 <= i < |ps| && ps[i].chunk == [] {
      assert ([p] + ps)[i + 1] == ps[i];
    }
    assert ([p] + ps)[0] == p;
  }

  lemma SomeOneOverCons(r: Bytes, rs: seq<Bytes>)
    ensures SomeOneOver([r] + rs) <==> OneOver(r) || SomeOneOver(rs)
  {
    if j :| 0 <= j < |rs| && OneOver(rs[j]) {
      assert ([r] + rs)[j + 1] == rs[j];
    }
    assert ([r] + rs)[0] == r;
  }

  /** An empty chunk goes out exactly when the text is empty, or some round of the loop starts with one byte
      over the limit, a line break, and no other behind the first byte. */
  lemma {:induction false} EmptyChunkIff(text: Bytes)
    requires Valid(text)
    ensures HasEmptyChunk(Pieces(text)) <==> text == [] || SomeOneOver(Remainders(text))
    decreases |text|
  {
    if |text| <= MAX_MESSAGE {
      assert Pieces(text) == [Piece(text, false)] && Remainders(text) == [text];
      HasEmptyCons(Piece(text, false), []);
      assert [Piece(text, false)] + [] == Pieces(text);
    } else {
      PiecesStep(text);
      NothingLeftIff(text);
      var rest := TrimNewline(text[CutOf(text)..]);
      EmptyChunkIff(rest);
      HasEmptyCons(FirstPiece(text), Pieces(rest));
      SomeOneOverCons(text, Remainders(rest));
    }
  }

  // ----- sending -----

  datatype Message = Message(text: Bytes, markup: bool)

  /** The messages of a text: its chunks in order, the markup with the last one alone. */
  function Messages(ps: seq<Piece>, markup: bool): seq<Message> {
    seq(|ps|, i requires 0 <= i < |ps| => Message(ps[i].chunk, markup && i == |ps| - 1))
  }

  class Bot {
    var sent: seq<Message>

    constructor ()
      ensures sent == []
    {
      sent := [];
    }

    method FindCut(text: Bytes) returns (cut: nat)
      requires Valid(text) && |text| > MAX_MESSAGE
      ensures cut == CutOf(text) && cut < |text|
    {
      var nl := LastNewline(text[..MAX_MESSAGE]);
      if nl > 0 {
        return nl;
      }
      ghost var q := RuneStartNearby(text, MAX_MESSAGE);
      cut := MAX_MESSAGE;
      while !RuneStart(text[cut])
        decreases cut
        invariant q <= cut <= MAX_MESSAGE && BackToRuneStart(text, MAX_MESSAGE) == BackToRuneStart(text, cut)
      {
        cut := cut - 1;
      }
    }

    method SendMessage(message: Bytes, markup: bool)
      requires Valid(message)
      modifies this
      ensures sent == old(sent) + Messages(Pieces(message), markup)
      ensures forall i :: 0 <= i < |Pieces(message)| ==>
        sent[|old(sent)| + i] == Message(Pieces(message)[i].chunk, markup && i + 1 == |Pieces(message)|)
    {
      var text := message;
      ghost var done: seq<Piece> := [];
      assert [] + Pieces(text) == Pieces(text);
      assert sent + Unmarked([]) == sent;
      while |text| > MAX_MESSAGE
        invariant Valid(text)
        invariant Pieces(message) == done + Pieces(text)
        invariant sent == old(sent) + Unmarked(done)
        decreases |text|
      {
        var cut := FindCut(text);
        var rest := TrimNewline(text[cut..]);
        PiecesStep(text);
        SplitStep(old(sent), done, FirstPiece(text), Pieces(rest));
        sent := sent + [Message(text[..cut], false)];
        done := done + [FirstPiece(text)];
        text := rest;
      }
      assert Pieces(message) == done + [Piece(text, false)];
      LastMessage(old(sent), done, Piece(text, false), markup);
      sent := sent + [Message(text, markup)];
    }
  }

  /** Messages that carry no markup. */
  function Unmarked(ps: seq<Piece>): seq<Message> {
    seq(|ps|, i requires 0 <= i < |ps| => Message(ps[i].chunk, false))
  }

  function FirstPiece(text: Bytes): Piece
    requires |text| > MAX_MESSAGE && CutOf(text) < |text|
  {
    Piece(text[..CutOf(text)], text[CutOf(text)] == NEWLINE)
  }

  lemma PiecesStep(text: Bytes)
    requires Valid(text) && |text| > MAX_MESSAGE
    ensures 0 < CutOf(text) < |text| && Valid(TrimNewline(text[CutOf(text)..]))
    ensures Pieces(text) == [FirstPiece(text)] + Pieces(TrimNewline(text[CutOf(text)..]))
  {
    CutIsGood(text);
    TrimKeepsValid(text[CutOf(text)..]);
  }

  lemma SplitStep(before: seq<Message>, done: seq<Piece>, p: Piece, rest: seq<Piece>)
    ensures before + Unmarked(done + [p]) == before + Unmarked(done) + [Message(p.chunk, false)]
    ensures done + ([p] + rest) == done + [p] + rest
  {
  }

  lemma LastMessage(before: seq<Message>, done: seq<Piece>, p: Piece, markup: bool)
    ensures before + Messages(done + [p], markup) == before + Unmarked(done) + [Message(p.chunk, markup)]
  {
  }
}
