/**
 * Text cleaning and sentence-aligned chunking of a document
 * (`DocumentProcessor._clean_text` and `DocumentProcessor._split_text`).
 */
module DocumentProcessor {
  import opened Text

  datatype ChunkMetadata = ChunkMetadata(source: string, chunkIdx: nat, charCount: nat)

  /** A passage of a document together with its metadata dictionary. */
  datatype DocumentChunk = DocumentChunk(text: string, metadata: ChunkMetadata)

  const Ellipsis: char := '\U{2026}'

  predicate NotAscii(c: char) { !IsAscii(c) }

  predicate IsDot(c: char) { c == '.' }

  // ---------------------------------------------------------------------------
  // _clean_text
  // ---------------------------------------------------------------------------

  /** `re.sub(pattern + '+', ' ', s)` for a one-character class `p`: each maximal run becomes one space. */
  function CollapseRuns(s: string, p: char -> bool): (r: string)
    ensures forall i :: 0 <= i < |r| ==> r[i] == ' ' || !p(r[i])
    ensures (forall i :: 0 <= i < |s| ==> IsAscii(s[i])) ==> (forall i :: 0 <= i < |r| ==> IsAscii(r[i]))
    decreases |s|
  {
    if s == [] then []
    else if p(s[0]) then
      var n := RunLength(s, p);
      [' '] + CollapseRuns(s[n..], p)
    else
      [s[0]] + CollapseRuns(s[1..], p)
  }

  /** Three dots start at position `i`. */
  ghost predicate DotsAt(r: string, i: int)
    requires 0 <= i < |r| - 2
  {
    r[i] == '.' && r[i + 1] == '.' && r[i + 2] == '.'
  }

  /** No three consecutive dots. */
  ghost predicate NoDotRun(r: string) {
    forall i :: 0 <= i < |r| - 2 ==> !DotsAt(r, i)
  }

  ghost predicate AsciiOrEllipsis(r: string) {
    forall i :: 0 <= i < |r| ==> IsAscii(r[i]) || r[i] == Ellipsis
  }

  /** `re.sub(r'\.{3,}', '…', s)`: every maximal run of three or more dots becomes `…`. */
  function ReplaceEllipsis(s: string): (r: string)
    ensures NoDotRun(r)
    ensures r != [] && r[0] == '.' ==> s != [] && s[0] == '.'
    ensures (forall i :: 0 <= i < |s| ==> IsAscii(s[i])) ==> AsciiOrEllipsis(r)
    decreases |s|
  {
    if s == [] then []
    else if s[0] == '.' then
      var n := RunLength(s, IsDot);
      var rest := ReplaceEllipsis(s[n..]);
      assert rest != [] ==> rest[0] != '.';
      var p := if n >= 3 then [Ellipsis] else s[..n];
      NoDotRunShort(p, rest);
      p + rest
    else
      var rest := ReplaceEllipsis(s[1..]);
      NoDotRunCons(s[0], rest);
      [s[0]] + rest
  }

  lemma NoDotRunCons(c: char, rest: string)
    requires c != '.' && NoDotRun(rest)
    ensures NoDotRun([c] + rest)
  {
    var r := [c] + rest;
    forall i | 0 <= i < |r| - 2 ensures !DotsAt(r, i) {
      if i > 0 {
        assert r[i] == rest[i - 1] && r[i + 1] == rest[i] && r[i + 2] == rest[i + 1];
        assert !DotsAt(rest, i - 1);
      }
    }
  }

  /** Up to two characters before a dot-free start cannot complete three dots. */
  lemma NoDotRunShort(p: string, rest: string)
    requires |p| <= 2 && NoDotRun(rest) && (rest != [] ==> rest[0] != '.')
    ensures NoDotRun(p + rest)
  {
    var r := p + rest;
    forall i | 0 <= i < |r| - 2 ensures !DotsAt(r, i) {
      if i >= |p| {
        var j := i - |p|;
        assert r[i] == rest[j] && r[i + 1] == rest[j + 1] && r[i + 2] == rest[j + 2];
        assert !DotsAt(rest, j);
      } else {
        assert |rest| >= 1;
        if |p| == i + 1 {
          assert r[i + 1] == rest[0];
        } else {
          assert r[i + 2] == rest[0];
        }
      }
    }
  }

  lemma NoDotRunSlice(s: string, lo: int, hi: int)
    requires 0 <= lo <= hi <= |s| && NoDotRun(s)
    ensures NoDotRun(s[lo..hi])
  {
    var r := s[lo..hi];
    forall i | 0 <= i < |r| - 2 ensures !DotsAt(r, i) {
      assert r[i] == s[lo + i] && r[i + 1] == s[lo + i + 1] && r[i + 2] == s[lo + i + 2];
      assert !DotsAt(s, lo + i);
    }
  }

  /**
   * `_clean_text`: collapse whitespace runs, replace runs of non-ASCII characters
   * by a space, turn `...` (and longer) into `…`, strip. The result has no
   * whitespace at either end, no three consecutive dots, and every character
   * is ASCII except the inserted ellipses.
   */
  function CleanText(text: string): (r: string)
    ensures IsStripped(r)
    ensures NoDotRun(r)
    ensures AsciiOrEllipsis(r)
  {
    var a := CollapseRuns(text, IsSpace);
    var b := CollapseRuns(a, NotAscii);
    var c := ReplaceEllipsis(b);
    var r := Strip(c);
    NoDotRunSlice(c, |RStrip(c)| - |r|, |RStrip(c)|);
    r
  }

  // ---------------------------------------------------------------------------
  // _split_text: the loop, as a fold over the sentences
  // ---------------------------------------------------------------------------

  /** The loop variables `chunks`, `current` and `curr_len`. */
  datatype SplitState = SplitState(chunks: seq<DocumentChunk>, current: seq<string>, currLen: int)

  /** Append `text` as the next chunk unless it is empty. */
  function Emit(chunks: seq<DocumentChunk>, text: string, source: string): seq<DocumentChunk> {
    if text != "" then chunks + [DocumentChunk(text, ChunkMetadata(source, |chunks|, |text|))] else chunks
  }

  /** One iteration of the loop body, for `sentence`. */
  function Step(st: SplitState, sentence: string, source: string, size: int, overlap: int): SplitState {
    if st.currLen + |sentence| > size && st.current != [] then
      var chunkText := Strip(Join(st.current, " "));
      var seed := PyTail(chunkText, overlap);
      SplitState(Emit(st.chunks, chunkText, source), [seed, sentence], |seed| + |sentence| + 1)
    else
      SplitState(st.chunks, st.current + [sentence], st.currLen + |sentence| + 1)
  }

  /** The loop state after the sentences `ss`. */
  function Run(ss: seq<string>, source: string, size: int, overlap: int): SplitState
    decreases |ss|
  {
    if ss == [] then SplitState([], [], 0)
    else Step(Run(ss[..|ss| - 1], source, size, overlap), ss[|ss| - 1], source, size, overlap)
  }

  lemma StepCases(st: SplitState, x: string, source: string, size: int, overlap: int)
    ensures st.currLen + |x| > size && st.current != [] ==>
      var t := Strip(Join(st.current, " "));
      Step(st, x, source, size, overlap)
        == SplitState(Emit(st.chunks, t, source), [PyTail(t, overlap)] + [x], |PyTail(t, overlap)| + |x| + 1)
    ensures !(st.currLen + |x| > size && st.current != []) ==>
      Step(st, x, source, size, overlap) == SplitState(st.chunks, st.current + [x], st.currLen + |x| + 1)
  {
    if st.currLen + |x| > size && st.current != [] {
      var t := Strip(Join(st.current, " "));
      assert [PyTail(t, overlap)] + [x] == [PyTail(t, overlap), x];
    }
  }

  lemma RunPush(ss: seq<string>, x: string, source: string, size: int, overlap: int)
    ensures Run(ss + [x], source, size, overlap) == Step(Run(ss, source, size, overlap), x, source, size, overlap)
  {
    assert (ss + [x])[..|ss|] == ss;
  }

  /** The final flush after the loop. */
  function Flush(st: SplitState, source: string): seq<DocumentChunk> {
    if st.current != [] then Emit(st.chunks, Strip(Join(st.current, " ")), source) else st.chunks
  }

  /** The chunks `_split_text(text, source)` returns with the given `chunk_size` and `chunk_overlap`. */
  function Chunks(text: string, source: string, size: int, overlap: int): seq<DocumentChunk> {
    Flush(Run(SplitSentences(text), source, size, overlap), source)
  }

  /** Chunk `k` is numbered `k`, carries the source and its own length, and is non-empty and stripped. */
  ghost predicate WellNumbered(chunks: seq<DocumentChunk>, source: string) {
    forall k :: 0 <= k < |chunks| ==>
      && chunks[k].metadata == ChunkMetadata(source, k, |chunks[k].text|)
      && chunks[k].text != []
      && IsStripped(chunks[k].text)
  }

  /**
   * `_split_text`: greedy sentence packing. A chunk is closed only when the
   * buffer is non-empty and the next sentence would push the running length
   * past `chunkSize`; the next buffer is seeded with the last `chunkOverlap`
   * characters of the closed chunk.
   */
  method SplitText(text: string, source: string, chunkSize: int, chunkOverlap: int)
    returns (chunks: seq<DocumentChunk>)
    ensures chunks == Chunks(text, source, chunkSize, chunkOverlap)
    ensures WellNumbered(chunks, source)
    ensures (forall i :: 0 <= i < |text| ==> IsSpace(text[i])) ==> chunks == []
  {
    var sentences := SplitSentences(text);
    var current: seq<string>;
    var currLen: int;
    chunks, current, currLen := Pack(sentences, source, chunkSize, chunkOverlap);
    if current != [] {
      var chunkText := Strip(Join(current, " "));
      if chunkText != "" {
        chunks := chunks + [DocumentChunk(chunkText, ChunkMetadata(source, |chunks|, |chunkText|))];
      }
    }
    ChunksNumbered(text, source, chunkSize, chunkOverlap);
    if forall i :: 0 <= i < |text| ==> IsSpace(text[i]) {
      BlankTextHasNoChunks(text, source, chunkSize, chunkOverlap);
    }
  }

  /** The loop of `_split_text`: the chunks closed so far and the open buffer after every sentence. */
  method Pack(sentences: seq<string>, source: string, chunkSize: int, chunkOverlap: int)
    returns (chunks: seq<DocumentChunk>, current: seq<string>, currLen: int)
    ensures SplitState(chunks, current, currLen) == Run(sentences, source, chunkSize, chunkOverlap)
  {
    chunks := [];
    current := [];
    currLen := 0;
    for i := 0 to |sentences|
      invariant SplitState(chunks, current, currLen) == Run(sentences[..i], source, chunkSize, chunkOverlap)
    {
      ghost var before := SplitState(chunks, current, currLen);
      assert sentences[..i + 1] == sentences[..i] + [sentences[i]];
      var sentence := sentences[i];
      var sLen := |sentence|;
      StepCases(before, sentence, source, chunkSize, chunkOverlap);
      RunPush(sentences[..i], sentence, source, chunkSize, chunkOverlap);
      if currLen + sLen > chunkSize && current != [] {
        var chunkText := Strip(Join(current, " "));
        if chunkText != "" {
          chunks := chunks + [DocumentChunk(chunkText, ChunkMetadata(source, |chunks|, |chunkText|))];
        }
        assert chunks == Emit(before.chunks, chunkText, source);
        var overlapText := PyTail(chunkText, chunkOverlap);
        current := [overlapText];
        currLen := |overlapText|;
      }
      current := current + [sentence];
      currLen := currLen + sLen + 1;
    }
    assert sentences[..|sentences|] == sentences;
  }

  lemma EmitNumbered(chunks: seq<DocumentChunk>, text: string, source: string)
    requires WellNumbered(chunks, source)
    ensures WellNumbered(Emit(chunks, Strip(text), source), source)
  {
  }

  lemma {:induction false} RunNumbered(ss: seq<string>, source: string, size: int, overlap: int)
    ensures WellNumbered(Run(ss, source, size, overlap).chunks, source)
    decreases |ss|
  {
    if ss != [] {
      var a := ss[..|ss| - 1];
      RunNumbered(a, source, size, overlap);
      var st := Run(a, source, size, overlap);
      EmitNumbered(st.chunks, Join(st.current, " "), source);
    }
  }

  /** Chunk `k` is numbered `k`, carries the document's source and its own length, and is non-empty and stripped. */
  lemma ChunksNumbered(text: string, source: string, size: int, overlap: int)
    ensures WellNumbered(Chunks(text, source, size, overlap), source)
  {
    var st := Run(SplitSentences(text), source, size, overlap);
    RunNumbered(SplitSentences(text), source, size, overlap);
    EmitNumbered(st.chunks, Join(st.current, " "), source);
  }

  lemma BlankIsOneSentence(text: string)
    requires forall i :: 0 <= i < |text| ==> IsSpace(text[i])
    ensures SplitSentences(text) == [text]
  {
    forall m | 1 <= m < |text| ensures !BreakAt(text, m) {
      assert IsSpace(text[m - 1]);
    }
  }

  lemma BlankStripsToEmpty(text: string)
    requires forall i :: 0 <= i < |text| ==> IsSpace(text[i])
    ensures Strip(text) == []
  {
    assert RStrip(text) == [];
  }

  lemma BlankTextHasNoChunks(text: string, source: string, size: int, overlap: int)
    requires forall i :: 0 <= i < |text| ==> IsSpace(text[i])
    ensures Chunks(text, source, size, overlap) == []
  {
    BlankIsOneSentence(text);
    BlankStripsToEmpty(text);
    RunPush([], text, source, size, overlap);
    assert [] + [text] == [text];
    var st := SplitState([], [text], |text| + 1);
    assert Run([text], source, size, overlap) == st;
    assert Join(st.current, " ") == text;
    assert Flush(st, source) == [];
  }

  // ---------------------------------------------------------------------------
  // What the chunks add up to
  // ---------------------------------------------------------------------------

  function Texts(cs: seq<DocumentChunk>): (ts: seq<string>)
    ensures |ts| == |cs| && forall k :: 0 <= k < |cs| ==> ts[k] == cs[k].text
  {
    seq(|cs|, k requires 0 <= k < |cs| => cs[k].text)
  }

  /** The overlap seed a chunk starts with, given its predecessor: its last `overlap` characters, left-stripped. */
  function Seed(prev: string, overlap: int): string {
    LStrip(PyTail(prev, overlap))
  }

  function Drop(s: string, n: nat): string {
    if n <= |s| then s[n..] else []
  }

  /** Chunk `k` without its seed and the space after it (the first chunk has no seed). */
  function Piece(ts: seq<string>, k: nat, overlap: int): string
    requires k < |ts|
  {
    if k == 0 then ts[0] else Drop(ts[k], |Seed(ts[k - 1], overlap)| + 1)
  }

  /** The pieces of all chunks, in order. */
  function Pieces(ts: seq<string>, overlap: int): (ps: seq<string>)
    ensures |ps| == |ts|
    decreases |ts|
  {
    if ts == [] then [] else Pieces(ts[..|ts| - 1], overlap) + [Piece(ts, |ts| - 1, overlap)]
  }

  /** The longest a chunk holding two or more sentences beyond its seed can be. */
  function SizeBound(k: nat, size: int): int {
    if k == 0 then size else size + 1
  }

  /** Chunk `k` starts with the seed taken from chunk `k - 1`, a space, and then its own piece. */
  ghost predicate SeededAt(ts: seq<string>, k: int, overlap: int)
    requires 0 < k < |ts|
  {
    ts[k] == Seed(ts[k - 1], overlap) + " " + Piece(ts, k, overlap)
  }

  /** What holds of the chunks closed so far, given the sentences `ss` consumed so far. */
  ghost predicate ClosedOk(ts: seq<string>, ss: seq<string>, size: int, overlap: int) {
    && (forall k :: 0 <= k < |ts| ==> ts[k] != [] && IsStripped(ts[k]))
    && (forall k :: 0 < k < |ts| ==> SeededAt(ts, k, overlap))
    && (forall k :: 0 <= k < |ts| ==> |ts[k]| <= SizeBound(k, size) || Piece(ts, k, overlap) in ss)
  }

  /** Before the first sentence nothing is buffered. */
  ghost predicate Fresh(ss: seq<string>, st: SplitState) {
    ss == [] ==> st == SplitState([], [], 0)
  }

  /** Until the first chunk closes, the buffer is every sentence so far. */
  ghost predicate Opening(ss: seq<string>, st: SplitState, size: int) {
    ss != [] && st.chunks == [] ==>
      && st.current == ss
      && st.currLen == |Join(ss, " ")| + 1
      && (|ss| >= 2 ==> st.currLen <= size + 1)
  }

  /**
   * After a chunk closed, the buffer is a seed cut from the last chunk followed by
   * sentences, and the pieces closed so far followed by those sentences give back
   * every sentence so far.
   */
  ghost predicate Seeded(ss: seq<string>, st: SplitState, size: int, overlap: int) {
    var ts := Texts(st.chunks);
    st.chunks != [] ==>
      && ss != []
      && |st.current| >= 2
      && st.current[0] == PyTail(ts[|ts| - 1], overlap)
      && st.currLen == |Join(st.current, " ")|
      && (|st.current| >= 3 ==> st.currLen <= size + 1)
      && (forall j :: 1 <= j < |st.current| ==> st.current[j] in ss)
      && Join(Pieces(ts, overlap), " ") + " " + Join(st.current[1..], " ") == Join(ss, " ")
  }

  /** The loop invariant behind the chunking theorems. */
  ghost predicate RunInv(ss: seq<string>, st: SplitState, size: int, overlap: int) {
    && Fresh(ss, st)
    && Opening(ss, st, size)
    && Seeded(ss, st, size, overlap)
    && ClosedOk(Texts(st.chunks), ss, size, overlap)
  }

  lemma JoinPush(a: seq<string>, x: string, sep: string)
    requires a != []
    ensures Join(a + [x], sep) == Join(a, sep) + sep + x
  {
    assert (a + [x])[..|a + [x]| - 1] == a;
  }

  lemma {:induction false} JoinWellFormed(ss: seq<string>)
    requires ss != [] && WellFormedSentences(ss)
    ensures Join(ss, " ") != [] && IsStripped(Join(ss, " "))
    decreases |ss|
  {
    if |ss| > 1 {
      var a := ss[..|ss| - 1];
      assert WellFormedSentences(a) by {
        forall k | 0 <= k < |a| ensures a[k] != [] && IsStripped(a[k]) { assert a[k] == ss[k]; }
      }
      JoinWellFormed(a);
    }
  }

  lemma {:induction false} LStripConcat(a: string, b: string)
    requires a != [] && !IsSpace(a[|a| - 1])
    ensures LStrip(a + b) == LStrip(a) + b
    decreases |a|
  {
    if IsSpace(a[0]) {
      assert (a + b)[1..] == a[1..] + b;
      LStripConcat(a[1..], b);
    }
  }

  /** Stripping `seed + " " + rest` removes only the seed's leading whitespace. */
  lemma StripSeeded(seed: string, rest: string)
    requires seed != [] && !IsSpace(seed[|seed| - 1])
    requires rest != [] && IsStripped(rest)
    ensures Strip(seed + " " + rest) == LStrip(seed) + " " + rest
    ensures LStrip(seed) != []
  {
    var tail := " " + rest;
    var x := seed + tail;
    assert x[|x| - 1] == rest[|rest| - 1];
    assert RStrip(x) == x;
    Assoc(seed, " ", rest);
    Assoc(LStrip(seed), " ", rest);
    LStripConcat(seed, tail);
  }

  lemma TailKeepsLast(t: string, overlap: int)
    requires t != [] && overlap >= 0
    ensures PyTail(t, overlap) != []
    ensures PyTail(t, overlap)[|PyTail(t, overlap)| - 1] == t[|t| - 1]
  {
    PyTailSuffix(t, overlap);
  }

  lemma TextsPush(cs: seq<DocumentChunk>, c: DocumentChunk)
    ensures Texts(cs + [c]) == Texts(cs) + [c.text]
  {
  }

  lemma PiecesPush(ts: seq<string>, t: string, overlap: int)
    ensures Pieces(ts + [t], overlap) == Pieces(ts, overlap) + [Piece(ts + [t], |ts|, overlap)]
  {
    assert (ts + [t])[..|ts|] == ts;
  }

  lemma PieceOfPush(ts: seq<string>, t: string, k: nat, overlap: int)
    requires k < |ts|
    ensures Piece(ts + [t], k, overlap) == Piece(ts, k, overlap)
  {
    assert (ts + [t])[k] == ts[k];
    if k > 0 { assert (ts + [t])[k - 1] == ts[k - 1]; }
  }

  lemma WellFormedPrefix(ss: seq<string>, x: string)
    requires WellFormedSentences(ss + [x])
    ensures WellFormedSentences(ss) && x != [] && IsStripped(x)
  {
    assert (ss + [x])[|ss|] == x;
    forall k | 0 <= k < |ss| ensures ss[k] != [] && IsStripped(ss[k]) { assert ss[k] == (ss + [x])[k]; }
  }

  /** Closing a chunk `t` keeps ClosedOk, when `t` has the shape a closed chunk must have. */
  lemma ClosedOkPush(ts: seq<string>, ss: seq<string>, t: string, size: int, overlap: int)
    requires ClosedOk(ts, ss, size, overlap)
    requires t != [] && IsStripped(t)
    requires ts != [] ==> SeededAt(ts + [t], |ts|, overlap)
    requires |t| <= SizeBound(|ts|, size) || Piece(ts + [t], |ts|, overlap) in ss
    ensures ClosedOk(ts + [t], ss, size, overlap)
  {
    PushStripped(ts, t);
    PushSeeded(ts, t, overlap);
    PushSized(ts, ss, t, size, overlap);
  }

  lemma PushStripped(ts: seq<string>, t: string)
    requires forall k :: 0 <= k < |ts| ==> ts[k] != [] && IsStripped(ts[k])
    requires t != [] && IsStripped(t)
    ensures forall k :: 0 <= k < |ts + [t]| ==> (ts + [t])[k] != [] && IsStripped((ts + [t])[k])
  {
    var ts' := ts + [t];
    forall k | 0 <= k < |ts'| ensures ts'[k] != [] && IsStripped(ts'[k]) {
      if k < |ts| { assert ts'[k] == ts[k]; }
    }
  }

  lemma PushSeeded(ts: seq<string>, t: string, overlap: int)
    requires forall k :: 0 < k < |ts| ==> SeededAt(ts, k, overlap)
    requires ts != [] ==> SeededAt(ts + [t], |ts|, overlap)
    ensures forall k :: 0 < k < |ts + [t]| ==> SeededAt(ts + [t], k, overlap)
  {
    var ts' := ts + [t];
    forall k | 0 < k < |ts'| ensures SeededAt(ts', k, overlap) {
      if k < |ts| {
        PieceOfPush(ts, t, k, overlap);
        assert SeededAt(ts, k, overlap);
        assert ts'[k] == ts[k] && ts'[k - 1] == ts[k - 1];
      }
    }
  }

  lemma PushSized(ts: seq<string>, ss: seq<string>, t: string, size: int, overlap: int)
    requires forall k :: 0 <= k < |ts| ==> |ts[k]| <= SizeBound(k, size) || Piece(ts, k, overlap) in ss
    requires |t| <= SizeBound(|ts|, size) || Piece(ts + [t], |ts|, overlap) in ss
    ensures forall k :: 0 <= k < |ts + [t]| ==>
      |(ts + [t])[k]| <= SizeBound(k, size) || Piece(ts + [t], k, overlap) in ss
  {
    var ts' := ts + [t];
    forall k | 0 <= k < |ts'| ensures |ts'[k]| <= SizeBound(k, size) || Piece(ts', k, overlap) in ss {
      if k < |ts| {
        PieceOfPush(ts, t, k, overlap);
        assert ts'[k] == ts[k];
      }
    }
  }

  /** Consuming one more sentence keeps ClosedOk for the chunks already closed. */
  lemma ClosedOkGrow(ts: seq<string>, ss: seq<string>, x: string, size: int, overlap: int)
    requires ClosedOk(ts, ss, size, overlap)
    ensures ClosedOk(ts, ss + [x], size, overlap)
  {
    forall k | 0 <= k < |ts| ensures |ts[k]| <= SizeBound(k, size) || Piece(ts, k, overlap) in ss + [x] {
      if Piece(ts, k, overlap) in ss {
        var j :| 0 <= j < |ss| && ss[j] == Piece(ts, k, overlap);
        assert (ss + [x])[j] == ss[j];
      }
    }
  }

  /** Closing the opening buffer: the first chunk is all sentences so far, joined. */
  lemma CloseOpening(ss: seq<string>, st: SplitState, size: int, overlap: int)
    requires WellFormedSentences(ss) && ss != [] && RunInv(ss, st, size, overlap) && st.chunks == []
    ensures var t := Strip(Join(st.current, " "));
      && t == Join(ss, " ") && t != [] && IsStripped(t)
      && ClosedOk(Texts(st.chunks) + [t], ss, size, overlap)
      && Join(Pieces(Texts(st.chunks) + [t], overlap), " ") == Join(ss, " ")
  {
    JoinWellFormed(ss);
    var t := Join(ss, " ");
    assert Texts(st.chunks) + [t] == [t];
    assert Piece([t], 0, overlap) == t;
    PiecesPush([], t, overlap);
    assert Pieces([t], overlap) == [t];
    if |ss| == 1 {
      assert t == ss[0];
    }
    ClosedOkPush([], ss, t, size, overlap);
  }

  /** The text of a seeded buffer, stripped: the left-stripped seed, a space, and the buffered sentences. */
  lemma SeededText(prev: string, g: seq<string>, overlap: int)
    requires overlap >= 0 && prev != [] && IsStripped(prev)
    requires g != [] && WellFormedSentences(g)
    ensures var t := Strip(Join([PyTail(prev, overlap)] + g, " "));
      && t == Seed(prev, overlap) + " " + Join(g, " ")
      && t != [] && IsStripped(t)
      && |t| <= |Join([PyTail(prev, overlap)] + g, " ")|
      && Drop(t, |Seed(prev, overlap)| + 1) == Join(g, " ")
  {
    var seed := PyTail(prev, overlap);
    JoinWellFormed(g);
    var rest := Join(g, " ");
    TailKeepsLast(prev, overlap);
    JoinAppend([seed], g, " ");
    StripSeeded(seed, rest);
    var sd := Seed(prev, overlap);
    var t := sd + " " + rest;
    assert t[0] == sd[0];
    assert t[|t| - 1] == rest[|rest| - 1];
    assert t[|sd| + 1..] == rest;
  }

  /** Closing a seeded buffer adds a chunk that keeps ClosedOk and extends the pieces by the buffered sentences. */
  lemma CloseSeeded(ss: seq<string>, st: SplitState, size: int, overlap: int)
    requires overlap >= 0 && WellFormedSentences(ss) && RunInv(ss, st, size, overlap) && st.chunks != []
    ensures var ts := Texts(st.chunks);
      var t := Strip(Join(st.current, " "));
      && t != [] && IsStripped(t)
      && ClosedOk(ts + [t], ss, size, overlap)
      && Join(Pieces(ts + [t], overlap), " ") == Join(ss, " ")
      && Piece(ts + [t], |ts|, overlap) == Join(st.current[1..], " ")
  {
    var ts := Texts(st.chunks);
    var prev := ts[|ts| - 1];
    var seed := st.current[0];
    var g := st.current[1..];
    assert st.current == [seed] + g;
    assert WellFormedSentences(g) by {
      forall j | 0 <= j < |g| ensures g[j] != [] && IsStripped(g[j]) {
        assert g[j] == st.current[j + 1];
      }
    }
    SeededText(prev, g, overlap);
    var rest := Join(g, " ");
    var t := Strip(Join(st.current, " "));
    var ts' := ts + [t];
    assert ts'[|ts| - 1] == prev && ts'[|ts|] == t;
    assert Piece(ts', |ts|, overlap) == rest;
    assert SeededAt(ts', |ts|, overlap);
    if |g| == 1 {
      assert rest == g[0] == st.current[1];
    }
    ClosedOkPush(ts, ss, t, size, overlap);
    PiecesPush(ts, t, overlap);
    JoinPush(Pieces(ts, overlap), rest, " ");
  }

  /** The buffer `[seed, x]` right after a cut, with `seed` the tail of the chunk just closed. */
  lemma SeededAfterCut(ss: seq<string>, cs: seq<DocumentChunk>, seed: string, x: string, size: int, overlap: int)
    requires ss != [] && cs != []
    requires seed == PyTail(Texts(cs)[|cs| - 1], overlap)
    requires Join(Pieces(Texts(cs), overlap), " ") == Join(ss, " ")
    ensures Seeded(ss + [x], SplitState(cs, [seed, x], |seed| + |x| + 1), size, overlap)
  {
    var st := SplitState(cs, [seed, x], |seed| + |x| + 1);
    var ts := Texts(cs);
    JoinPair(seed, x);
    JoinPush(ss, x, " ");
    assert (ss + [x])[|ss|] == x;
    assert st.currLen == |Join(st.current, " ")|;
    assert forall j :: 1 <= j < |st.current| ==> st.current[j] in ss + [x];
    assert Join(Pieces(ts, overlap), " ") + " " + Join(st.current[1..], " ") == Join(ss + [x], " ");
  }

  lemma JoinPair(a: string, b: string)
    ensures Join([a, b], " ") == a + " " + b
    ensures Join([a, b][1..], " ") == b
  {
    assert [a, b][..1] == [a];
    assert [a, b][1..] == [b];
  }

  /** A cut closes the stripped buffer `t` as the next chunk and restarts from its tail `seed` and `x`. */
  lemma CutStep(st: SplitState, x: string, source: string, size: int, overlap: int, t: string, seed: string)
    requires st.currLen + |x| > size && st.current != []
    requires t == Strip(Join(st.current, " ")) && t != []
    requires seed == PyTail(t, overlap)
    ensures Step(st, x, source, size, overlap)
      == SplitState(st.chunks + [DocumentChunk(t, ChunkMetadata(source, |st.chunks|, |t|))], [seed, x], |seed| + |x| + 1)
  {
    StepCases(st, x, source, size, overlap);
    assert [seed] + [x] == [seed, x];
  }

  /** After a chunk `t` is closed, the buffer restarts from its tail and the sentence `x`. */
  lemma AfterCut(ss: seq<string>, st: SplitState, x: string, source: string, size: int, overlap: int)
    requires overlap >= 0 && ss != [] && st.current != []
    requires st.currLen + |x| > size
    requires var t := Strip(Join(st.current, " "));
      && t != [] && IsStripped(t)
      && ClosedOk(Texts(st.chunks) + [t], ss, size, overlap)
      && Join(Pieces(Texts(st.chunks) + [t], overlap), " ") == Join(ss, " ")
    ensures RunInv(ss + [x], Step(st, x, source, size, overlap), size, overlap)
  {
    var t := Strip(Join(st.current, " "));
    var c := DocumentChunk(t, ChunkMetadata(source, |st.chunks|, |t|));
    var seed := PyTail(t, overlap);
    var cs := st.chunks + [c];
    CutStep(st, x, source, size, overlap, t, seed);
    TextsPush(st.chunks, c);
    assert Texts(cs)[|cs| - 1] == t;
    CutInv(ss, cs, seed, x, size, overlap);
  }

  /** The invariant right after a cut: the closed chunks `cs` and the buffer `[seed, x]`. */
  lemma CutInv(ss: seq<string>, cs: seq<DocumentChunk>, seed: string, x: string, size: int, overlap: int)
    requires ss != [] && cs != []
    requires seed == PyTail(Texts(cs)[|cs| - 1], overlap)
    requires ClosedOk(Texts(cs), ss, size, overlap)
    requires Join(Pieces(Texts(cs), overlap), " ") == Join(ss, " ")
    ensures RunInv(ss + [x], SplitState(cs, [seed, x], |seed| + |x| + 1), size, overlap)
  {
    ClosedOkGrow(Texts(cs), ss, x, size, overlap);
    SeededAfterCut(ss, cs, seed, x, size, overlap);
  }

  /** No chunk is closed while the first buffer fills. */
  lemma StepKeepOpening(ss: seq<string>, st: SplitState, x: string, source: string, size: int, overlap: int)
    requires RunInv(ss, st, size, overlap) && st.chunks == []
    requires !(st.currLen + |x| > size && st.current != [])
    ensures RunInv(ss + [x], Step(st, x, source, size, overlap), size, overlap)
  {
    var st' := Step(st, x, source, size, overlap);
    assert st'.current == st.current + [x];
    if ss == [] {
      assert st'.current == [x] == ss + [x];
    } else {
      JoinPush(ss, x, " ");
    }
  }

  lemma BufferPush(cur: seq<string>, x: string)
    requires cur != []
    ensures (cur + [x])[1..] == cur[1..] + [x]
    ensures |Join(cur + [x], " ")| == |Join(cur, " ")| + |x| + 1
  {
    JoinPush(cur, x, " ");
  }

  lemma ReconstructPush(p: string, g: seq<string>, ss: seq<string>, x: string)
    requires g != [] && ss != [] && p + " " + Join(g, " ") == Join(ss, " ")
    ensures p + " " + Join(g + [x], " ") == Join(ss + [x], " ")
  {
    JoinPush(g, x, " ");
    JoinPush(ss, x, " ");
    var j := Join(g, " ");
    Assoc(p + " ", j, " " + x);
    Assoc(j, " ", x);
    Assoc(p, " ", j);
    Assoc(p + " " + j, " ", x);
  }

  lemma MembersPush(cur: seq<string>, ss: seq<string>, x: string)
    requires forall j :: 1 <= j < |cur| ==> cur[j] in ss
    ensures forall j :: 1 <= j < |cur + [x]| ==> (cur + [x])[j] in ss + [x]
  {
    forall j | 1 <= j < |cur + [x]| ensures (cur + [x])[j] in ss + [x] {
      if j < |cur| {
        assert (cur + [x])[j] == cur[j];
      }
    }
  }

  /** Appending a sentence to a seeded buffer that stays within the size keeps Seeded. */
  lemma SeededKeep(ss: seq<string>, st: SplitState, x: string, size: int, overlap: int)
    requires Seeded(ss, st, size, overlap) && st.chunks != [] && st.currLen + |x| <= size
    ensures Seeded(ss + [x], SplitState(st.chunks, st.current + [x], st.currLen + |x| + 1), size, overlap)
  {
    var st' := SplitState(st.chunks, st.current + [x], st.currLen + |x| + 1);
    assert st'.current[0] == st.current[0];
    var ts := Texts(st.chunks);
    BufferPush(st.current, x);
    ReconstructPush(Join(Pieces(ts, overlap), " "), st.current[1..], ss, x);
    MembersPush(st.current, ss, x);
  }

  /** No chunk is closed: the sentence joins a seeded buffer. */
  lemma StepKeepSeeded(ss: seq<string>, st: SplitState, x: string, source: string, size: int, overlap: int)
    requires RunInv(ss, st, size, overlap) && st.chunks != []
    requires !(st.currLen + |x| > size && st.current != [])
    ensures RunInv(ss + [x], Step(st, x, source, size, overlap), size, overlap)
  {
    var st' := SplitState(st.chunks, st.current + [x], st.currLen + |x| + 1);
    SeededKeep(ss, st, x, size, overlap);
    ClosedOkGrow(Texts(st.chunks), ss, x, size, overlap);
    assert RunInv(ss + [x], st', size, overlap);
    assert Step(st, x, source, size, overlap) == st';
  }

  lemma StepInv(ss: seq<string>, st: SplitState, x: string, source: string, size: int, overlap: int)
    requires overlap >= 0 && WellFormedSentences(ss + [x]) && RunInv(ss, st, size, overlap)
    ensures RunInv(ss + [x], Step(st, x, source, size, overlap), size, overlap)
  {
    WellFormedPrefix(ss, x);
    if st.currLen + |x| > size && st.current != [] {
      if st.chunks == [] {
        CloseOpening(ss, st, size, overlap);
      } else {
        CloseSeeded(ss, st, size, overlap);
      }
      AfterCut(ss, st, x, source, size, overlap);
    } else if st.chunks == [] {
      StepKeepOpening(ss, st, x, source, size, overlap);
    } else {
      StepKeepSeeded(ss, st, x, source, size, overlap);
    }
  }

  lemma {:induction false} RunInvHolds(ss: seq<string>, source: string, size: int, overlap: int)
    requires overlap >= 0 && WellFormedSentences(ss)
    ensures RunInv(ss, Run(ss, source, size, overlap), size, overlap)
    decreases |ss|
  {
    if ss != [] {
      var a := ss[..|ss| - 1];
      assert a + [ss[|ss| - 1]] == ss;
      RunInvHolds(a, source, size, overlap);
      StepInv(a, Run(a, source, size, overlap), ss[|ss| - 1], source, size, overlap);
    }
  }

  /** The final flush closes the buffer, keeping ClosedOk and completing the pieces. */
  lemma FlushFacts(ss: seq<string>, st: SplitState, source: string, size: int, overlap: int)
    requires overlap >= 0 && ss != [] && WellFormedSentences(ss) && RunInv(ss, st, size, overlap)
    ensures var ts := Texts(Flush(st, source));
      && ClosedOk(ts, ss, size, overlap)
      && Join(Pieces(ts, overlap), " ") == Join(ss, " ")
  {
    var t := Strip(Join(st.current, " "));
    var c := DocumentChunk(t, ChunkMetadata(source, |st.chunks|, |t|));
    if st.chunks == [] {
      CloseOpening(ss, st, size, overlap);
    } else {
      CloseSeeded(ss, st, size, overlap);
    }
    assert st.current != [];
    assert Flush(st, source) == st.chunks + [c];
    TextsPush(st.chunks, c);
    assert Texts(Flush(st, source)) == Texts(st.chunks) + [t];
  }

  /**
   * The chunks of a text without surrounding whitespace: every chunk is non-empty
   * and stripped, starts with the seed cut from its predecessor, is within the
   * size bound or else is a single sentence after its seed, and the pieces,
   * joined with single spaces, give back the sentences joined with single spaces.
   */
  lemma ChunksFacts(text: string, source: string, size: int, overlap: int)
    requires overlap >= 0 && IsStripped(text)
    ensures var ts := Texts(Chunks(text, source, size, overlap));
      && ClosedOk(ts, SplitSentences(text), size, overlap)
      && Join(Pieces(ts, overlap), " ") == Join(SplitSentences(text), " ")
  {
    if text == [] {
      BlankTextHasNoChunks(text, source, size, overlap);
    } else {
      var ss := SplitSentences(text);
      SplitSentencesWellFormed(text);
      RunInvHolds(ss, source, size, overlap);
      FlushFacts(ss, Run(ss, source, size, overlap), source, size, overlap);
    }
  }

  /** No text is lost: the chunks' pieces, joined, are the document's sentences, joined. */
  lemma ChunksReconstruct(text: string, source: string, size: int, overlap: int)
    requires overlap >= 0 && IsStripped(text)
    ensures Join(Pieces(Texts(Chunks(text, source, size, overlap)), overlap), " ")
         == Join(SplitSentences(text), " ")
  {
    ChunksFacts(text, source, size, overlap);
  }

  /** Every chunk after the first starts with the (left-stripped) last `overlap` characters of its predecessor. */
  lemma ChunksOverlap(text: string, source: string, size: int, overlap: int)
    requires overlap >= 0 && IsStripped(text)
    ensures var cs := Chunks(text, source, size, overlap);
      forall k :: 0 < k < |cs| ==>
        IsPrefix(Seed(cs[k - 1].text, overlap) + " ", cs[k].text)
  {
    ChunksFacts(text, source, size, overlap);
    var cs := Chunks(text, source, size, overlap);
    var ts := Texts(cs);
    forall k | 0 < k < |cs| ensures IsPrefix(Seed(cs[k - 1].text, overlap) + " ", cs[k].text) {
      assert SeededAt(ts, k, overlap);
    }
  }

  /**
   * A chunk is longer than `chunk_size` (plus the joining space, after the first)
   * only when, after its seed, it holds a single sentence.
   */
  lemma ChunksBounded(text: string, source: string, size: int, overlap: int)
    requires overlap >= 0 && IsStripped(text)
    ensures var ts := Texts(Chunks(text, source, size, overlap));
      forall k :: 0 <= k < |ts| ==>
        |ts[k]| <= SizeBound(k, size) || Piece(ts, k, overlap) in SplitSentences(text)
  {
    ChunksFacts(text, source, size, overlap);
  }

  /**
   * One iteration closes at most one chunk, and only when the buffer is non-empty
   * and the sentence would overflow it; closed chunks are never changed, and the
   * buffer ends with the sentence.
   */
  lemma StepClosesAtMostOne(st: SplitState, x: string, source: string, size: int, overlap: int)
    ensures var r := Step(st, x, source, size, overlap);
      && st.chunks <= r.chunks && |r.chunks| <= |st.chunks| + 1
      && (|r.chunks| > |st.chunks| ==> st.currLen + |x| > size && st.current != [])
      && r.current != [] && r.current[|r.current| - 1] == x
  {
    StepCases(st, x, source, size, overlap);
  }

  /** After the first sentence there is always a buffer, and fewer closed chunks than sentences. */
  lemma {:induction false} RunCount(ss: seq<string>, source: string, size: int, overlap: int)
    ensures ss == [] ==> Run(ss, source, size, overlap).chunks == []
    ensures ss != [] ==> |Run(ss, source, size, overlap).chunks| < |ss|
    decreases |ss|
  {
    if ss != [] {
      var a := ss[..|ss| - 1];
      RunCount(a, source, size, overlap);
      StepClosesAtMostOne(Run(a, source, size, overlap), ss[|ss| - 1], source, size, overlap);
    }
  }

  /** `_split_text` never makes more chunks than the text has sentences. */
  lemma ChunksAtMostSentences(text: string, source: string, size: int, overlap: int)
    ensures |Chunks(text, source, size, overlap)| <= |SplitSentences(text)|
  {
    var ss := SplitSentences(text);
    RunCount(ss, source, size, overlap);
  }

  // ---------------------------------------------------------------------------
  // Chunks never split a sentence
  // ---------------------------------------------------------------------------

  /**
   * The chunks `ts` cut the sentences `ss` at the positions `cuts`: the piece of
   * chunk `k` is exactly the sentences `cuts[k]` up to `cuts[k + 1]`, joined by spaces.
   */
  ghost predicate CutAt(ts: seq<string>, ss: seq<string>, cuts: seq<nat>, overlap: int) {
    && |cuts| == |ts| + 1
    && cuts[0] == 0
    && cuts[|ts|] <= |ss|
    && forall k :: 0 <= k < |ts| ==> CutPiece(ts, ss, cuts, k, overlap)
  }

  /** Chunk `k`'s piece is the non-empty run of sentences from `cuts[k]` up to `cuts[k + 1]`. */
  ghost predicate CutPiece(ts: seq<string>, ss: seq<string>, cuts: seq<nat>, k: nat, overlap: int)
    requires k < |ts| && |cuts| == |ts| + 1
  {
    cuts[k] < cuts[k + 1] <= |ss| && Piece(ts, k, overlap) == Join(ss[cuts[k]..cuts[k + 1]], " ")
  }

  /** Where the loop has cut the sentences `ss`: 0, then the index of the sentence that opened each new buffer. */
  ghost function RunCuts(ss: seq<string>, source: string, size: int, overlap: int): seq<nat>
    decreases |ss|
  {
    if ss == [] then [0]
    else
      var init := ss[..|ss| - 1];
      var st := Run(init, source, size, overlap);
      if st.currLen + |ss[|ss| - 1]| > size && st.current != [] then RunCuts(init, source, size, overlap) + [|init|]
      else RunCuts(init, source, size, overlap)
  }

  /** The cuts of the whole text: those of the loop, and the end of the text if the flush adds a chunk. */
  ghost function ChunkCuts(text: string, source: string, size: int, overlap: int): seq<nat> {
    var ss := SplitSentences(text);
    var st := Run(ss, source, size, overlap);
    RunCuts(ss, source, size, overlap) + (if |Flush(st, source)| > |st.chunks| then [|ss|] else [])
  }

  /** The closed chunks cut the sentences, and after a chunk the buffer holds, behind its seed, the sentences from the last cut on. */
  ghost predicate Aligned(ss: seq<string>, st: SplitState, cuts: seq<nat>, overlap: int) {
    && CutAt(Texts(st.chunks), ss, cuts, overlap)
    && (st.chunks != [] ==>
          st.current == [PyTail(Texts(st.chunks)[|st.chunks| - 1], overlap)] + ss[cuts[|cuts| - 1]..|ss|])
  }

  /** Consuming a sentence leaves the closed chunks' cuts valid. */
  lemma CutAtGrow(ts: seq<string>, ss: seq<string>, x: string, cuts: seq<nat>, overlap: int)
    requires CutAt(ts, ss, cuts, overlap)
    ensures CutAt(ts, ss + [x], cuts, overlap)
  {
    forall k | 0 <= k < |ts| ensures CutPiece(ts, ss + [x], cuts, k, overlap) {
      assert CutPiece(ts, ss, cuts, k, overlap);
      assert (ss + [x])[cuts[k]..cuts[k + 1]] == ss[cuts[k]..cuts[k + 1]];
    }
  }

  /** A chunk whose piece is the sentences from the last cut up to `c` extends the cuts by `c`. */
  lemma CutAtPush(ts: seq<string>, ss: seq<string>, cuts: seq<nat>, t: string, c: nat, overlap: int)
    requires CutAt(ts, ss, cuts, overlap)
    requires cuts[|ts|] < c <= |ss|
    requires Piece(ts + [t], |ts|, overlap) == Join(ss[cuts[|ts|]..c], " ")
    ensures CutAt(ts + [t], ss, cuts + [c], overlap)
  {
    var cuts' := cuts + [c];
    forall k | 0 <= k < |ts| ensures CutPiece(ts + [t], ss, cuts', k, overlap) {
      assert CutPiece(ts, ss, cuts, k, overlap);
      PieceOfPush(ts, t, k, overlap);
      assert cuts'[k] == cuts[k];
      assert cuts'[k + 1] == if k + 1 < |ts| then cuts[k + 1] else cuts[|ts|];
    }
  }

  /** Closing the first buffer, which holds every sentence, gives a chunk whose piece is every sentence. */
  lemma ClosePieceOpening(ss: seq<string>, overlap: int)
    requires WellFormedSentences(ss) && ss != []
    ensures var t := Strip(Join(ss, " "));
      t != [] && Piece([t], 0, overlap) == Join(ss[0..|ss|], " ")
  {
    JoinWellFormed(ss);
    assert ss[0..|ss|] == ss;
  }

  /** The chunk closed from the seed of `ts`'s last chunk and the sentences `g` has `g`, joined, as its piece. */
  lemma SeededPiece(ts: seq<string>, g: seq<string>, overlap: int)
    requires overlap >= 0 && ts != [] && ts[|ts| - 1] != [] && IsStripped(ts[|ts| - 1])
    requires g != [] && WellFormedSentences(g)
    ensures var t := Strip(Join([PyTail(ts[|ts| - 1], overlap)] + g, " "));
      t != [] && Piece(ts + [t], |ts|, overlap) == Join(g, " ")
  {
    var prev := ts[|ts| - 1];
    SeededText(prev, g, overlap);
    var t := Strip(Join([PyTail(prev, overlap)] + g, " "));
    var ts' := ts + [t];
    assert ts'[|ts| - 1] == prev && ts'[|ts|] == t;
  }

  /** Closing a seeded buffer gives a chunk whose piece is the buffered sentences, `ss` from `last` on. */
  lemma ClosePieceSeeded(ts: seq<string>, current: seq<string>, ss: seq<string>, last: nat, overlap: int)
    requires overlap >= 0 && ts != [] && ts[|ts| - 1] != [] && IsStripped(ts[|ts| - 1])
    requires WellFormedSentences(ss) && last < |ss|
    requires current == [PyTail(ts[|ts| - 1], overlap)] + ss[last..|ss|]
    ensures var t := Strip(Join(current, " "));
      t != [] && Piece(ts + [t], |ts|, overlap) == Join(ss[last..|ss|], " ")
  {
    WellFormedSuffix(ss, last);
    SeededPiece(ts, ss[last..|ss|], overlap);
  }

  lemma WellFormedSuffix(ss: seq<string>, last: nat)
    requires WellFormedSentences(ss) && last <= |ss|
    ensures WellFormedSentences(ss[last..|ss|])
  {
    forall j | 0 <= j < |ss| - last ensures ss[last..|ss|][j] != [] && IsStripped(ss[last..|ss|][j]) {
      assert ss[last..|ss|][j] == ss[last + j];
    }
  }

  /**
   * What closing the buffer `current` after the chunks `ts` relies on: the first
   * buffer holds every sentence, a later one the seed of the last chunk and the
   * sentences from the last cut on.
   */
  ghost predicate Closable(ts: seq<string>, current: seq<string>, ss: seq<string>, cuts: seq<nat>, overlap: int) {
    && ss != [] && WellFormedSentences(ss) && CutAt(ts, ss, cuts, overlap)
    && (ts == [] ==> current == ss)
    && (ts != [] ==>
          && ts[|ts| - 1] != [] && IsStripped(ts[|ts| - 1]) && cuts[|ts|] < |ss|
          && current == [PyTail(ts[|ts| - 1], overlap)] + ss[cuts[|ts|]..|ss|])
  }

  lemma ClosableOf(ss: seq<string>, st: SplitState, cuts: seq<nat>, size: int, overlap: int)
    requires ss != [] && WellFormedSentences(ss)
    requires RunInv(ss, st, size, overlap) && Aligned(ss, st, cuts, overlap)
    ensures Closable(Texts(st.chunks), st.current, ss, cuts, overlap)
  {
    var ts := Texts(st.chunks);
    if st.chunks != [] {
      var last := cuts[|ts|];
      assert |st.current| >= 2;
      assert |ss[last..|ss|]| == |st.current| - 1;
      assert ts[|ts| - 1] != [] && IsStripped(ts[|ts| - 1]);
    }
  }

  /** Closing the buffer adds a chunk whose piece is the sentences from the last cut to the end. */
  lemma CloseAligned(ts: seq<string>, current: seq<string>, ss: seq<string>, cuts: seq<nat>, overlap: int)
    requires overlap >= 0 && Closable(ts, current, ss, cuts, overlap)
    ensures var t := Strip(Join(current, " "));
      t != [] && CutAt(ts + [t], ss, cuts + [|ss|], overlap)
  {
    var t := Strip(Join(current, " "));
    if ts == [] {
      ClosePieceOpening(ss, overlap);
      assert ts + [t] == [t];
    } else {
      ClosePieceSeeded(ts, current, ss, cuts[|ts|], overlap);
    }
    CutAtPush(ts, ss, cuts, t, |ss|, overlap);
  }

  /** A step that closes no chunk keeps the cuts and extends the buffer by the sentence. */
  lemma AlignKeep(ss: seq<string>, st: SplitState, x: string, cuts: seq<nat>, source: string, size: int, overlap: int)
    requires Aligned(ss, st, cuts, overlap)
    requires !(st.currLen + |x| > size && st.current != [])
    ensures Aligned(ss + [x], Step(st, x, source, size, overlap), cuts, overlap)
  {
    StepCases(st, x, source, size, overlap);
    CutAtGrow(Texts(st.chunks), ss, x, cuts, overlap);
    if st.chunks != [] {
      var last := cuts[|cuts| - 1];
      assert (ss + [x])[last..|ss + [x]|] == ss[last..|ss|] + [x];
      var p := PyTail(Texts(st.chunks)[|st.chunks| - 1], overlap);
      assert st.current + [x] == [p] + (ss + [x])[last..|ss + [x]|];
    }
  }

  /** Right after a cut, the buffer is the seed of the chunk `c` just closed and the sentence `x`. */
  lemma AlignedAfterCut(ss: seq<string>, cs: seq<DocumentChunk>, c: DocumentChunk, x: string, cuts: seq<nat>, n: int, overlap: int)
    requires CutAt(Texts(cs) + [c.text], ss, cuts + [|ss|], overlap)
    ensures Aligned(ss + [x], SplitState(cs + [c], [PyTail(c.text, overlap), x], n), cuts + [|ss|], overlap)
  {
    TextsPush(cs, c);
    CutAtGrow(Texts(cs) + [c.text], ss, x, cuts + [|ss|], overlap);
    assert Texts(cs + [c])[|cs|] == c.text;
    assert [PyTail(c.text, overlap), x] == [PyTail(c.text, overlap)] + (ss + [x])[|ss|..|ss + [x]|];
  }

  /** A step that closes a chunk cuts the sentences before `x`, and the new buffer holds `x` behind its seed. */
  lemma AlignCut(ss: seq<string>, st: SplitState, x: string, cuts: seq<nat>, source: string, size: int, overlap: int)
    requires overlap >= 0 && Closable(Texts(st.chunks), st.current, ss, cuts, overlap)
    requires st.currLen + |x| > size && st.current != []
    ensures Aligned(ss + [x], Step(st, x, source, size, overlap), cuts + [|ss|], overlap)
  {
    var t := Strip(Join(st.current, " "));
    var c := DocumentChunk(t, ChunkMetadata(source, |st.chunks|, |t|));
    var seed := PyTail(t, overlap);
    CloseAligned(Texts(st.chunks), st.current, ss, cuts, overlap);
    CutStep(st, x, source, size, overlap, t, seed);
    AlignedAfterCut(ss, st.chunks, c, x, cuts, |seed| + |x| + 1, overlap);
  }

  lemma {:induction false} AlignedHolds(ss: seq<string>, source: string, size: int, overlap: int)
    requires overlap >= 0 && WellFormedSentences(ss)
    ensures Aligned(ss, Run(ss, source, size, overlap), RunCuts(ss, source, size, overlap), overlap)
    decreases |ss|
  {
    if ss != [] {
      var a := ss[..|ss| - 1];
      var x := ss[|ss| - 1];
      assert a + [x] == ss;
      WellFormedPrefix(a, x);
      AlignedHolds(a, source, size, overlap);
      RunInvHolds(a, source, size, overlap);
      var st := Run(a, source, size, overlap);
      if st.currLen + |x| > size && st.current != [] {
        ClosableOf(a, st, RunCuts(a, source, size, overlap), size, overlap);
        AlignCut(a, st, x, RunCuts(a, source, size, overlap), source, size, overlap);
      } else {
        AlignKeep(a, st, x, RunCuts(a, source, size, overlap), source, size, overlap);
      }
    }
  }

  /** The final flush closes the buffer, so the last cut is the end of the sentences. */
  lemma FlushAligned(ss: seq<string>, st: SplitState, cuts: seq<nat>, source: string, size: int, overlap: int)
    requires overlap >= 0 && ss != [] && WellFormedSentences(ss)
    requires RunInv(ss, st, size, overlap) && Aligned(ss, st, cuts, overlap)
    ensures |Flush(st, source)| == |st.chunks| + 1
    ensures CutAt(Texts(Flush(st, source)), ss, cuts + [|ss|], overlap)
  {
    ClosableOf(ss, st, cuts, size, overlap);
    CloseAligned(Texts(st.chunks), st.current, ss, cuts, overlap);
    var t := Strip(Join(st.current, " "));
    var c := DocumentChunk(t, ChunkMetadata(source, |st.chunks|, |t|));
    assert st.current != [];
    assert Flush(st, source) == st.chunks + [c];
    TextsPush(st.chunks, c);
  }

  /** The empty text is one empty sentence, which makes no chunk and no cut. */
  lemma EmptyTextCuts(source: string, size: int, overlap: int)
    ensures ChunkCuts([], source, size, overlap) == [0]
  {
    BlankIsOneSentence([]);
    var ss := SplitSentences([]);
    assert ss == [""] && ss[..0] == [];
    assert Run(ss, source, size, overlap) == SplitState([], [""], 1);
  }

  /**
   * `_split_text` never splits a sentence: each chunk, without its overlap seed, is
   * a run of consecutive whole sentences, joined by spaces, and the runs follow one
   * another from the first sentence to the last.
   */
  lemma ChunksAligned(text: string, source: string, size: int, overlap: int)
    requires overlap >= 0 && IsStripped(text)
    ensures var ts := Texts(Chunks(text, source, size, overlap));
      var cuts := ChunkCuts(text, source, size, overlap);
      && CutAt(ts, SplitSentences(text), cuts, overlap)
      && (text != [] ==> cuts[|ts|] == |SplitSentences(text)|)
  {
    var ss := SplitSentences(text);
    if text == [] {
      BlankTextHasNoChunks(text, source, size, overlap);
      EmptyTextCuts(source, size, overlap);
    } else {
      SplitSentencesWellFormed(text);
      RunInvHolds(ss, source, size, overlap);
      AlignedHolds(ss, source, size, overlap);
      FlushAligned(ss, Run(ss, source, size, overlap), RunCuts(ss, source, size, overlap), source, size, overlap);
    }
  }

  /** The same, as the existence of the cut positions. */
  lemma ChunksNeverSplitSentences(text: string, source: string, size: int, overlap: int)
    requires overlap >= 0 && IsStripped(text)
    ensures var ts := Texts(Chunks(text, source, size, overlap));
      var ss := SplitSentences(text);
      exists cuts: seq<nat> :: CutAt(ts, ss, cuts, overlap) && (text != [] ==> cuts[|ts|] == |ss|)
  {
    ChunksAligned(text, source, size, overlap);
    var cuts := ChunkCuts(text, source, size, overlap);
    assert CutAt(Texts(Chunks(text, source, size, overlap)), SplitSentences(text), cuts, overlap);
  }

  /** With `chunk_overlap == 0` Python's `text[-0:]` is the whole text, so each chunk repeats all of its predecessor. */
  lemma ZeroOverlapRepeats(text: string, source: string, size: int)
    requires IsStripped(text)
    ensures var cs := Chunks(text, source, size, 0);
      forall k :: 0 < k < |cs| ==> IsPrefix(cs[k - 1].text + " ", cs[k].text)
  {
    ChunksFacts(text, source, size, 0);
    var cs := Chunks(text, source, size, 0);
    var ts := Texts(cs);
    forall k | 0 < k < |cs| ensures IsPrefix(cs[k - 1].text + " ", cs[k].text) {
      assert SeededAt(ts, k, 0);
      assert IsStripped(ts[k - 1]);
      assert LStrip(ts[k - 1]) == ts[k - 1];
    }
  }
}
