/**
 * The character-window text chunker of the knowledge base
 * (`KnowledgeBaseService._chunk_text`).
 *
 * A window starts at `start` and nominally ends at `start + size`. When that end
 * falls before the end of the text, the window is cut just after its last `.`
 * or newline, provided that break lies past the middle of the window. The next
 * window starts `overlap` characters before the end of this one. Each window is
 * stripped of surrounding whitespace and blank ones are dropped.
 */
module Chunker {
  import opened Text

  function Min(a: int, b: int): int { if a <= b then a else b }
  function Max(a: int, b: int): int { if a >= b then a else b }

  /** The least distance from one window start to the end of that window. */
  function MinAdvance(size: nat): nat {
    Min(size, size / 2 + 2)
  }

  /**
   * The loop makes progress exactly when the overlap is below the least
   * advance; the source does not check this, so the model requires it.
   */
  predicate Progresses(size: nat, overlap: nat) {
    overlap < MinAdvance(size)
  }

  predicate IsBreak(c: char) {
    c == '.' || c == '\n'
  }

  /** `max(chunk.rfind('.'), chunk.rfind('\n'))`: the last break in `w`, or -1. */
  function LastBreak(w: string): (bp: int)
    ensures -1 <= bp < |w|
    ensures bp >= 0 ==> IsBreak(w[bp])
  {
    Max(RFind(w, '.'), RFind(w, '\n'))
  }

  /** No break follows the one `LastBreak` reports. */
  lemma LastBreakIsLast(w: string)
    ensures forall k :: LastBreak(w) < k < |w| ==> !IsBreak(w[k])
  {
    RFindLast(w, '.');
    RFindLast(w, '\n');
  }

  /** Some `.` or newline lies in the second half of the window `[start, start + size)`. */
  predicate HasLateBreak(text: string, start: nat, size: nat)
    requires start + size <= |text|
  {
    exists k :: start <= k < start + size && 2 * (k - start) > size && IsBreak(text[k])
  }

  /** Scanning back from position `j` of the window that starts at `start`: just after
      the first `.` or newline met in the window's second half, else the window's full
      size. It is never closer to `start` than the least advance. */
  function CutBack(text: string, size: nat, start: nat, j: nat): (end: nat)
    requires start <= j < start + size && j < |text|
    ensures start + MinAdvance(size) <= end <= start + size
    decreases j - start
  {
    if 2 * (j - start) <= size then start + size
    else if IsBreak(text[j]) then j + 1
    else CutBack(text, size, start, j - 1)
  }

  /** The scan stops at the window's last break when that break lies past the middle. */
  lemma {:induction false} CutBackFindsLastBreak(text: string, size: nat, start: nat, j: nat)
    requires start <= j < start + size && j < |text|
    ensures var bp := LastBreak(text[start..j + 1]);
            CutBack(text, size, start, j) == if 2 * bp > size then start + bp + 1 else start + size
    decreases j - start
  {
    var w := text[start..j + 1];
    assert w[..|w| - 1] == text[start..j];
    if !IsBreak(text[j]) && 2 * (j - start) > size {
      CutBackFindsLastBreak(text, size, start, j - 1);
    }
  }

  /** The `end` the loop settles on for the window that starts at `start`. It is never
      closer to `start` than the least advance and never further than the size. */
  function WindowEnd(text: string, size: nat, start: nat): (end: nat)
    requires start < |text|
    ensures start + MinAdvance(size) <= end <= start + size
  {
    if start + size < |text| && 0 < size then CutBack(text, size, start, start + size - 1)
    else start + size
  }

  /** Where a window is cut. */
  lemma WindowEndSnaps(text: string, size: nat, start: nat)
    requires start < |text|
    // a window reaching the end of the text is never cut
    ensures start + size >= |text| ==> WindowEnd(text, size, start) == start + size
    // nor is one without a break in its second half
    ensures start + size < |text| && !HasLateBreak(text, start, size) ==>
              WindowEnd(text, size, start) == start + size
    // otherwise it is cut just after its last break
    ensures start + size < |text| && HasLateBreak(text, start, size) ==>
              var end := WindowEnd(text, size, start);
              && IsBreak(text[end - 1])
              && 2 * (end - 1 - start) > size
              && forall k :: end <= k < start + size ==> !IsBreak(text[k])
  {
    var end := start + size;
    if end < |text| && 0 < size {
      var w := text[start..end];
      CutBackFindsLastBreak(text, size, start, end - 1);
      var bp := LastBreak(w);
      LastBreakIsLast(w);
      assert forall k :: start <= k < end ==> text[k] == w[k - start];
      if 2 * bp > size {
        assert IsBreak(text[start + bp]);
      } else {
        assert !HasLateBreak(text, start, size);
      }
    }
  }

  /** A window as the loop sees it: `end` may lie past the end of the text. */
  datatype Window = Window(start: nat, end: nat)

  /** `text[w.start:w.end]` with Python's clamping of the end. */
  function Piece(text: string, w: Window): string
    requires w.start <= w.end && w.start <= |text|
  {
    text[w.start..Min(w.end, |text|)]
  }

  /** The windows the loop visits, starting at `start`. */
  function Windows(text: string, size: nat, overlap: nat, start: nat): (ws: seq<Window>)
    requires Progresses(size, overlap)
    ensures forall k :: 0 <= k < |ws| ==> ws[k].start < |text| && ws[k].start < ws[k].end
    decreases |text| - start
  {
    if start >= |text| then []
    else
      var end := WindowEnd(text, size, start);
      [Window(start, end)] + Windows(text, size, overlap, end - overlap)
  }

  /** Each window's piece, stripped: the list the loop builds before filtering. */
  function Stripped(text: string, ws: seq<Window>): (r: seq<string>)
    requires forall k :: 0 <= k < |ws| ==> ws[k].start <= ws[k].end && ws[k].start <= |text|
    ensures |r| == |ws|
  {
    if |ws| == 0 then [] else [Strip(Piece(text, ws[0]))] + Stripped(text, ws[1..])
  }

  /** `[c for c in chunks if c]` */
  function NonEmpty(xs: seq<string>): (r: seq<string>)
  {
    if |xs| == 0 then []
    else (if xs[0] == [] then [] else [xs[0]]) + NonEmpty(xs[1..])
  }

  /** The filter keeps exactly the non-empty strings, in their order. */
  lemma {:induction false} NonEmptyKeeps(xs: seq<string>)
    ensures forall c :: c in NonEmpty(xs) ==> c != [] && c in xs
    ensures forall x :: x in xs && x != [] ==> x in NonEmpty(xs)
  {
    if |xs| > 0 {
      NonEmptyKeeps(xs[1..]);
      assert xs == [xs[0]] + xs[1..];
    }
  }

  /** What `_chunk_text(text, size, overlap)` returns. */
  function Chunks(text: string, size: nat, overlap: nat): seq<string>
    requires Progresses(size, overlap)
  {
    NonEmpty(Stripped(text, Windows(text, size, overlap, 0)))
  }

  /** The body of the loop: the window starting at `start`, snapped to a break when one
      lies past its middle, and the `end` it settles on. */
  method CutWindow(text: string, size: nat, start: nat) returns (end: nat, chunk: string)
    requires 0 < size && start < |text|
    ensures end == WindowEnd(text, size, start)
    ensures start < end && chunk == Piece(text, Window(start, end))
  {
    end := start + size;
    chunk := text[start..Min(end, |text|)];
    if end < |text| {
      var lastPeriod := RFind(chunk, '.');
      var lastNewline := RFind(chunk, '\n');
      var breakPoint := Max(lastPeriod, lastNewline);
      assert chunk == text[start..end] && breakPoint == LastBreak(chunk);
      CutBackFindsLastBreak(text, size, start, end - 1);
      if 2 * breakPoint > size {
        chunk := chunk[..breakPoint + 1];
        end := start + breakPoint + 1;
      }
    }
  }

  /** The loop of `_chunk_text`, proved to return `Chunks`: its `j`-th turn handles the
      `j`-th window. */
  method ChunkText(text: string, size: nat, overlap: nat) returns (chunks: seq<string>)
    requires Progresses(size, overlap)
    ensures chunks == Chunks(text, size, overlap)
  {
    ghost var ws := Windows(text, size, overlap, 0);
    assert (0 < |text| <==> |ws| > 0) && (|ws| > 0 ==> ws[0].start == 0) by {
      WindowsChain(text, size, overlap, 0);
    }
    var raw: seq<string> := [];
    var start: nat := 0;
    ghost var j := 0;
    while start < |text|
      invariant j <= |ws| && |raw| == j
      invariant raw == Stripped(text, ws[..j])
      invariant j < |ws| <==> start < |text|
      invariant j < |ws| ==> ws[j].start == start
      decreases |ws| - j
    {
      ChunkStep(text, size, overlap, j, start, raw);
      var end, chunk := CutWindow(text, size, start);
      raw := raw + [Strip(chunk)];
      start := end - overlap;
      j := j + 1;
    }
    assert ws[..j] == ws;
    chunks := NonEmpty(raw);
  }

  /** The `j`-th window ends where `WindowEnd` puts it; the next one starts `overlap`
      before that end, and when there is none that point lies past the text. */
  lemma WindowAt(text: string, size: nat, overlap: nat, j: nat)
    requires Progresses(size, overlap)
    requires j < |Windows(text, size, overlap, 0)|
    ensures var ws := Windows(text, size, overlap, 0);
            && ws[j].end == WindowEnd(text, size, ws[j].start)
            && (j + 1 < |ws| ==> ws[j + 1].start == ws[j].end - overlap)
            && (j + 1 == |ws| ==> ws[j].end - overlap >= |text|)
  {
    var ws := Windows(text, size, overlap, 0);
    WindowsChain(text, size, overlap, 0);
    WindowBounds(text, size, overlap, 0);
    assert ws[j] in ws;
  }

  /** One turn of the loop, on the `j`-th window: its stripped piece extends the list,
      and the next start is the next window's, or lies past the text after the last. */
  lemma ChunkStep(text: string, size: nat, overlap: nat, j: nat, start: nat, raw: seq<string>)
    requires Progresses(size, overlap)
    requires var ws := Windows(text, size, overlap, 0);
             j < |ws| && ws[j].start == start && raw == Stripped(text, ws[..j])
    ensures var ws := Windows(text, size, overlap, 0);
            var end := WindowEnd(text, size, start);
            && raw + [Strip(Piece(text, Window(start, end)))] == Stripped(text, ws[..j + 1])
            && (j + 1 < |ws| <==> end - overlap < |text|)
            && (j + 1 < |ws| ==> ws[j + 1].start == end - overlap)
  {
    var ws := Windows(text, size, overlap, 0);
    WindowAt(text, size, overlap, j);
    StrippedSnoc(text, ws, j);
    assert ws[j] == Window(start, WindowEnd(text, size, start));
  }

  /** Stripping one more window appends that window's stripped piece. */
  lemma {:induction false} StrippedSnoc(text: string, ws: seq<Window>, j: nat)
    requires forall k :: 0 <= k < |ws| ==> ws[k].start <= ws[k].end && ws[k].start <= |text|
    requires j < |ws|
    ensures Stripped(text, ws[..j + 1]) == Stripped(text, ws[..j]) + [Strip(Piece(text, ws[j]))]
  {
    if j > 0 {
      StrippedSnoc(text, ws[1..], j - 1);
      assert ws[..j + 1][1..] == ws[1..][..j];
      assert ws[..j][1..] == ws[1..][..j - 1];
    }
  }

  // ---------------------------------------------------------------------------
  // Properties of the windows

  /** Every window is a non-empty slice of at most `size` characters inside the text, and
      each window ends where `WindowEnd` puts it. */
  lemma {:induction false} WindowBounds(text: string, size: nat, overlap: nat, start: nat)
    requires Progresses(size, overlap)
    ensures forall w :: w in Windows(text, size, overlap, start) ==>
              start <= w.start < w.end && w.end - w.start <= size && w.start < |text|
              && w.end == WindowEnd(text, size, w.start)
    decreases |text| - start
  {
    if start < |text| {
      var end := WindowEnd(text, size, start);
      WindowBounds(text, size, overlap, end - overlap);
    }
  }

  /** Consecutive windows overlap by exactly `overlap` characters, and the window after
      the last would start at or past the end of the text. */
  lemma {:induction false} WindowsChain(text: string, size: nat, overlap: nat, start: nat)
    requires Progresses(size, overlap)
    ensures var ws := Windows(text, size, overlap, start);
            && (start < |text| <==> |ws| > 0)
            && (|ws| > 0 ==> ws[0].start == start && ws[|ws| - 1].end - overlap >= |text|)
            && forall k :: 0 <= k < |ws| - 1 ==> ws[k + 1].start == ws[k].end - overlap
    decreases |text| - start
  {
    if start < |text| {
      var end := WindowEnd(text, size, start);
      var rest := Windows(text, size, overlap, end - overlap);
      WindowsChain(text, size, overlap, end - overlap);
      var ws := Windows(text, size, overlap, start);
      assert ws == [Window(start, end)] + rest;
      forall k | 0 <= k < |ws| - 1 ensures ws[k + 1].start == ws[k].end - overlap {
        if k > 0 {
          assert ws[k] == rest[k - 1] && ws[k + 1] == rest[k];
        }
      }
      if |rest| > 0 {
        assert ws[|ws| - 1] == rest[|rest| - 1];
      }
    }
  }

  /** Every character from `start` on lies in some window. */
  lemma {:induction false} WindowsCover(text: string, size: nat, overlap: nat, start: nat, i: nat)
    requires Progresses(size, overlap)
    requires start <= i < |text|
    ensures exists w :: w in Windows(text, size, overlap, start) && w.start <= i < w.end
    decreases |text| - start
  {
    var end := WindowEnd(text, size, start);
    var rest := Windows(text, size, overlap, end - overlap);
    var ws := Windows(text, size, overlap, start);
    assert ws == [Window(start, end)] + rest;
    if i < end {
      assert ws[0] == Window(start, end);
    } else {
      WindowsCover(text, size, overlap, end - overlap, i);
      var w :| w in rest && w.start <= i < w.end;
      assert w in ws;
    }
  }

  lemma {:induction false} StrippedAt(text: string, ws: seq<Window>, k: nat)
    requires forall j :: 0 <= j < |ws| ==> ws[j].start <= ws[j].end && ws[j].start <= |text|
    requires k < |ws|
    ensures Stripped(text, ws)[k] == Strip(Piece(text, ws[k]))
  {
    if k > 0 {
      StrippedAt(text, ws[1..], k - 1);
    }
  }

  /** Every chunk is non-empty and is the stripped piece of one of the windows. */
  lemma ChunksAreStrippedWindows(text: string, size: nat, overlap: nat)
    requires Progresses(size, overlap)
    ensures forall c :: c in Chunks(text, size, overlap) ==>
              c != [] && exists w :: w in Windows(text, size, overlap, 0) && c == Strip(Piece(text, w))
  {
    var ws := Windows(text, size, overlap, 0);
    var raw := Stripped(text, ws);
    NonEmptyKeeps(raw);
    forall c | c in Chunks(text, size, overlap)
      ensures c != [] && exists w :: w in ws && c == Strip(Piece(text, w))
    {
      assert c in raw;
      var k :| 0 <= k < |raw| && raw[k] == c;
      StrippedAt(text, ws, k);
      assert ws[k] in ws;
    }
  }

  /** A whitespace-only text, the empty text included, gives no chunks. */
  lemma BlankTextHasNoChunks(text: string, size: nat, overlap: nat)
    requires Progresses(size, overlap)
    requires AllSpace(text)
    ensures Chunks(text, size, overlap) == []
  {
    var ws := Windows(text, size, overlap, 0);
    var raw := Stripped(text, ws);
    forall k | 0 <= k < |ws| ensures raw[k] == [] {
      StrippedAt(text, ws, k);
      var p := Piece(text, ws[k]);
      assert forall j :: 0 <= j < |p| ==> p[j] == text[ws[k].start + j];
      StripEmpty(p);
    }
    NonEmptyOfBlanks(raw);
  }

  lemma {:induction false} NonEmptyOfBlanks(xs: seq<string>)
    requires forall k :: 0 <= k < |xs| ==> xs[k] == []
    ensures NonEmpty(xs) == []
  {
    if |xs| > 0 {
      NonEmptyOfBlanks(xs[1..]);
    }
  }

  lemma ShortTextOneWindow(text: string, size: nat, overlap: nat)
    requires Progresses(size, overlap)
    requires 0 < |text| <= size - overlap
    ensures Windows(text, size, overlap, 0) == [Window(0, size)]
  {
    assert WindowEnd(text, size, 0) == size;
    assert Windows(text, size, overlap, size - overlap) == [];
  }

  /** A text no longer than `size - overlap` is a single window, hence at most one chunk. */
  lemma ShortTextOneChunk(text: string, size: nat, overlap: nat)
    requires Progresses(size, overlap)
    requires 0 < |text| <= size - overlap
    ensures Windows(text, size, overlap, 0) == [Window(0, size)]
    ensures Chunks(text, size, overlap) == if AllSpace(text) then [] else [Strip(text)]
  {
    ShortTextOneWindow(text, size, overlap);
    assert Piece(text, Window(0, size)) == text;
    var raw := Stripped(text, [Window(0, size)]);
    assert raw == [Strip(text)] + Stripped(text, []);
    StripEmpty(text);
    assert NonEmpty(raw) == (if Strip(text) == [] then [] else [Strip(text)]) + NonEmpty(raw[1..]);
  }

  /** A text a little longer than `size - overlap` but no longer than `size`: the first
      window is the whole text and the second is its tail from `size - overlap`. */
  lemma LongerTextTail(text: string, size: nat, overlap: nat)
    requires Progresses(size, overlap)
    requires size - overlap < |text| <= size
    ensures var ws := Windows(text, size, overlap, 0);
            && |ws| >= 2 && ws[0] == Window(0, size) && ws[1].start == size - overlap
            && Stripped(text, ws)[..2] == [Strip(text), Strip(text[size - overlap..])]
    // when that tail is not blank, the returned chunks begin with the text and the tail
    ensures !AllSpace(text[size - overlap..]) ==>
              var cs := Chunks(text, size, overlap);
              |cs| >= 2 && cs[..2] == [Strip(text), Strip(text[size - overlap..])]
  {
    var ws := Windows(text, size, overlap, 0);
    assert ws[0] == Window(0, size);
    var ws1 := Windows(text, size, overlap, size - overlap);
    assert ws[1..] == ws1 && ws1[0].start == size - overlap;
    assert Piece(text, ws[0]) == text;
    assert Piece(text, ws1[0]) == text[size - overlap..];
    StrippedAt(text, ws, 0);
    StrippedAt(text, ws, 1);
    var tail := text[size - overlap..];
    if !AllSpace(tail) {
      var k :| 0 <= k < |tail| && !IsSpace(tail[k]);
      assert !IsSpace(text[size - overlap + k]);
      StripEmpty(text);
      StripEmpty(tail);
      var raw := Stripped(text, ws);
      assert NonEmpty(raw) == [raw[0]] + NonEmpty(raw[1..]);
      assert NonEmpty(raw[1..]) == [raw[1]] + NonEmpty(raw[2..]);
    }
  }

  /** With size 10 and overlap 7 the first window of `abcdef.xyzabcdefghij` is cut just
      after its `.`, at 7, so the next window starts at 0 again: the loop of the source
      comes back to the state it started from and never ends. */
  lemma StallingWindow()
    ensures var text := "abcdef.xyzabcdefghij";
            && !Progresses(10, 7)
            && WindowEnd(text, 10, 0) == 7
            && WindowEnd(text, 10, 0) - 7 == 0
  {
    var text := "abcdef.xyzabcdefghij";
    assert text[9] == 'z' && text[8] == 'y' && text[7] == 'x' && text[6] == '.';
    assert CutBack(text, 10, 0, 6) == 7;
    assert CutBack(text, 10, 0, 9) == CutBack(text, 10, 0, 8) == CutBack(text, 10, 0, 7) == 7;
  }
}
