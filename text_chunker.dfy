/**
 * Chunking of extracted document text (`chunk_text` and its fixed-window
 * fallback). The character splitter itself is a foreign collaborator: the
 * model receives what it did with the text as a `SplitOutcome`.
 */
module TextChunker {
  import opened Text

  /** One chunk with its position in the original text. */
  datatype TextChunk = TextChunk(content: string, chunkIndex: int, startChar: int, endChar: int)

  /** What the character splitter did: its constructor rejected the settings
      (raised outside the `try`), `split_text` raised, or it returned pieces. */
  datatype SplitOutcome = ConstructorRaised | SplitRaised | Pieces(pieces: seq<string>)

  /** The exceptions that leave `chunk_text`. */
  datatype ChunkError =
    | SplitterRejected   // raised by the splitter's constructor
    | ZeroStep           // `range(0, len(text), 0)` in the fallback

  /** `x or default` for an optional integer argument: `None` and `0` both take the default. */
  function OrDefault(x: Option<int>, default: int): (r: int)
    ensures x.Some? && x.value != 0 ==> r == x.value
    ensures x.None? || x.value == 0 ==> r == default
  {
    if x.Some? && x.value != 0 then x.value else default
  }

  /** `max(0, end - overlap)`: where the search for the next piece starts. */
  function NextCursor(end: int, overlap: int): nat {
    if end - overlap > 0 then end - overlap else 0
  }

  /** Where piece `p` is placed when searched for from `cursor`: the first
      occurrence at or after the cursor, or the cursor itself when there is none. */
  function PlaceAt(text: string, p: string, cursor: nat): (start: nat)
    ensures start >= cursor
  {
    var found := Find(text, p, cursor);
    if found == -1 then cursor else found
  }

  /** The placement is the first occurrence at or after the cursor, or the
      cursor when the piece does not occur from there on. */
  lemma PlaceAtSpec(text: string, p: string, cursor: nat)
    ensures var start := PlaceAt(text, p, cursor);
      OccursAt(text, p, start) || (start == cursor && forall j :: cursor <= j ==> !OccursAt(text, p, j))
    ensures var start := PlaceAt(text, p, cursor);
      OccursAt(text, p, start) ==> forall j :: cursor <= j < start ==> !OccursAt(text, p, j)
  {
    FindFirst(text, p, cursor);
  }

  /** The search cursor before chunk `k` of `cs`: 0 for the first, then the
      previous chunk's end minus the overlap, never below zero. */
  function CursorBefore(cs: seq<TextChunk>, overlap: int, k: nat): nat
    requires k <= |cs|
  {
    if k == 0 then 0 else NextCursor(cs[k - 1].endChar, overlap)
  }

  /** Chunk `c` is what `chunk_text`'s loop makes of piece number `j` searched
      for from `cursor`: the stripped piece, spanning the raw piece's length from
      where it was placed. */
  predicate PlacedFrom(text: string, piece: string, j: int, cursor: nat, c: TextChunk) {
    var start := PlaceAt(text, piece, cursor);
    c == TextChunk(Strip(piece), j, start, start + |piece|)
  }

  /** `cs` is what the loop makes of the first `|cs|` pieces. */
  predicate LocatedPrefix(text: string, pieces: seq<string>, overlap: int, cs: seq<TextChunk>) {
    |cs| <= |pieces|
    && forall j {:trigger CursorBefore(cs, overlap, j)} :: 0 <= j < |cs| ==> PlacedFrom(text, pieces[j], j, CursorBefore(cs, overlap, j), cs[j])
  }

  /** `cs` is what the loop makes of all the pieces. */
  predicate Located(text: string, pieces: seq<string>, overlap: int, cs: seq<TextChunk>) {
    |cs| == |pieces| && LocatedPrefix(text, pieces, overlap, cs)
  }

  /** Two lists that both follow the loop agree up to their shorter length:
      `Located` pins the loop's result down exactly. */
  lemma {:induction false} LocatedAgree(text: string, pieces: seq<string>, overlap: int, a: seq<TextChunk>, b: seq<TextChunk>, j: nat)
    requires LocatedPrefix(text, pieces, overlap, a) && LocatedPrefix(text, pieces, overlap, b)
    requires j < |a| && j < |b|
    ensures forall k :: 0 <= k <= j ==> a[k] == b[k]
  {
    if j > 0 {
      LocatedAgree(text, pieces, overlap, a, b, j - 1);
      assert a[j - 1] == b[j - 1];
    }
    assert PlacedFrom(text, pieces[j], j, CursorBefore(a, overlap, j), a[j]);
    assert PlacedFrom(text, pieces[j], j, CursorBefore(b, overlap, j), b[j]);
  }

  /** There is only one list that follows the loop over all the pieces. */
  lemma LocatedUnique(text: string, pieces: seq<string>, overlap: int, a: seq<TextChunk>, b: seq<TextChunk>)
    requires Located(text, pieces, overlap, a) && Located(text, pieces, overlap, b)
    ensures a == b
  {
    if |a| > 0 {
      LocatedAgree(text, pieces, overlap, a, b, |a| - 1);
    }
  }

  /** Every chunk of `chunk_text`'s loop either covers the first occurrence of its
      raw piece at or after the search cursor, or sits at the cursor when the piece
      does not occur from there on; the cursor never falls below the previous end
      minus the overlap, and the index is the piece's position. */
  lemma LocatePositions(text: string, pieces: seq<string>, overlap: int, cs: seq<TextChunk>, j: nat)
    requires Located(text, pieces, overlap, cs)
    requires j < |cs|
    ensures var cursor := CursorBefore(cs, overlap, j);
      cs[j].chunkIndex == j && cs[j].content == Strip(pieces[j])
      && cs[j].startChar >= cursor && cs[j].endChar == cs[j].startChar + |pieces[j]|
      && (j > 0 ==> cursor >= cs[j - 1].endChar - overlap)
      && (OccursAt(text, pieces[j], cs[j].startChar)
          || (cs[j].startChar == cursor && forall k :: cursor <= k ==> !OccursAt(text, pieces[j], k)))
      && (OccursAt(text, pieces[j], cs[j].startChar) ==> forall k :: cursor <= k < cs[j].startChar ==> !OccursAt(text, pieces[j], k))
  {
    var cursor := CursorBefore(cs, overlap, j);
    assert PlacedFrom(text, pieces[j], j, cursor, cs[j]);
    PlaceAtSpec(text, pieces[j], cursor);
  }

  /** `c.content.strip()` is truthy. */
  predicate Kept(c: TextChunk) {
    Strip(c.content) != []
  }

  /** Chunk indices strictly increase along the list. */
  predicate Increasing(cs: seq<TextChunk>) {
    forall i, j :: 0 <= i < j < |cs| ==> cs[i].chunkIndex < cs[j].chunkIndex
  }

  /** `[chunk for chunk in chunks if chunk.content.strip()]`. */
  function KeepNonBlank(chunks: seq<TextChunk>): (r: seq<TextChunk>)
    ensures |r| <= |chunks|
    ensures forall c :: c in r <==> c in chunks && Kept(c)
    ensures Increasing(chunks) ==> Increasing(r)
  {
    if chunks == [] then []
    else
      var rest := KeepNonBlank(chunks[1..]);
      assert forall c :: c in chunks <==> c == chunks[0] || c in chunks[1..];
      if Kept(chunks[0]) then
        assert Increasing(chunks) ==> Increasing([chunks[0]] + rest) by {
          if Increasing(chunks) {
            KeepBehindHead(chunks, rest);
          }
        }
        [chunks[0]] + rest
      else rest
  }

  /** The head of an increasing list may stay in front of any increasing
      selection of the rest. */
  lemma KeepBehindHead(chunks: seq<TextChunk>, rest: seq<TextChunk>)
    requires chunks != [] && Increasing(chunks) && Increasing(rest)
    requires forall c :: c in rest ==> c in chunks[1..]
    ensures Increasing([chunks[0]] + rest)
  {
    var s := [chunks[0]] + rest;
    forall a, b | 0 <= a < b < |s| ensures s[a].chunkIndex < s[b].chunkIndex {
      assert s[b] == rest[b - 1] && s[b] in rest;
      var j :| 0 <= j < |chunks[1..]| && chunks[1..][j] == s[b];
      assert chunks[j + 1] == s[b];
      if a > 0 {
        assert s[a] == rest[a - 1];
      }
    }
  }

  /** The loop of `chunk_text` over the splitter's pieces. */
  method LocateChunks(text: string, pieces: seq<string>, overlap: int) returns (result: seq<TextChunk>)
    ensures Located(text, pieces, overlap, result)
  {
    result := [];
    var cursor: nat := 0;
    for i := 0 to |pieces|
      invariant |result| == i
      invariant LocatedPrefix(text, pieces, overlap, result)
      invariant cursor == CursorBefore(result, overlap, i)
    {
      var start := Find(text, pieces[i], cursor);
      if start == -1 {
        start := cursor;
      }
      var c := TextChunk(Strip(pieces[i]), i, start, start + |pieces[i]|);
      LocatedSnoc(text, pieces, overlap, result, c);
      result := result + [c];
      cursor := NextCursor(start + |pieces[i]|, overlap);
    }
  }

  /** One turn of the loop in `LocateChunks`: appending the chunk for the next
      piece keeps the list following the loop. */
  lemma LocatedSnoc(text: string, pieces: seq<string>, overlap: int, cs: seq<TextChunk>, c: TextChunk)
    requires LocatedPrefix(text, pieces, overlap, cs) && |cs| < |pieces|
    requires PlacedFrom(text, pieces[|cs|], |cs|, CursorBefore(cs, overlap, |cs|), c)
    ensures LocatedPrefix(text, pieces, overlap, cs + [c])
  {
    var next := cs + [c];
    forall j | 0 <= j < |next|
      ensures PlacedFrom(text, pieces[j], j, CursorBefore(next, overlap, j), next[j])
    {
      assert CursorBefore(next, overlap, j) == CursorBefore(cs, overlap, j);
      if j < |cs| {
        assert next[j] == cs[j];
        assert PlacedFrom(text, pieces[j], j, CursorBefore(cs, overlap, j), cs[j]);
      } else {
        assert next[j] == c;
      }
    }
  }

  /** The window `text[i:i + size]`. */
  function Window(text: string, size: nat, i: nat): (w: string)
    requires i <= |text|
    ensures |w| <= size && i + |w| <= |text|
    ensures w == text[i..i + |w|]
  {
    if i + size <= |text| then text[i..i + size] else text[i..]
  }

  /** `s` is one of 0, `size`, `2 * size`, …: a start the fallback's `range` visits. */
  predicate OnGrid(s: int, size: nat)
    decreases s
  {
    s == 0 || (size > 0 && s >= size && OnGrid(s - size, size))
  }

  /** Consecutive grid points are `size` apart: none lies strictly between `i` and `i + size`. */
  lemma {:induction false} GridGap(s: nat, i: nat, size: nat)
    requires size > 0 && OnGrid(s, size) && OnGrid(i, size)
    requires i <= s < i + size
    ensures s == i
    decreases s
  {
    if s != 0 && i != 0 {
      GridGap(s - size, i - size, size);
    }
  }

  /** The chunk the fallback makes of the window at `s`, numbered `k`. */
  function WindowChunk(text: string, size: nat, s: nat, k: int): TextChunk
    requires s <= |text|
  {
    var w := Window(text, size, s);
    TextChunk(Strip(w), k, s, s + |w|)
  }

  /** After visiting every grid start below `bound`, the fallback holds chunks `cs`
      made of the windows at `starts`: increasing grid starts inside the text, each
      chunk numbered by its position and holding its stripped window, which is not
      empty; and every grid window below `bound` that is not blank has its start
      among `starts`. */
  predicate WindowsUpTo(text: string, size: nat, bound: int, starts: seq<nat>, cs: seq<TextChunk>) {
    |starts| == |cs|
    && (forall k :: 0 <= k < |starts| ==>
          starts[k] < bound && starts[k] < |text| && OnGrid(starts[k], size)
          && cs[k] == WindowChunk(text, size, starts[k], k) && cs[k].content != [])
    && (forall k, l :: 0 <= k < l < |starts| ==> starts[k] < starts[l])
    && (forall s {:trigger Window(text, size, s)} :: 0 <= s < bound && s < |text| && OnGrid(s, size) && !IsBlank(Window(text, size, s)) ==> s in starts)
  }

  /** What `_simple_chunk_fallback(text, size)` returns or raises: `range` with a
      zero step raises, a negative step visits nothing, and otherwise the result
      is the chunks of the non-blank windows of the whole text. */
  ghost predicate FallbackResult(text: string, size: int, r: Result<seq<TextChunk>, ChunkError>) {
    if size == 0 then r == Err(ZeroStep)
    else if size < 0 then r == Ok([])
    else r.Ok? && exists starts :: WindowsUpTo(text, size, |text|, starts, r.value)
  }

  /** A turn of the fallback loop over a blank window at grid start `i` keeps nothing. */
  lemma WindowsSkip(text: string, size: nat, i: nat, starts: seq<nat>, cs: seq<TextChunk>)
    requires size > 0 && OnGrid(i, size) && i < |text|
    requires WindowsUpTo(text, size, i, starts, cs)
    requires IsBlank(Window(text, size, i))
    ensures WindowsUpTo(text, size, i + size, starts, cs)
  {
    forall s | i <= s < i + size && OnGrid(s, size) ensures s == i {
      GridGap(s, i, size);
    }
  }

  /** A turn of the fallback loop over a window at grid start `i` that is not
      blank appends its chunk, numbered by how many were kept before. */
  lemma WindowsKeep(text: string, size: nat, i: nat, starts: seq<nat>, cs: seq<TextChunk>)
    requires size > 0 && OnGrid(i, size) && i < |text|
    requires WindowsUpTo(text, size, i, starts, cs)
    requires !IsBlank(Window(text, size, i))
    ensures WindowsUpTo(text, size, i + size, starts + [i], cs + [WindowChunk(text, size, i, |cs|)])
  {
    KeptChunks(text, size, i, starts, cs);
    KeptOrdered(i, starts);
    KeptCovered(text, size, i, starts);
  }

  /** The chunks after keeping the window at `i` are still the numbered,
      non-empty chunks of their grid starts. */
  lemma KeptChunks(text: string, size: nat, i: nat, starts: seq<nat>, cs: seq<TextChunk>)
    requires OnGrid(i, size) && i < |text| && !IsBlank(Window(text, size, i))
    requires |starts| == |cs|
    requires forall k :: 0 <= k < |starts| ==>
      starts[k] < i && starts[k] < |text| && OnGrid(starts[k], size)
      && cs[k] == WindowChunk(text, size, starts[k], k) && cs[k].content != []
    ensures var starts', cs' := starts + [i], cs + [WindowChunk(text, size, i, |cs|)];
      forall k :: 0 <= k < |starts'| ==>
        starts'[k] < i + size && starts'[k] < |text| && OnGrid(starts'[k], size)
        && cs'[k] == WindowChunk(text, size, starts'[k], k) && cs'[k].content != []
  {
    StripSpec(Window(text, size, i));
    var starts', cs' := starts + [i], cs + [WindowChunk(text, size, i, |cs|)];
    forall k | 0 <= k < |starts'|
      ensures starts'[k] < i + size && starts'[k] < |text| && OnGrid(starts'[k], size)
              && cs'[k] == WindowChunk(text, size, starts'[k], k) && cs'[k].content != []
    {
      if k < |starts| {
        assert starts'[k] == starts[k] && cs'[k] == cs[k];
      }
    }
  }

  /** Appending a start above all earlier ones keeps the starts increasing. */
  lemma KeptOrdered(i: nat, starts: seq<nat>)
    requires forall k :: 0 <= k < |starts| ==> starts[k] < i
    requires forall k, l :: 0 <= k < l < |starts| ==> starts[k] < starts[l]
    ensures forall k, l :: 0 <= k < l < |starts + [i]| ==> (starts + [i])[k] < (starts + [i])[l]
  {
    var starts' := starts + [i];
    forall k, l | 0 <= k < l < |starts'| ensures starts'[k] < starts'[l] {
      assert starts'[k] == starts[k];
    }
  }

  /** Every non-blank grid window below the next grid start is among the starts
      once `i` is appended. */
  lemma KeptCovered(text: string, size: nat, i: nat, starts: seq<nat>)
    requires size > 0 && OnGrid(i, size)
    requires forall s {:trigger Window(text, size, s)} :: 0 <= s < i && s < |text| && OnGrid(s, size) && !IsBlank(Window(text, size, s)) ==> s in starts
    ensures forall s {:trigger Window(text, size, s)} :: 0 <= s < i + size && s < |text| && OnGrid(s, size) && !IsBlank(Window(text, size, s)) ==> s in starts + [i]
  {
    forall s | 0 <= s < i + size && s < |text| && OnGrid(s, size) && !IsBlank(Window(text, size, s))
      ensures s in starts + [i]
    {
      if s >= i {
        GridGap(s, i, size);
      }
    }
  }

  /** The fallback loop: `range(0, len(text), chunk_size)` raises for a zero step,
      is empty for a negative one, and otherwise visits the window starts in order,
      numbering the kept chunks by how many were kept before. */
  method SimpleChunkFallback(text: string, size: int) returns (r: Result<seq<TextChunk>, ChunkError>)
    ensures FallbackResult(text, size, r)
  {
    if size == 0 {
      return Err(ZeroStep);
    }
    var chunks: seq<TextChunk> := [];
    if size > 0 {
      ghost var starts: seq<nat> := [];
      var i: nat := 0;
      while i < |text|
        invariant OnGrid(i, size)
        invariant WindowsUpTo(text, size, i, starts, chunks)
        decreases |text| - i
      {
        var piece := Window(text, size, i);
        var stripped := Strip(piece);
        StripSpec(piece);
        if stripped != [] {
          WindowsKeep(text, size, i, starts, chunks);
          chunks := chunks + [TextChunk(stripped, |chunks|, i, i + |piece|)];
          starts := starts + [i];
        } else {
          WindowsSkip(text, size, i, starts, chunks);
        }
        i := i + size;
      }
      assert WindowsUpTo(text, size, |text|, starts, chunks);
    }
    r := Ok(chunks);
  }

  /** `chunk_text`: blank text gives no chunks before the splitter is built; a
      splitter that cannot be built raises; a failing split falls back to fixed
      windows; otherwise the pieces are located in the text and kept when their
      stripped content is not empty. */
  method ChunkText(text: string, chunkSize: Option<int>, chunkOverlap: Option<int>,
                   defaultSize: int, defaultOverlap: int, split: SplitOutcome)
    returns (r: Result<seq<TextChunk>, ChunkError>)
    ensures IsBlank(text) ==> r == Ok([])
    ensures !IsBlank(text) && split.ConstructorRaised? ==> r == Err(SplitterRejected)
    ensures !IsBlank(text) && split.SplitRaised? ==> FallbackResult(text, OrDefault(chunkSize, defaultSize), r)
    ensures !IsBlank(text) && split.Pieces? ==>
      r.Ok? && exists located :: Located(text, split.pieces, OrDefault(chunkOverlap, defaultOverlap), located)
                                 && r.value == KeepNonBlank(located)
  {
    StripSpec(text);
    var size := OrDefault(chunkSize, defaultSize);
    var overlap := OrDefault(chunkOverlap, defaultOverlap);
    if Strip(text) == [] {
      return Ok([]);
    }
    match split {
      case ConstructorRaised =>
        r := Err(SplitterRejected);
      case SplitRaised =>
        r := SimpleChunkFallback(text, size);
      case Pieces(pieces) =>
        var located := LocateChunks(text, pieces, overlap);
        r := Ok(KeepNonBlank(located));
    }
  }

  /** The chunks of a successful split keep strictly increasing, distinct indices,
      each the position of its piece in the splitter output, and each content is
      a stripped piece that is not empty. */
  lemma ChunkIndicesIncrease(text: string, pieces: seq<string>, overlap: int, located: seq<TextChunk>)
    requires Located(text, pieces, overlap, located)
    ensures var r := KeepNonBlank(located);
      Increasing(r)
      && forall c :: c in r ==> 0 <= c.chunkIndex < |pieces| && c.content == Strip(pieces[c.chunkIndex]) && c.content != []
  {
    forall k | 0 <= k < |located| ensures located[k].chunkIndex == k && located[k].content == Strip(pieces[k]) {
      assert PlacedFrom(text, pieces[k], k, CursorBefore(located, overlap, k), located[k]);
    }
    assert Increasing(located);
    forall c | c in KeepNonBlank(located)
      ensures 0 <= c.chunkIndex < |pieces| && c.content == Strip(pieces[c.chunkIndex]) && c.content != []
    {
      var k :| 0 <= k < |located| && located[k] == c;
    }
  }
}
