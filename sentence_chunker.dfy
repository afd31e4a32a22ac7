/**
 * The greedy sentence packer `simple_chunk_text` of the sample-data script:
 * the text is cut into sentences at every '.', and consecutive sentences are
 * joined with single spaces while the chunk still fits the size test.
 */
module SentenceChunker {
  import opened Text

  /** A sentence or chunk as the packer produces it: not empty, no whitespace in
      front, a '.' at the end, and no line break inside. */
  predicate WellFormed(s: string) {
    |s| > 0 && !IsSpace(s[0]) && s[|s| - 1] == '.' && '\n' !in s
  }

  /** The sentences made of split pieces `ps`: each piece stripped, the empty ones
      dropped, the others given back their '.'. */
  function Sentences(ps: seq<string>): (r: seq<string>)
    ensures |r| <= |ps|
  {
    if ps == [] then []
    else
      var s := Strip(ps[|ps| - 1]);
      Sentences(ps[..|ps| - 1]) + (if s != [] then [s + "."] else [])
  }

  /** The pieces `simple_chunk_text` cuts the text into: line breaks turned into
      spaces, then split at every '.'. */
  function Pieces(text: string): (r: seq<string>)
    ensures forall k :: 0 <= k < |r| ==> '\n' !in r[k] && '.' !in r[k]
  {
    var flat := ReplaceChar(text, '\n', ' ');
    var r := Split(flat, '.');
    forall k | 0 <= k < |r| ensures '\n' !in r[k] {
      SplitChars(flat, '.', '\n');
    }
    r
  }

  /** The pieces of a string split at a character hold only characters of the string. */
  lemma {:induction false} SplitChars(s: string, sep: char, c: char)
    requires c !in s
    ensures forall k :: 0 <= k < |Split(s, sep)| ==> c !in Split(s, sep)[k]
  {
    if |s| > 0 {
      SplitChars(s[1..], sep, c);
      assert c != s[0];
    }
  }

  /** Every sentence is well formed when no piece holds a line break. */
  lemma {:induction false} SentencesWellFormed(ps: seq<string>)
    requires forall k :: 0 <= k < |ps| ==> '\n' !in ps[k]
    ensures forall k :: 0 <= k < |Sentences(ps)| ==> WellFormed(Sentences(ps)[k])
  {
    if ps != [] {
      SentencesWellFormed(ps[..|ps| - 1]);
      var p := ps[|ps| - 1];
      var s := Strip(p);
      StripSpec(p);
      if s != [] {
        assert '\n' !in s + "." by {
          StripChars(p, '\n');
        }
      }
    }
  }

  /** The size test at line 33 of the source, `len(current + sentence) <= size`;
      with `countSpace` it also counts the space that joins a sentence to a
      chunk that is not empty. */
  function Fits(current: string, sentence: string, size: int, countSpace: bool): bool {
    |current| + (if countSpace && current != [] then 1 else 0) + |sentence| <= size
  }

  /** `[current.strip()]` when the chunk under construction is not empty. */
  function Flush(current: string): (r: seq<string>)
    ensures |r| <= 1
  {
    if current != [] then [Strip(current)] else []
  }

  /** The chunks the packing loop emits from sentence `i` on, when the chunk
      under construction is `current`. */
  function Pack(ss: seq<string>, size: int, countSpace: bool, i: nat, current: string): (r: seq<string>)
    requires i <= |ss|
    ensures current != [] ==> r != []
    decreases |ss| - i
  {
    if i == |ss| then Flush(current)
    else if Fits(current, ss[i], size, countSpace) then
      Pack(ss, size, countSpace, i + 1, if current != [] then current + " " + ss[i] else ss[i])
    else Flush(current) + Pack(ss, size, countSpace, i + 1, ss[i])
  }

  /** The chunks of `simple_chunk_text(text, size)`, with the size test as written
      (`countSpace` false) or counting the joining space. */
  function Chunks(text: string, size: int, countSpace: bool): seq<string> {
    if IsBlank(text) then [] else Pack(Sentences(Pieces(text)), size, countSpace, 0, "")
  }

  /** The first loop of `simple_chunk_text`: the stripped, non-empty pieces, each
      given back its '.'. */
  method CollectSentences(text: string) returns (sentences: seq<string>)
    ensures sentences == Sentences(Pieces(text))
  {
    var pieces := Split(ReplaceChar(text, '\n', ' '), '.');
    sentences := [];
    for i := 0 to |pieces|
      invariant sentences == Sentences(pieces[..i])
    {
      assert pieces[..i + 1][..i] == pieces[..i];
      var sent := Strip(pieces[i]);
      if sent != [] {
        sentences := sentences + [sent + "."];
      }
    }
    assert pieces[..|pieces|] == pieces;
  }

  /** `simple_chunk_text`: blank text gives no chunks; otherwise the sentences are
      packed greedily, a chunk being flushed when the next sentence does not fit. */
  method SimpleChunkText(text: string, size: int) returns (chunks: seq<string>)
    ensures chunks == Chunks(text, size, false)
  {
    StripSpec(text);
    if Strip(text) == [] {
      return [];
    }
    var sentences := CollectSentences(text);
    chunks := PackSentences(sentences, size);
  }

  /** The second loop of `simple_chunk_text`: greedy packing of the sentences. */
  method PackSentences(sentences: seq<string>, size: int) returns (chunks: seq<string>)
    ensures chunks == Pack(sentences, size, false, 0, "")
  {
    chunks := [];
    var current: string := "";
    for i := 0 to |sentences|
      invariant chunks + Pack(sentences, size, false, i, current) == Pack(sentences, size, false, 0, "")
    {
      var sentence := sentences[i];
      PackStep(chunks, sentences, size, i, current);
      if |current + sentence| <= size {
        current := if current != [] then current + " " + sentence else sentence;
      } else {
        if current != [] {
          chunks := chunks + [Strip(current)];
        }
        current := sentence;
      }
    }
    if current != [] {
      chunks := chunks + [Strip(current)];
    }
  }

  /** One turn of the packing loop, seen from the chunks emitted so far: the
      sentence joins the chunk under construction when it fits, and otherwise
      that chunk is flushed and the sentence starts the next one. */
  lemma PackStep(chunks: seq<string>, ss: seq<string>, size: int, i: nat, current: string)
    requires i < |ss|
    ensures |current + ss[i]| <= size ==>
      chunks + Pack(ss, size, false, i, current)
      == chunks + Pack(ss, size, false, i + 1, if current != [] then current + " " + ss[i] else ss[i])
    ensures |current + ss[i]| > size ==>
      chunks + Pack(ss, size, false, i, current) == (chunks + Flush(current)) + Pack(ss, size, false, i + 1, ss[i])
  {
    assert |current + ss[i]| <= size <==> Fits(current, ss[i], size, false);
  }

  /** Joining two well-formed strings with a space gives a well-formed string. */
  lemma JoinWellFormed(a: string, b: string)
    requires WellFormed(a) && WellFormed(b)
    ensures WellFormed(a + " " + b)
  {
    var j := a + " " + b;
    assert j[0] == a[0] && j[|j| - 1] == b[|b| - 1];
  }

  /** `Join(" ", rest)` after the chunk under construction. */
  function JoinAfter(current: string, rest: seq<string>): string {
    if current == [] then Join(" ", rest)
    else if rest == [] then current
    else current + " " + Join(" ", rest)
  }

  /** Packing loses, duplicates and reorders nothing: joining the chunks with
      single spaces gives the sentences joined with single spaces, after the
      chunk under construction. */
  lemma {:induction false} PackJoin(ss: seq<string>, size: int, countSpace: bool, i: nat, current: string)
    requires i <= |ss|
    requires forall k :: 0 <= k < |ss| ==> WellFormed(ss[k])
    requires current == [] || WellFormed(current)
    ensures Join(" ", Pack(ss, size, countSpace, i, current)) == JoinAfter(current, ss[i..])
    decreases |ss| - i
  {
    if i < |ss| {
      var rest := ss[i + 1..];
      assert ss[i..] == [ss[i]] + rest;
      if Fits(current, ss[i], size, countSpace) {
        var next := if current != [] then current + " " + ss[i] else ss[i];
        if current != [] {
          JoinWellFormed(current, ss[i]);
        }
        PackJoin(ss, size, countSpace, i + 1, next);
        ExtendJoin(current, ss[i], rest);
      } else {
        PackJoin(ss, size, countSpace, i + 1, ss[i]);
        FlushJoin(current, Pack(ss, size, countSpace, i + 1, ss[i]), ss[i], rest);
      }
    } else if current != [] {
      StripSpec(current);
    }
  }

  /** Extending the chunk under construction by a sentence keeps the joined text. */
  lemma ExtendJoin(current: string, sentence: string, rest: seq<string>)
    requires sentence != []
    ensures JoinAfter(if current != [] then current + " " + sentence else sentence, rest)
            == JoinAfter(current, [sentence] + rest)
  {
    if rest != [] {
      JoinFront(sentence, rest);
      if current != [] {
        assert current + " " + sentence + " " + Join(" ", rest) == current + " " + (sentence + " " + Join(" ", rest));
      }
    }
  }

  /** Flushing a well-formed chunk in front of chunks that join to a text keeps
      the joined text. */
  lemma FlushJoin(current: string, tail: seq<string>, sentence: string, rest: seq<string>)
    requires current == [] || WellFormed(current)
    requires sentence != [] && tail != []
    requires Join(" ", tail) == JoinAfter(sentence, rest)
    ensures Join(" ", Flush(current) + tail) == JoinAfter(current, [sentence] + rest)
  {
    if rest != [] {
      JoinFront(sentence, rest);
    }
    if current != [] {
      StripSpec(current);
      assert Flush(current) == [current];
      JoinFront(current, tail);
    } else {
      assert Flush(current) + tail == tail;
    }
  }

  /** Joining a list with a head is the head, a space, and the joined rest. */
  lemma JoinFront(head: string, tail: seq<string>)
    requires tail != []
    ensures Join(" ", [head] + tail) == head + " " + Join(" ", tail)
  {
    assert ([head] + tail)[1..] == tail;
  }

  /** Every chunk is well formed, and a chunk is a single sentence or fits the
      size plus the slack the test leaves: one character as written, none when
      the joining space is counted. */
  lemma {:induction false} PackShape(ss: seq<string>, size: int, countSpace: bool, i: nat, current: string)
    requires i <= |ss|
    requires forall k :: 0 <= k < |ss| ==> WellFormed(ss[k])
    requires current == [] || WellFormed(current)
    requires current == [] || current in ss || |current| <= size + (if countSpace then 0 else 1)
    ensures forall c :: c in Pack(ss, size, countSpace, i, current) ==>
      WellFormed(c) && (c in ss || |c| <= size + (if countSpace then 0 else 1))
    decreases |ss| - i
  {
    if current != [] {
      StripSpec(current);
    }
    if i < |ss| {
      if Fits(current, ss[i], size, countSpace) {
        if current != [] {
          JoinWellFormed(current, ss[i]);
          PackShape(ss, size, countSpace, i + 1, current + " " + ss[i]);
        } else {
          PackShape(ss, size, countSpace, i + 1, ss[i]);
        }
      } else {
        PackShape(ss, size, countSpace, i + 1, ss[i]);
      }
    }
  }

  /** A sentence longer than the size forms a chunk on its own: it never fits
      after another sentence, and no sentence fits after it. */
  lemma {:induction false} PackLongSentence(ss: seq<string>, size: int, countSpace: bool, i: nat, current: string, k: nat)
    requires i <= k < |ss| && |ss[k]| > size
    requires forall j :: 0 <= j < |ss| ==> WellFormed(ss[j])
    requires current == [] || WellFormed(current)
    ensures ss[k] in Pack(ss, size, countSpace, i, current)
    decreases |ss| - i
  {
    if i < k {
      if Fits(current, ss[i], size, countSpace) {
        if current != [] {
          JoinWellFormed(current, ss[i]);
        }
        PackLongSentence(ss, size, countSpace, i + 1, if current != [] then current + " " + ss[i] else ss[i], k);
      } else {
        PackLongSentence(ss, size, countSpace, i + 1, ss[i], k);
      }
    } else {
      StripSpec(ss[k]);
      var after := Pack(ss, size, countSpace, k + 1, ss[k]);
      assert ss[k] == after[0] by {
        if k + 1 < |ss| {
          assert !Fits(ss[k], ss[k + 1], size, countSpace);
        }
      }
    }
  }

  /** The sentences of a text are well formed. */
  lemma TextSentencesWellFormed(text: string)
    ensures forall k :: 0 <= k < |Sentences(Pieces(text))| ==> WellFormed(Sentences(Pieces(text))[k])
  {
    SentencesWellFormed(Pieces(text));
  }

  /** What `simple_chunk_text` promises: no chunks for blank text; otherwise every
      chunk is well formed, joining the chunks with single spaces gives back the
      sentences joined with single spaces, a chunk of several sentences is at most
      one character over the size (none over when the joining space is counted),
      and a sentence longer than the size is a chunk of its own. */
  lemma ChunksSpec(text: string, size: int, countSpace: bool)
    ensures IsBlank(text) ==> Chunks(text, size, countSpace) == []
    ensures var ss := Sentences(Pieces(text));
      !IsBlank(text) ==> Join(" ", Chunks(text, size, countSpace)) == Join(" ", ss)
    ensures var ss := Sentences(Pieces(text));
      forall c :: c in Chunks(text, size, countSpace) ==>
        WellFormed(c) && (c in ss || |c| <= size + (if countSpace then 0 else 1))
    ensures var ss := Sentences(Pieces(text));
      !IsBlank(text) ==> forall k :: 0 <= k < |ss| && |ss[k]| > size ==> ss[k] in Chunks(text, size, countSpace)
  {
    var ss := Sentences(Pieces(text));
    TextSentencesWellFormed(text);
    if !IsBlank(text) {
      PackJoin(ss, size, countSpace, 0, "");
      assert ss[0..] == ss;
      PackShape(ss, size, countSpace, 0, "");
      forall k | 0 <= k < |ss| && |ss[k]| > size ensures ss[k] in Chunks(text, size, countSpace) {
        PackLongSentence(ss, size, countSpace, 0, "", k);
      }
    }
  }

  /** The size test as written lets a two-sentence chunk exceed the size by one:
      with size 4, "a." and "b." give the single chunk "a. b." of length 5, while
      counting the joining space keeps them apart. */
  lemma OverlongChunk()
    ensures Pack(["a.", "b."], 4, false, 0, "") == ["a. b."] && |"a. b."| == 5
    ensures Pack(["a.", "b."], 4, true, 0, "") == ["a.", "b."]
  {
    assert Strip("a. b.") == "a. b." by {
      StripSpec("a. b.");
    }
    assert Strip("a.") == "a." by {
      StripSpec("a.");
    }
    assert Strip("b.") == "b." by {
      StripSpec("b.");
    }
    assert Pack(["a.", "b."], 4, true, 2, "b.") == ["b."];
    assert Pack(["a.", "b."], 4, true, 1, "a.") == ["a.", "b."];
    assert "a." + " " + "b." == "a. b.";
    assert Pack(["a.", "b."], 4, false, 2, "a. b.") == ["a. b."];
    assert Pack(["a.", "b."], 4, false, 1, "a.") == ["a. b."];
  }
}
