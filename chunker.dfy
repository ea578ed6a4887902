/**
 * The sentence chunker of the document indexer: text is split into
 * sentences at whitespace after `.`, `!` or `?`; sentences are packed
 * greedily into chunks of bounded size, and each new chunk starts with the
 * longest run of the previous chunk's last sentences that fits the overlap
 * budget. The indexer then labels every chunk with its document, its
 * position and its length.
 */
module Ingestion {

  /**
   * The ASCII characters Python's `str.isspace` accepts, which both `\s`
   * and `str.strip` use: tab to carriage return, the four information
   * separators and space.
   */
  predicate IsSpace(c: char)
  {
    ('\t' <= c <= '\r') || ('\U{1C}' <= c <= ' ')
  }

  predicate IsTerminal(c: char)
  {
    c == '.' || c == '!' || c == '?'
  }

  /** `s` has a sentence break inside: whitespace right after terminal punctuation. */
  predicate HasBreak(s: string)
  {
    exists k :: 1 <= k < |s| && IsSpace(s[k]) && IsTerminal(s[k - 1])
  }

  /** `s` without its leading whitespace. */
  function DropSpaces(s: string): (r: string)
    ensures |r| <= |s| && r == s[|s| - |r|..]
    ensures |s| > 0 && IsSpace(s[0]) ==> |r| < |s|
    ensures |r| > 0 ==> !IsSpace(r[0])
  {
    if |s| > 0 && IsSpace(s[0]) then DropSpaces(s[1..]) else s
  }

  /** `s` without its trailing whitespace. */
  function DropTrailingSpaces(s: string): (r: string)
    ensures |r| <= |s| && r == s[..|r|]
    ensures |r| > 0 ==> !IsSpace(r[|r| - 1])
  {
    if |s| > 0 && IsSpace(s[|s| - 1]) then DropTrailingSpaces(s[..|s| - 1]) else s
  }

  /** `s.strip()` */
  function Strip(s: string): (r: string)
    ensures |r| > 0 ==> !IsSpace(r[0]) && !IsSpace(r[|r| - 1])
  {
    DropTrailingSpaces(DropSpaces(s))
  }

  /**
   * `re.split(r'(?<=[.!?])\s+', cur + t)` where `cur` is the piece read so
   * far: a maximal whitespace run right after terminal punctuation ends a
   * piece.
   */
  function RawPieces(t: string, cur: string): (pieces: seq<string>)
    ensures |pieces| >= 1
    decreases |t|
  {
    if |t| == 0 then [cur]
    else if IsSpace(t[0]) && |cur| > 0 && IsTerminal(cur[|cur| - 1]) then [cur] + RawPieces(DropSpaces(t), "")
    else RawPieces(t[1..], cur + [t[0]])
  }

  /** The stripped pieces that are not empty, in order. */
  function NonEmptyStripped(pieces: seq<string>): (r: seq<string>)
    ensures forall k :: 0 <= k < |r| ==> |r[k]| > 0 && !IsSpace(r[k][0]) && !IsSpace(r[k][|r[k]| - 1])
  {
    if |pieces| == 0 then []
    else
      var s := Strip(pieces[0]);
      if |s| > 0 then [s] + NonEmptyStripped(pieces[1..]) else NonEmptyStripped(pieces[1..])
  }

  /** `split_into_sentences`: the non-empty stripped pieces. */
  function SplitIntoSentences(text: string): (sentences: seq<string>)
    ensures forall k :: 0 <= k < |sentences| ==>
      |sentences[k]| > 0 && !IsSpace(sentences[k][0]) && !IsSpace(sentences[k][|sentences[k]| - 1])
  {
    NonEmptyStripped(RawPieces(text, ""))
  }

  lemma {:induction false} NoBreakOnePiece(t: string, cur: string)
    requires !HasBreak(cur + t)
    ensures RawPieces(t, cur) == [cur + t]
    decreases |t|
  {
    if |t| > 0 {
      if |cur| > 0 {
        assert (cur + t)[|cur|] == t[0] && (cur + t)[|cur| - 1] == cur[|cur| - 1];
      }
      assert (cur + [t[0]]) + t[1..] == cur + t;
      NoBreakOnePiece(t[1..], cur + [t[0]]);
    } else {
      assert cur + t == cur;
    }
  }

  lemma {:induction false} PiecesHaveNoBreak(t: string, cur: string)
    requires !HasBreak(cur)
    ensures forall k :: 0 <= k < |RawPieces(t, cur)| ==> !HasBreak(RawPieces(t, cur)[k])
    decreases |t|
  {
    if |t| > 0 {
      if IsSpace(t[0]) && |cur| > 0 && IsTerminal(cur[|cur| - 1]) {
        PiecesHaveNoBreak(DropSpaces(t), "");
      } else {
        var next := cur + [t[0]];
        forall k | 1 <= k < |next| && IsSpace(next[k])
          ensures !IsTerminal(next[k - 1])
        {
          if k < |cur| {
            assert next[k] == cur[k] && next[k - 1] == cur[k - 1];
          }
        }
        PiecesHaveNoBreak(t[1..], next);
      }
    }
  }

  lemma NoBreakInSlice(s: string, a: nat, b: nat)
    requires a <= b <= |s| && !HasBreak(s)
    ensures !HasBreak(s[a..b])
  {
    var r := s[a..b];
    forall k | 1 <= k < |r| && IsSpace(r[k])
      ensures !IsTerminal(r[k - 1])
    {
      assert r[k] == s[a + k] && r[k - 1] == s[a + k - 1];
    }
  }

  /** `s.strip()` is the slice `s[a..b]` between the leading and the trailing whitespace. */
  lemma StripIsSlice(s: string) returns (a: nat, b: nat)
    ensures a <= b <= |s| && Strip(s) == s[a..b]
  {
    var d := DropSpaces(s);
    a := |s| - |d|;
    b := a + |DropTrailingSpaces(d)|;
    SliceOfSuffix(s, a, b);
  }

  lemma SliceOfSuffix(s: string, a: nat, b: nat)
    requires a <= b <= |s|
    ensures s[a..][..b - a] == s[a..b]
  {
  }

  /** Stripping keeps a piece unbroken. */
  lemma {:induction false} StrippedPiecesUnbroken(pieces: seq<string>)
    requires forall j :: 0 <= j < |pieces| ==> !HasBreak(pieces[j])
    ensures forall k :: 0 <= k < |NonEmptyStripped(pieces)| ==> !HasBreak(NonEmptyStripped(pieces)[k])
  {
    if |pieces| > 0 {
      var rest := pieces[1..];
      assert forall j :: 0 <= j < |rest| ==> rest[j] == pieces[j + 1];
      StrippedPiecesUnbroken(rest);
      var a, b := StripIsSlice(pieces[0]);
      NoBreakInSlice(pieces[0], a, b);
      var s, later := Strip(pieces[0]), NonEmptyStripped(rest);
      if |s| > 0 {
        var r := [s] + later;
        assert NonEmptyStripped(pieces) == r;
        forall k | 0 <= k < |r|
          ensures !HasBreak(r[k])
        {
          if k > 0 {
            assert r[k] == later[k - 1];
          }
        }
      } else {
        assert NonEmptyStripped(pieces) == later;
      }
    }
  }

  /**
   * Every sentence is stripped, non-empty and unbroken: it holds no
   * whitespace right after terminal punctuation, so the split is maximal.
   */
  lemma SentencesAreUnbroken(text: string)
    ensures forall k :: 0 <= k < |SplitIntoSentences(text)| ==> !HasBreak(SplitIntoSentences(text)[k])
  {
    PiecesHaveNoBreak(text, "");
    StrippedPiecesUnbroken(RawPieces(text, ""));
  }

  /** A text without a break is one sentence, or none when it is blank. */
  lemma UnbrokenTextIsOneSentence(text: string)
    requires !HasBreak(text)
    ensures SplitIntoSentences(text) == if |Strip(text)| > 0 then [Strip(text)] else []
  {
    assert "" + text == text;
    NoBreakOnePiece(text, "");
    var pieces := RawPieces(text, "");
    assert pieces == [text];
    assert pieces[1..] == [];
    assert NonEmptyStripped(pieces[1..]) == [];
  }

  // ---------------------------------------------------------------------
  // Chunks
  // ---------------------------------------------------------------------

  /** The total length of the sentences. */
  function TotalLength(ss: seq<string>): nat
  {
    if |ss| == 0 then 0 else TotalLength(ss[..|ss| - 1]) + |ss[|ss| - 1]|
  }

  /** `' '.join(ss)` */
  function Join(ss: seq<string>): string
  {
    if |ss| == 0 then ""
    else if |ss| == 1 then ss[0]
    else Join(ss[..|ss| - 1]) + " " + ss[|ss| - 1]
  }

  /** A chunk is as long as its sentences plus one space between each two. */
  lemma {:induction false} JoinLength(ss: seq<string>)
    requires |ss| >= 1
    ensures |Join(ss)| == TotalLength(ss) + |ss| - 1
  {
    if |ss| == 1 {
      assert TotalLength(ss) == TotalLength(ss[..0]) + |ss[0]|;
    } else {
      JoinLength(ss[..|ss| - 1]);
    }
  }

  /** The overlap: the longest run of last sentences, taken greedily from the end, whose total length fits `budget`. */
  function GreedySuffix(ss: seq<string>, budget: int): seq<string>
  {
    if |ss| == 0 then []
    else if |ss[|ss| - 1]| <= budget then GreedySuffix(ss[..|ss| - 1], budget - |ss[|ss| - 1]|) + [ss[|ss| - 1]]
    else []
  }

  /** One step of the greedy walk over the first `j` sentences. */
  lemma GreedySuffixStep(ss: seq<string>, j: nat, budget: int)
    requires 0 < j <= |ss|
    ensures |ss[j - 1]| <= budget ==>
      GreedySuffix(ss[..j], budget) == GreedySuffix(ss[..j - 1], budget - |ss[j - 1]|) + [ss[j - 1]]
    ensures |ss[j - 1]| > budget ==> GreedySuffix(ss[..j], budget) == []
  {
    assert ss[..j][..j - 1] == ss[..j - 1] && ss[..j][j - 1] == ss[j - 1];
  }

  lemma TotalLengthSnoc(ss: seq<string>, s: string)
    ensures TotalLength(ss + [s]) == TotalLength(ss) + |s|
  {
    assert (ss + [s])[..|ss|] == ss;
  }

  /** The overlap is a run of the last sentences. */
  lemma {:induction false} GreedySuffixIsSuffix(ss: seq<string>, budget: int)
    ensures |GreedySuffix(ss, budget)| <= |ss|
    ensures GreedySuffix(ss, budget) == ss[|ss| - |GreedySuffix(ss, budget)|..]
  {
    if |ss| > 0 && |ss[|ss| - 1]| <= budget {
      var init, last := ss[..|ss| - 1], ss[|ss| - 1];
      var o := GreedySuffix(init, budget - |last|);
      assert GreedySuffix(ss, budget) == o + [last];
      GreedySuffixIsSuffix(init, budget - |last|);
      var a := |init| - |o|;
      assert o == init[a..];
      assert ss == init + [last];
      assert ss[a..] == init[a..] + [last];
    }
  }

  /** The overlap fits the budget; only a negative budget leaves it empty and over. */
  lemma {:induction false} GreedySuffixFits(ss: seq<string>, budget: int)
    ensures TotalLength(GreedySuffix(ss, budget)) <= budget || (GreedySuffix(ss, budget) == [] && budget < 0)
  {
    if |ss| > 0 && |ss[|ss| - 1]| <= budget {
      var init, last := ss[..|ss| - 1], ss[|ss| - 1];
      GreedySuffixFits(init, budget - |last|);
      TotalLengthSnoc(GreedySuffix(init, budget - |last|), last);
    }
  }

  /** The overlap cannot take the sentence before it as well. */
  lemma {:induction false} GreedySuffixMaximal(ss: seq<string>, budget: int)
    ensures |GreedySuffix(ss, budget)| < |ss| ==>
      TotalLength(GreedySuffix(ss, budget)) + |ss[|ss| - |GreedySuffix(ss, budget)| - 1]| > budget
  {
    if |ss| > 0 {
      var init, last := ss[..|ss| - 1], ss[|ss| - 1];
      if |last| <= budget {
        var o := GreedySuffix(init, budget - |last|);
        assert GreedySuffix(ss, budget) == o + [last];
        GreedySuffixMaximal(init, budget - |last|);
        TotalLengthSnoc(o, last);
        if |o| < |init| {
          assert ss[|ss| - |o| - 2] == init[|init| - |o| - 1];
        }
      } else {
        assert GreedySuffix(ss, budget) == [];
      }
    }
  }

  /** The new sentences of each chunk, in order: the first chunk whole, every later one without its overlap. */
  function Stitch(groups: seq<seq<string>>, ovs: seq<nat>): seq<string>
    requires |groups| == |ovs|
  {
    if |groups| == 0 then []
    else Stitch(groups[..|groups| - 1], ovs[..|ovs| - 1]) + NewSentences(groups[|groups| - 1], ovs[|ovs| - 1])
  }

  /** The sentences of a chunk after its first `o`. */
  function NewSentences(g: seq<string>, o: nat): seq<string>
  {
    if o <= |g| then g[o..] else []
  }

  lemma StitchSnoc(groups: seq<seq<string>>, ovs: seq<nat>, g: seq<string>, o: nat)
    requires |groups| == |ovs| && o <= |g|
    ensures Stitch(groups + [g], ovs + [o]) == Stitch(groups, ovs) + g[o..]
  {
    assert (groups + [g])[..|groups|] == groups && (ovs + [o])[..|ovs|] == ovs;
  }

  /**
   * Chunk `k` (its sentences `groups[k]`, of which the first `ovs[k]` are
   * the overlap) holds at least one new sentence; the first chunk has no
   * overlap; a later chunk's overlap is the greedy suffix of the chunk
   * before, which was closed only because this chunk's first new sentence
   * would not fit in it; and a chunk with two or more new sentences fits the
   * size.
   */
  predicate ChunkOk(groups: seq<seq<string>>, ovs: seq<nat>, k: int, chunkSize: int, overlap: int)
    requires |groups| == |ovs| && 0 <= k < |groups|
  {
    && ovs[k] < |groups[k]|
    && (k == 0 ==> ovs[k] == 0)
    && (k > 0 ==> groups[k][..ovs[k]] == GreedySuffix(groups[k - 1], overlap)
                  && TotalLength(groups[k - 1]) + |groups[k][ovs[k]]| > chunkSize)
    && (|groups[k]| - ovs[k] >= 2 ==> TotalLength(groups[k]) <= chunkSize)
  }

  predicate Chunked(groups: seq<seq<string>>, ovs: seq<nat>, chunkSize: int, overlap: int)
  {
    && |groups| == |ovs| && |groups| >= 1
    && forall k :: 0 <= k < |groups| ==> ChunkOk(groups, ovs, k, chunkSize, overlap)
  }

  lemma StartChunking(s: string, chunkSize: int, overlap: int)
    ensures Chunked([[s]], [0], chunkSize, overlap)
    ensures Stitch([[s]], [0]) == [s]
  {
    assert ChunkOk([[s]], [0], 0, chunkSize, overlap);
    StitchSnoc([], [], [s], 0);
  }

  /** Closing the current chunk and opening one with its overlap and the next sentence keeps the shape and adds that sentence. */
  lemma CloseAndOpen(groups: seq<seq<string>>, ovs: seq<nat>, s: string, chunkSize: int, overlap: int)
    requires Chunked(groups, ovs, chunkSize, overlap)
    requires TotalLength(groups[|groups| - 1]) + |s| > chunkSize
    ensures var o := GreedySuffix(groups[|groups| - 1], overlap);
      && Chunked(groups + [o + [s]], ovs + [|o|], chunkSize, overlap)
      && Stitch(groups + [o + [s]], ovs + [|o|]) == Stitch(groups, ovs) + [s]
  {
    var o := GreedySuffix(groups[|groups| - 1], overlap);
    var g := o + [s];
    var gs, os := groups + [g], ovs + [|o|];
    assert g[..|o|] == o && g[|o|] == s && NewSentences(g, |o|) == [s];
    forall k | 0 <= k < |gs|
      ensures ChunkOk(gs, os, k, chunkSize, overlap)
    {
      if k < |groups| {
        assert ChunkOk(groups, ovs, k, chunkSize, overlap);
        assert gs[k] == groups[k] && os[k] == ovs[k];
        if k > 0 {
          assert gs[k - 1] == groups[k - 1];
        }
      } else {
        assert gs[k - 1] == groups[|groups| - 1];
      }
    }
    StitchSnoc(groups, ovs, g, |o|);
  }

  /** Adding a sentence that fits to the current chunk keeps the shape and adds that sentence. */
  lemma AddToCurrent(groups: seq<seq<string>>, ovs: seq<nat>, s: string, chunkSize: int, overlap: int)
    requires Chunked(groups, ovs, chunkSize, overlap)
    requires TotalLength(groups[|groups| - 1]) + |s| <= chunkSize
    ensures var n := |groups| - 1;
      && Chunked(groups[..n] + [groups[n] + [s]], ovs, chunkSize, overlap)
      && Stitch(groups[..n] + [groups[n] + [s]], ovs) == Stitch(groups, ovs) + [s]
  {
    var n := |groups| - 1;
    var cur := groups[n];
    var g := cur + [s];
    var gs := groups[..n] + [g];
    TotalLengthSnoc(cur, s);
    assert ChunkOk(groups, ovs, n, chunkSize, overlap);
    assert g[..ovs[n]] == cur[..ovs[n]] && g[ovs[n]] == cur[ovs[n]];
    assert NewSentences(g, ovs[n]) == NewSentences(cur, ovs[n]) + [s];
    forall k | 0 <= k < |gs|
      ensures ChunkOk(gs, ovs, k, chunkSize, overlap)
    {
      assert ChunkOk(groups, ovs, k, chunkSize, overlap);
      if k < n {
        assert gs[k] == groups[k];
      }
      if 0 < k {
        assert gs[k - 1] == groups[k - 1];
      }
    }
    assert groups == groups[..n] + [cur];
    assert ovs == ovs[..n] + [ovs[n]];
    StitchSnoc(groups[..n], ovs[..n], cur, ovs[n]);
    StitchSnoc(groups[..n], ovs[..n], g, ovs[n]);
  }

  /** One `semantic_chunk` result on sentences that are at least two. */
  predicate ChunkingOf(sentences: seq<string>, chunks: seq<string>, groups: seq<seq<string>>, ovs: seq<nat>,
                       chunkSize: int, overlap: int)
  {
    && Chunked(groups, ovs, chunkSize, overlap)
    && Stitch(groups, ovs) == sentences
    && |chunks| == |groups|
    && (forall k :: 0 <= k < |chunks| ==> chunks[k] == Join(groups[k]))
  }

  /**
   * `chunks` is what `semantic_chunk` makes of `text`, with the chunk
   * groups `groups` and overlaps `ovs`: the text itself when it has at most
   * one sentence, otherwise a chunking of its sentences.
   */
  ghost predicate ChunkedAs(text: string, chunks: seq<string>, groups: seq<seq<string>>, ovs: seq<nat>,
                            chunkSize: int, overlap: int)
  {
    && (|SplitIntoSentences(text)| <= 1 ==> chunks == [text])
    && (|SplitIntoSentences(text)| >= 2 ==> ChunkingOf(SplitIntoSentences(text), chunks, groups, ovs, chunkSize, overlap))
  }

  /** `chunks` is what `semantic_chunk` makes of `text`, for some grouping. */
  ghost predicate ChunksOf(text: string, chunks: seq<string>, chunkSize: int, overlap: int)
  {
    exists groups, ovs :: ChunkedAs(text, chunks, groups, ovs, chunkSize, overlap)
  }

  /** `ok` holds of each element of `xs` and the element of `ys` at the same position. */
  ghost predicate Pairwise<A, B>(xs: seq<A>, ys: seq<B>, ok: (A, B) -> bool)
  {
    |xs| == |ys| && forall i :: 0 <= i < |xs| ==> ok(xs[i], ys[i])
  }

  lemma PairwiseSnoc<A, B>(xs: seq<A>, ys: seq<B>, x: A, y: B, ok: (A, B) -> bool)
    requires Pairwise(xs, ys, ok) && ok(x, y)
    ensures Pairwise(xs + [x], ys + [y], ok)
  {
    assert forall i :: 0 <= i < |xs| ==> (xs + [x])[i] == xs[i] && (ys + [y])[i] == ys[i];
  }

  /** The indexer's view of one source document. */
  datatype Document = Document(filename: string, fileType: string, path: string, content: string)

  datatype ChunkMetadata = ChunkMetadata(
    filename: string,
    fileType: string,
    chunkIndex: nat,
    totalChunks: nat,
    path: string,
    chunkLength: nat)

  /** The metadata of the chunks of one document. */
  function DocumentMetadata(doc: Document, chunks: seq<string>): (meta: seq<ChunkMetadata>)
    ensures |meta| == |chunks|
  {
    seq(|chunks|, i requires 0 <= i < |chunks| =>
      ChunkMetadata(doc.filename, doc.fileType, i, |chunks|, doc.path, |chunks[i]|))
  }

  /** The metadata of all documents' chunks, document after document. */
  function IndexMetadata(docs: seq<Document>, perDoc: seq<seq<string>>): (meta: seq<ChunkMetadata>)
    requires |docs| == |perDoc|
  {
    if |docs| == 0 then []
    else (IndexMetadata(docs[..|docs| - 1], perDoc[..|perDoc| - 1])
          + DocumentMetadata(docs[|docs| - 1], perDoc[|perDoc| - 1]))
  }

  function Flatten(perDoc: seq<seq<string>>): seq<string>
  {
    if |perDoc| == 0 then [] else Flatten(perDoc[..|perDoc| - 1]) + perDoc[|perDoc| - 1]
  }

  lemma IndexMetadataSnoc(docs: seq<Document>, perDoc: seq<seq<string>>, doc: Document, chunks: seq<string>)
    requires |docs| == |perDoc|
    ensures IndexMetadata(docs + [doc], perDoc + [chunks]) == IndexMetadata(docs, perDoc) + DocumentMetadata(doc, chunks)
    ensures Flatten(perDoc + [chunks]) == Flatten(perDoc) + chunks
  {
    assert (docs + [doc])[..|docs|] == docs && (perDoc + [chunks])[..|perDoc|] == perDoc;
  }

  /**
   * Every chunk has one metadata record: its index is below its document's
   * chunk count, that count is the document's, and its length is the
   * chunk's.
   */
  lemma {:induction false} IndexMetadataCorrect(docs: seq<Document>, perDoc: seq<seq<string>>)
    requires |docs| == |perDoc|
    ensures var meta, chunks := IndexMetadata(docs, perDoc), Flatten(perDoc);
      && |meta| == |chunks|
      && (forall k :: 0 <= k < |meta| ==> meta[k].chunkIndex < meta[k].totalChunks && meta[k].chunkLength == |chunks[k]|)
      && (forall k :: 0 <= k < |meta| ==>
            exists d :: (0 <= d < |docs| && meta[k].filename == docs[d].filename
              && meta[k].totalChunks == |perDoc[d]| && chunks[k] == perDoc[d][meta[k].chunkIndex]))
  {
    if |docs| > 0 {
      var n := |docs| - 1;
      IndexMetadataCorrect(docs[..n], perDoc[..n]);
      var before, chunksBefore := IndexMetadata(docs[..n], perDoc[..n]), Flatten(perDoc[..n]);
      var meta, chunks := IndexMetadata(docs, perDoc), Flatten(perDoc);
      forall k | 0 <= k < |meta|
        ensures meta[k].chunkIndex < meta[k].totalChunks && meta[k].chunkLength == |chunks[k]|
        ensures exists d :: (0 <= d < |docs| && meta[k].filename == docs[d].filename
          && meta[k].totalChunks == |perDoc[d]| && chunks[k] == perDoc[d][meta[k].chunkIndex])
      {
        if k < |before| {
          assert meta[k] == before[k] && chunks[k] == chunksBefore[k];
          var d :| 0 <= d < n && before[k].filename == docs[..n][d].filename
            && before[k].totalChunks == |perDoc[..n][d]| && chunksBefore[k] == perDoc[..n][d][before[k].chunkIndex];
          assert docs[..n][d] == docs[d] && perDoc[..n][d] == perDoc[d];
        } else {
          assert chunks[k] == perDoc[n][k - |before|];
        }
      }
    }
  }

  lemma {:induction false} TotalLengthCons(s: string, ss: seq<string>)
    ensures TotalLength([s] + ss) == |s| + TotalLength(ss)
  {
    if |ss| > 0 {
      assert ([s] + ss)[..|ss|] == [s] + ss[..|ss| - 1];
      TotalLengthCons(s, ss[..|ss| - 1]);
    } else {
      assert [s] + ss == [s];
      assert TotalLength([s]) == TotalLength([s][..0]) + |s|;
    }
  }

  class SemanticChunker {
    const chunkSize: int
    const overlap: int

    /** The sentence-embedding model it also loads is never used for chunking and is not part of this model. */
    constructor (chunkSize: int, overlap: int)
      ensures this.chunkSize == chunkSize && this.overlap == overlap
    {
      this.chunkSize := chunkSize;
      this.overlap := overlap;
    }

    /** `_get_overlap_sentences`: walks back from the last sentence while the overlap budget holds. */
    method OverlapSentences(sentences: seq<string>) returns (r: seq<string>)
      ensures r == GreedySuffix(sentences, overlap)
    {
      var overlapLength := 0;
      r := [];
      var j := |sentences|;
      assert sentences[..j] == sentences;
      while j > 0
        invariant 0 <= j <= |sentences|
        invariant overlapLength == TotalLength(r)
        invariant GreedySuffix(sentences, overlap) == GreedySuffix(sentences[..j], overlap - overlapLength) + r
      {
        var sentence := sentences[j - 1];
        GreedySuffixStep(sentences, j, overlap - overlapLength);
        if overlapLength + |sentence| <= overlap {
          TotalLengthCons(sentence, r);
          r := [sentence] + r;
          overlapLength := overlapLength + |sentence|;
          j := j - 1;
        } else {
          assert GreedySuffix(sentences[..j], overlap - overlapLength) == [];
          break;
        }
      }
      if j == 0 {
        assert GreedySuffix(sentences[..0], overlap - overlapLength) == [];
      }
    }

    /** `semantic_chunk`: one chunk for a text of at most one sentence; otherwise greedy packing with overlap. */
    method SemanticChunk(text: string) returns (chunks: seq<string>, ghost groups: seq<seq<string>>, ghost ovs: seq<nat>)
      ensures |chunks| >= 1
      ensures |SplitIntoSentences(text)| <= 1 ==> chunks == [text]
      ensures |SplitIntoSentences(text)| >= 2 ==>
        ChunkingOf(SplitIntoSentences(text), chunks, groups, ovs, chunkSize, overlap)
      ensures ChunksOf(text, chunks, chunkSize, overlap)
    {
      var sentences := SplitIntoSentences(text);
      groups, ovs := [], [];
      if |sentences| <= 1 {
        assert ChunkedAs(text, [text], groups, ovs, chunkSize, overlap);
        return [text], groups, ovs;
      }
      chunks, groups, ovs := PackSentences(sentences);
      assert ChunkedAs(text, chunks, groups, ovs, chunkSize, overlap);
    }

    /** The packing loop of `semantic_chunk`, on sentences that are at least two. */
    method PackSentences(sentences: seq<string>) returns (chunks: seq<string>, ghost groups: seq<seq<string>>, ghost ovs: seq<nat>)
      requires |sentences| >= 2
      ensures ChunkingOf(sentences, chunks, groups, ovs, chunkSize, overlap)
    {
      groups, ovs := [], [];
      chunks := [];
      var current: seq<string> := [];
      var currentLength := 0;
      var i := 0;
      while i < |sentences|
        invariant 0 <= i <= |sentences|
        invariant currentLength == TotalLength(current)
        invariant i == 0 ==> current == [] && groups == [] && chunks == []
        invariant i > 0 ==> Packing(sentences, i, chunks, groups, current, ovs, chunkSize, overlap)
      {
        var sentence := sentences[i];
        if currentLength + |sentence| > chunkSize && |current| > 0 {
          PackClose(sentences, i, chunks, groups, current, ovs, chunkSize, overlap);
          chunks := chunks + [Join(current)];
          var o := OverlapSentences(current);
          groups := groups + [current];
          ovs := ovs + [|o|];
          current := o;
          currentLength := TotalLength(current);
        } else if i == 0 {
          PackFirst(sentences, chunkSize, overlap);
          ovs := [0];
        } else {
          PackAdd(sentences, i, chunks, groups, current, ovs, chunkSize, overlap);
        }
        TotalLengthSnoc(current, sentence);
        current := current + [sentence];
        currentLength := currentLength + |sentence|;
        i := i + 1;
      }
      PackDone(sentences, chunks, groups, current, ovs, chunkSize, overlap);
      chunks := chunks + [Join(current)];
      groups := groups + [current];
    }
  }

  /**
   * The state of the packing loop after `i` sentences: the closed chunks
   * `groups` (their texts `chunks`) and the open one `current` together
   * have the chunking shape and hold exactly those sentences.
   */
  predicate Packing(sentences: seq<string>, i: int, chunks: seq<string>, groups: seq<seq<string>>,
                    current: seq<string>, ovs: seq<nat>, chunkSize: int, overlap: int)
  {
    && 0 < i <= |sentences| && |current| > 0
    && Chunked(groups + [current], ovs, chunkSize, overlap)
    && Stitch(groups + [current], ovs) == sentences[..i]
    && |chunks| == |groups|
    && (forall k :: 0 <= k < |groups| ==> chunks[k] == Join(groups[k]))
  }

  lemma PackFirst(sentences: seq<string>, chunkSize: int, overlap: int)
    requires |sentences| >= 1
    ensures Packing(sentences, 1, [], [], [sentences[0]], [0], chunkSize, overlap)
  {
    var s0 := sentences[0];
    var gs: seq<seq<string>> := [];
    var all := gs + [[s0]];
    assert all == [[s0]];
    StartChunking(s0, chunkSize, overlap);
    assert sentences[..1] == [s0];
  }

  lemma PackClose(sentences: seq<string>, i: int, chunks: seq<string>, groups: seq<seq<string>>,
                  current: seq<string>, ovs: seq<nat>, chunkSize: int, overlap: int)
    requires Packing(sentences, i, chunks, groups, current, ovs, chunkSize, overlap)
    requires i < |sentences| && TotalLength(current) + |sentences[i]| > chunkSize
    ensures var o := GreedySuffix(current, overlap);
      Packing(sentences, i + 1, chunks + [Join(current)], groups + [current], o + [sentences[i]], ovs + [|o|], chunkSize, overlap)
  {
    var all := groups + [current];
    assert all[|all| - 1] == current;
    CloseAndOpen(all, ovs, sentences[i], chunkSize, overlap);
    assert sentences[..i + 1] == sentences[..i] + [sentences[i]];
    JoinsSnoc(chunks, groups, current);
  }

  /** Closing a chunk appends its text and its sentences side by side. */
  lemma JoinsSnoc(chunks: seq<string>, groups: seq<seq<string>>, g: seq<string>)
    requires |chunks| == |groups| && forall k :: 0 <= k < |groups| ==> chunks[k] == Join(groups[k])
    ensures forall k :: 0 <= k < |groups| + 1 ==> (chunks + [Join(g)])[k] == Join((groups + [g])[k])
  {
    forall k | 0 <= k < |groups| + 1
      ensures (chunks + [Join(g)])[k] == Join((groups + [g])[k])
    {
      if k < |groups| {
        assert (chunks + [Join(g)])[k] == chunks[k] && (groups + [g])[k] == groups[k];
      }
    }
  }

  lemma PackAdd(sentences: seq<string>, i: int, chunks: seq<string>, groups: seq<seq<string>>,
                current: seq<string>, ovs: seq<nat>, chunkSize: int, overlap: int)
    requires Packing(sentences, i, chunks, groups, current, ovs, chunkSize, overlap)
    requires i < |sentences| && TotalLength(current) + |sentences[i]| <= chunkSize
    ensures Packing(sentences, i + 1, chunks, groups, current + [sentences[i]], ovs, chunkSize, overlap)
  {
    var s := sentences[i];
    var all := groups + [current];
    assert all[..|groups|] == groups && all[|groups|] == current;
    AddToCurrent(all, ovs, s, chunkSize, overlap);
    var next := groups + [current + [s]];
    assert all[..|groups|] + [all[|groups|] + [s]] == next;
    assert Chunked(next, ovs, chunkSize, overlap);
    assert sentences[..i + 1] == sentences[..i] + [s];
    assert Stitch(next, ovs) == sentences[..i + 1];
  }

  lemma PackDone(sentences: seq<string>, chunks: seq<string>, groups: seq<seq<string>>,
                 current: seq<string>, ovs: seq<nat>, chunkSize: int, overlap: int)
    requires Packing(sentences, |sentences|, chunks, groups, current, ovs, chunkSize, overlap)
    ensures ChunkingOf(sentences, chunks + [Join(current)], groups + [current], ovs, chunkSize, overlap)
  {
    assert sentences[..|sentences|] == sentences;
  }

  class DocumentIndexer {
    const chunker: SemanticChunker

    constructor (chunker: SemanticChunker)
      ensures this.chunker == chunker
    {
      this.chunker := chunker;
    }

    /** The inner loop of `create_index`: one metadata record per chunk of `doc`, numbered from 0. */
    method LabelChunks(doc: Document, chunks: seq<string>) returns (meta: seq<ChunkMetadata>)
      ensures meta == DocumentMetadata(doc, chunks)
    {
      meta := [];
      var i := 0;
      while i < |chunks|
        invariant 0 <= i <= |chunks| && |meta| == i
        invariant forall j :: 0 <= j < i ==> meta[j] == DocumentMetadata(doc, chunks)[j]
      {
        meta := meta + [ChunkMetadata(doc.filename, doc.fileType, i, |chunks|, doc.path, |chunks[i]|)];
        i := i + 1;
      }
    }

    /**
     * The chunk and metadata lists of `create_index`, document by document;
     * `perDoc` holds each document's chunks, which are what the chunker
     * makes of its content, and of which there is at least one.
     */
    method ChunkDocuments(docs: seq<Document>) returns (allChunks: seq<string>, allMetadata: seq<ChunkMetadata>, ghost perDoc: seq<seq<string>>)
      ensures |perDoc| == |docs| && allChunks == Flatten(perDoc) && allMetadata == IndexMetadata(docs, perDoc)
      ensures forall d :: 0 <= d < |docs| ==> |perDoc[d]| >= 1
      ensures forall d :: 0 <= d < |docs| ==> ChunksOf(docs[d].content, perDoc[d], chunker.chunkSize, chunker.overlap)
    {
      allChunks, allMetadata, perDoc := [], [], [];
      ghost var chunkedWell := (doc: Document, chunks: seq<string>) =>
        |chunks| >= 1 && ChunksOf(doc.content, chunks, chunker.chunkSize, chunker.overlap);
      var d := 0;
      while d < |docs|
        invariant 0 <= d <= |docs| && |perDoc| == d
        invariant allChunks == Flatten(perDoc) && allMetadata == IndexMetadata(docs[..d], perDoc)
        invariant Pairwise(docs[..d], perDoc, chunkedWell)
      {
        var doc := docs[d];
        assert docs[..d + 1] == docs[..d] + [doc];
        var chunks, groups, ovs := chunker.SemanticChunk(doc.content);
        var meta := LabelChunks(doc, chunks);
        IndexMetadataSnoc(docs[..d], perDoc, doc, chunks);
        PairwiseSnoc(docs[..d], perDoc, doc, chunks, chunkedWell);
        allChunks := allChunks + chunks;
        allMetadata := allMetadata + meta;
        perDoc := perDoc + [chunks];
        d := d + 1;
      }
      assert docs[..d] == docs;
      assert forall e :: 0 <= e < |docs| ==> chunkedWell(docs[e], perDoc[e]);
    }
  }
}
