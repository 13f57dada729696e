/**
 * The splitter for eastbound PACOTS messages: it collects the "TRACK <n>"
 * headers from offset 5 on, stopping at the first header not followed by a
 * digit, and cuts the text into one piece per collected header, each piece
 * running from its header to the next one (the last one to the end of the
 * text).
 *
 * The string parser that locates the track number after a header (skipping
 * delimiter words, then moving to the next digit) is not modelled; its final
 * cursor position is the `digitCursor` function the splitter is built with.
 */
module EastboundSplitter {
  import opened SeqUtil

  const Header: string := "TRACK"

  /** `text` holds the header at position p, compared one character at a time. */
  predicate OccursAt(text: string, p: nat)
  {
    && p + |Header| <= |text|
    && text[p] == 'T' && text[p + 1] == 'R' && text[p + 2] == 'A' && text[p + 3] == 'C' && text[p + 4] == 'K'
  }

  /** The character test is the ordinal comparison of the five characters at p with the header. */
  lemma OccursAtIsSliceMatch(text: string, p: nat)
    ensures OccursAt(text, p) <==> p + |Header| <= |text| && text[p..p + |Header|] == Header
  {
    if p + |Header| <= |text| {
      var w := text[p..p + |Header|];
      assert w[0] == text[p] && w[1] == text[p + 1] && w[2] == text[p + 2];
      assert w[3] == text[p + 3] && w[4] == text[p + 4];
    }
  }

  /** The parser's cursor rests on a decimal digit. */
  predicate IsDigitAt(text: string, c: nat)
  {
    c < |text| && '0' <= text[c] <= '9'
  }

  /**
   * The parser's search for the header: the first occurrence at or after
   * `from`, or -1 when there is none.
   */
  function NextIndexOf(text: string, from: nat): (r: int)
    ensures r == -1 || (from <= r && OccursAt(text, r))
    decreases |text| - from
  {
    if from + |Header| > |text| then -1
    else if OccursAt(text, from) then from
    else NextIndexOf(text, from + 1)
  }

  /** The search finds the first occurrence: there is none between `from` and its result. */
  lemma {:induction false} NextIndexOfIsFirst(text: string, from: nat, p: nat)
    requires from <= p && OccursAt(text, p)
    ensures var r := NextIndexOf(text, from);
            r != -1 && r <= p
    decreases |text| - from
  {
    if from + |Header| <= |text| && !OccursAt(text, from) {
      if from < p {
        NextIndexOfIsFirst(text, from + 1, p);
      }
    }
  }

  /**
   * The start of the next track header at or after `index`: the first
   * occurrence of the header, provided the parser then lands on a digit;
   * -1 otherwise, even when a later header would have a digit.
   */
  function IndexNextTrack(text: string, digitCursor: nat -> nat, index: nat): (r: int)
    ensures r == -1 || (index <= r && OccursAt(text, r) && IsDigitAt(text, digitCursor(r)))
    ensures r == -1 <==> NextIndexOf(text, index) == -1 || !IsDigitAt(text, digitCursor(NextIndexOf(text, index)))
    ensures r != -1 ==> r == NextIndexOf(text, index)
  {
    var found := NextIndexOf(text, index);
    if found == -1 then -1
    else
      var c := digitCursor(found);
      if c >= |text| || text[c] < '0' || text[c] > '9' then -1
      else found
  }

  /** The header occurrences the search loop collects, starting its search at `from`. */
  function TrackIndices(text: string, digitCursor: nat -> nat, from: nat): (r: seq<nat>)
    requires from <= |text| + |Header|
    ensures forall k :: 0 <= k < |r| ==> from <= r[k] && OccursAt(text, r[k]) && IsDigitAt(text, digitCursor(r[k]))
    decreases |text| + |Header| - from
  {
    var index := IndexNextTrack(text, digitCursor, from);
    if index < 0 then [] else [index] + TrackIndices(text, digitCursor, index + |Header|)
  }

  /** Offsets in increasing order, each at least one header length past the one before. */
  predicate Spaced(r: seq<nat>)
  {
    forall i, j :: 0 <= i < j < |r| ==> r[i] + |Header| <= r[j]
  }

  /** Putting an offset in front of spaced offsets that all lie one header length past it keeps them spaced. */
  lemma SpacedCons(h: nat, rest: seq<nat>)
    requires Spaced(rest)
    requires forall k :: 0 <= k < |rest| ==> h + |Header| <= rest[k]
    ensures Spaced([h] + rest)
  {
    var r := [h] + rest;
    forall i, j | 0 <= i < j < |r|
      ensures r[i] + |Header| <= r[j]
    {
      assert r[j] == rest[j - 1];
      if i > 0 {
        assert r[i] == rest[i - 1];
      }
    }
  }

  /** The indices are in text order and never overlap. */
  lemma {:induction false} TrackIndicesIncreasing(text: string, digitCursor: nat -> nat, from: nat)
    requires from <= |text| + |Header|
    ensures Spaced(TrackIndices(text, digitCursor, from))
    decreases |text| + |Header| - from
  {
    var index := IndexNextTrack(text, digitCursor, from);
    if index >= 0 {
      TrackIndicesIncreasing(text, digitCursor, index + |Header|);
      SpacedCons(index, TrackIndices(text, digitCursor, index + |Header|));
    }
  }

  /** Two header occurrences never overlap: no proper suffix of "TRACK" is a prefix of it. */
  lemma HeadersDoNotOverlap(text: string, p: nat, q: nat)
    requires OccursAt(text, p) && OccursAt(text, q) && p < q
    ensures p + |Header| <= q
  {
    assert text[q] == 'T' by {
      assert text[q..q + |Header|][0] == text[q];
    }
    if q < p + |Header| {
      assert false;
    }
  }

  /**
   * Every header occurrence between the start of the search and the last
   * index found is among the indices: the search skips none.
   */
  lemma {:induction false} TrackIndicesComplete(text: string, digitCursor: nat -> nat, from: nat, p: nat)
    requires from <= |text| + |Header|
    requires var r := TrackIndices(text, digitCursor, from);
             from <= p && OccursAt(text, p) && |r| > 0 && p <= r[|r| - 1]
    ensures p in TrackIndices(text, digitCursor, from)
    decreases |text| + |Header| - from
  {
    var r := TrackIndices(text, digitCursor, from);
    var h := r[0];
    assert h == NextIndexOf(text, from);
    NextIndexOfIsFirst(text, from, p);
    if p != h {
      HeadersDoNotOverlap(text, h, p);
      var rest := TrackIndices(text, digitCursor, h + |Header|);
      assert r == [h] + rest;
      assert r[|r| - 1] == rest[|rest| - 1];
      TrackIndicesComplete(text, digitCursor, h + |Header|, p);
    }
  }

  /**
   * The search ends at the first header not followed by a digit: the search
   * that follows the last index found (or the first search, when none is
   * found) gives -1, so it meets no header or one without a digit, and every
   * header after that one is ignored, whatever follows them.
   */
  lemma {:induction false} TrackIndicesStopAtHeaderWithoutDigit(text: string, digitCursor: nat -> nat, from: nat)
    requires from <= |text| + |Header|
    ensures var r := TrackIndices(text, digitCursor, from);
            IndexNextTrack(text, digitCursor, if r == [] then from else r[|r| - 1] + |Header|) == -1
    decreases |text| + |Header| - from
  {
    var r := TrackIndices(text, digitCursor, from);
    var index := IndexNextTrack(text, digitCursor, from);
    if index < 0 {
      assert r == [];
    } else {
      var rest := TrackIndices(text, digitCursor, index + |Header|);
      assert r == [index] + rest;
      TrackIndicesStopAtHeaderWithoutDigit(text, digitCursor, index + |Header|);
      if rest == [] {
        assert r[|r| - 1] == index;
      } else {
        assert r[|r| - 1] == rest[|rest| - 1];
      }
    }
  }

  /** Offsets into `text` in increasing order. */
  predicate Cuts(text: string, idx: seq<nat>)
  {
    && (forall k :: 0 <= k < |idx| ==> idx[k] <= |text|)
    && (forall i, j :: 0 <= i < j < |idx| ==> idx[i] <= idx[j])
  }

  /** The pieces of `text` between consecutive offsets, the last running to the end. */
  function Pieces(text: string, idx: seq<nat>): (r: seq<string>)
    requires Cuts(text, idx)
    ensures |r| == |idx|
  {
    seq(|idx|, k requires 0 <= k < |idx| =>
      if k < |idx| - 1 then text[idx[k]..idx[k + 1]] else text[idx[k]..])
  }

  /** Put back together, the pieces give the text from the first offset on. */
  lemma {:induction false} PiecesConcatenate(text: string, idx: seq<nat>)
    requires Cuts(text, idx) && |idx| > 0
    ensures Flatten(Pieces(text, idx)) == text[idx[0]..]
    decreases |idx|
  {
    var r := Pieces(text, idx);
    if |idx| == 1 {
      assert Flatten(r) == r[0] + Flatten(r[1..]);
    } else {
      var tail := idx[1..];
      PiecesConcatenate(text, tail);
      assert r[1..] == Pieces(text, tail);
      assert Flatten(r) == text[idx[0]..idx[1]] + text[idx[1]..];
      assert text[idx[0]..] == text[idx[0]..idx[1]] + text[idx[1]..];
    }
  }

  /** The found indices are valid cut points, and every piece they give opens with a track header. */
  lemma TrackPiecesStartWithHeader(text: string, digitCursor: nat -> nat)
    ensures Cuts(text, TrackIndices(text, digitCursor, |Header|))
    ensures var idx := TrackIndices(text, digitCursor, |Header|);
            var r := Pieces(text, idx);
            forall k :: 0 <= k < |r| ==> |Header| <= |r[k]| && r[k][..|Header|] == Header
  {
    var idx := TrackIndices(text, digitCursor, |Header|);
    TrackIndicesIncreasing(text, digitCursor, |Header|);
    assert Cuts(text, idx) by {
      forall i, j | 0 <= i < j < |idx|
        ensures idx[i] <= idx[j]
      {
        assert idx[i] + |Header| <= idx[j];
      }
    }
    var r := Pieces(text, idx);
    forall k | 0 <= k < |r|
      ensures |Header| <= |r[k]| && r[k][..|Header|] == Header
    {
      assert OccursAt(text, idx[k]);
      OccursAtIsSliceMatch(text, idx[k]);
      if k < |r| - 1 {
        assert idx[k] + |Header| <= idx[k + 1];
      }
      assert r[k][..|Header|] == text[idx[k]..idx[k] + |Header|];
    }
  }

  /** A splitter over one message text. */
  class Splitter {
    const text: string
    /** Where the parser's cursor ends after skipping delimiter words and moving to the next digit, from a header's start. */
    const digitCursor: nat -> nat

    constructor(text: string, digitCursor: nat -> nat)
      ensures this.text == text && this.digitCursor == digitCursor
    {
      this.text := text;
      this.digitCursor := digitCursor;
    }

    /**
     * The header offsets, in text order. Each search starts one header
     * length past the previous find; the first search starts at offset 5,
     * so a header at the very start of the text is never found.
     */
    method GetIndices() returns (indices: seq<nat>)
      ensures indices == TrackIndices(text, digitCursor, |Header|)
      ensures forall k :: 0 <= k < |indices| ==> |Header| <= indices[k]
    {
      indices := [];
      var index: int := 0;
      while true
        invariant 0 <= index <= |text|
        invariant indices + TrackIndices(text, digitCursor, index + |Header|) == TrackIndices(text, digitCursor, |Header|)
        decreases |text| - index
      {
        var next := IndexNextTrack(text, digitCursor, index + |Header|);
        if next < 0 {
          assert TrackIndices(text, digitCursor, index + |Header|) == [];
          assert indices + [] == indices;
          return indices;
        }
        ghost var rest := TrackIndices(text, digitCursor, next + |Header|);
        assert TrackIndices(text, digitCursor, index + |Header|) == [next] + rest;
        assert indices + [next] + rest == indices + ([next] + rest);
        indices := indices + [next];
        index := next;
      }
    }

    /** The message cut at every track header: one piece per header, none when there is no header. */
    method Split() returns (result: seq<string>)
      ensures var idx := TrackIndices(text, digitCursor, |Header|);
              Cuts(text, idx) && result == Pieces(text, idx)
      ensures |result| == |TrackIndices(text, digitCursor, |Header|)|
      ensures var idx := TrackIndices(text, digitCursor, |Header|);
              |result| > 0 ==> Flatten(result) == text[idx[0]..]
      ensures forall k :: 0 <= k < |result| ==> |Header| <= |result[k]| && result[k][..|Header|] == Header
    {
      var indices := GetIndices();
      TrackPiecesStartWithHeader(text, digitCursor);
      result := [];
      if |indices| == 0 {
        return;
      }
      for i := 0 to |indices| - 1
        invariant result == Pieces(text, indices)[..i]
      {
        result := result + [text[indices[i]..indices[i + 1]]];
      }
      result := result + [text[indices[|indices| - 1]..]];
      assert result == Pieces(text, indices);
      PiecesConcatenate(text, indices);
    }
  }
}
