/**
 Cutting a text at a delimiter. The log reader, the reader of a child's stdout and the
 event-stream parser all run the same loop: append a chunk to a buffer, cut off every
 complete piece, keep the unterminated rest. `Cut` says what that loop computes and
 `FeedIsCut` that the result does not depend on where the chunks end.
 */
module Delimited {
  import opened Wrappers

  datatype Pieces = Pieces(done: seq<string>, rest: string)

  function Concat(chunks: seq<string>): string {
    if chunks == [] then "" else chunks[0] + Concat(chunks[1..])
  }

  predicate OccursAt(text: string, delimiter: string, i: nat) {
    i + |delimiter| <= |text| && text[i..i + |delimiter|] == delimiter
  }

  /** The leftmost occurrence at or after `from`. */
  function IndexOf(text: string, delimiter: string, from: nat := 0): (r: Option<nat>)
    ensures r.Some? ==> from <= r.value && OccursAt(text, delimiter, r.value)
    ensures r.Some? ==> forall j: nat | from <= j < r.value :: !OccursAt(text, delimiter, j)
    ensures r.None? ==> forall j: nat | from <= j :: !OccursAt(text, delimiter, j)
    decreases |text| - from
  {
    if from + |delimiter| > |text| then None
    else if OccursAt(text, delimiter, from) then Some(from)
    else IndexOf(text, delimiter, from + 1)
  }

  predicate Contains(text: string, delimiter: string) {
    IndexOf(text, delimiter).Some?
  }

  function Cut(text: string, delimiter: string): (r: Pieces)
    requires delimiter != ""
    ensures !Contains(r.rest, delimiter)
    ensures |r.rest| <= |text|
    decreases |text|
  {
    match IndexOf(text, delimiter)
    case None => Pieces([], text)
    case Some(i) =>
      var tail := Cut(text[i + |delimiter|..], delimiter);
      Pieces([text[..i]] + tail.done, tail.rest)
  }

  lemma IndexIs(text: string, delimiter: string, i: nat)
    requires OccursAt(text, delimiter, i)
    requires forall j: nat | j < i :: !OccursAt(text, delimiter, j)
    ensures IndexOf(text, delimiter) == Some(i)
  {
  }

  /** The text after a piece and its delimiter is cut on its own. */
  lemma CutPiece(piece: string, delimiter: string, tail: string)
    requires |delimiter| == 1
    requires delimiter[0] !in piece
    ensures Cut(piece + delimiter + tail, delimiter)
         == Pieces([piece] + Cut(tail, delimiter).done, Cut(tail, delimiter).rest)
  {
    var text := piece + delimiter + tail;
    assert forall j: nat | j < |piece| :: text[j] == piece[j];
    assert forall j: nat | j < |piece| :: text[j..j + 1] == [piece[j]];
    assert OccursAt(text, delimiter, |piece|);
    IndexIs(text, delimiter, |piece|);
    assert text[..|piece|] == piece;
    assert text[|piece| + 1..] == tail;
  }

  lemma NotContained(text: string, delimiter: string)
    requires |delimiter| == 1
    ensures Contains(text, delimiter) <==> delimiter[0] in text
  {
    match IndexOf(text, delimiter)
    case Some(i) => assert text[i..i + 1][0] == text[i];
    case None =>
      forall j: nat | j < |text| ensures text[j] != delimiter[0] {
        assert !OccursAt(text, delimiter, j);
        assert text[j..j + 1] == [text[j]];
      }
  }

  /** More text after the first delimiter does not move it. */
  lemma IndexAppend(a: string, b: string, delimiter: string, i: nat)
    requires IndexOf(a, delimiter) == Some(i)
    ensures IndexOf(a + b, delimiter) == Some(i)
  {
    forall j: nat | j <= i ensures OccursAt(a + b, delimiter, j) <==> OccursAt(a, delimiter, j) {
      assert (a + b)[j..j + |delimiter|] == a[j..j + |delimiter|];
    }
    IndexIs(a + b, delimiter, i);
  }

  lemma CutFirst(text: string, delimiter: string, i: nat)
    requires delimiter != "" && IndexOf(text, delimiter) == Some(i)
    ensures Cut(text, delimiter).done == [text[..i]] + Cut(text[i + |delimiter|..], delimiter).done
    ensures Cut(text, delimiter).rest == Cut(text[i + |delimiter|..], delimiter).rest
  {
  }

  lemma CutNone(text: string, delimiter: string)
    requires delimiter != "" && !Contains(text, delimiter)
    ensures Cut(text, delimiter) == Pieces([], text)
  {
  }

  /** A longer text is cut by cutting its beginning, then the left-over rest with what follows. */
  lemma {:induction false} CutAppend(a: string, b: string, delimiter: string)
    requires delimiter != ""
    ensures Cut(a + b, delimiter).done
         == Cut(a, delimiter).done + Cut(Cut(a, delimiter).rest + b, delimiter).done
    ensures Cut(a + b, delimiter).rest == Cut(Cut(a, delimiter).rest + b, delimiter).rest
    decreases |a|
  {
    hide Cut, IndexOf;
    if !Contains(a, delimiter) {
      CutNone(a, delimiter);
    } else {
      var i := IndexOf(a, delimiter).value;
      var piece, tail := a[..i], a[i + |delimiter|..];
      var first := Cut(tail, delimiter);
      var next := Cut(first.rest + b, delimiter);
      IndexAppend(a, b, delimiter, i);
      assert (a + b)[..i] == piece && (a + b)[i + |delimiter|..] == tail + b;
      CutFirst(a + b, delimiter, i);
      CutAppend(tail, b, delimiter);
      CutFirst(a, delimiter, i);
      assert [piece] + (first.done + next.done) == ([piece] + first.done) + next.done;
    }
  }

  /** What a reader holds after the chunks, starting from a buffer it has already searched. */
  function Feed(buffer: string, chunks: seq<string>, delimiter: string): Pieces
    requires delimiter != ""
    decreases |chunks|
  {
    if chunks == [] then Pieces([], buffer)
    else
      var now := Cut(buffer + chunks[0], delimiter);
      var later := Feed(now.rest, chunks[1..], delimiter);
      Pieces(now.done + later.done, later.rest)
  }

  /** Chunk boundaries do not matter. */
  lemma {:induction false} FeedIsCut(buffer: string, chunks: seq<string>, delimiter: string)
    requires delimiter != "" && !Contains(buffer, delimiter)
    ensures Feed(buffer, chunks, delimiter) == Cut(buffer + Concat(chunks), delimiter)
    decreases |chunks|
  {
    hide Cut, Contains;
    if chunks == [] {
      assert buffer + Concat(chunks) == buffer;
      CutNone(buffer, delimiter);
    } else {
      var now, later := Cut(buffer + chunks[0], delimiter), Concat(chunks[1..]);
      FeedIsCut(now.rest, chunks[1..], delimiter);
      CutAppend(buffer + chunks[0], later, delimiter);
      assert buffer + Concat(chunks) == (buffer + chunks[0]) + later;
    }
  }

  lemma {:induction false} ConcatAppend(a: seq<string>, b: seq<string>)
    ensures Concat(a + b) == Concat(a) + Concat(b)
    decreases |a|
  {
    if a == [] {
      assert a + b == b;
    } else {
      assert (a + b)[1..] == a[1..] + b;
      ConcatAppend(a[1..], b);
    }
  }
}
