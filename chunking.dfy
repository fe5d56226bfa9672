/**
 * Splitting a sequence into consecutive slices of bounded length.
 *
 * The bot uses the same split twice: the patch notes are cut into messages
 * of at most 2000 UTF-16 code units with `content.match(/.{1,2000}/gs) || []`
 * (the `s` flag lets `.` match line breaks, so nothing is dropped), and the
 * recipient entries are cut into batches with `entries.slice(i, i + 10)` for
 * `i = 0, 10, 20, ...`.  Both are the greedy left-to-right split below.
 */
module Chunking {

  /** Discord's limit on the length of one message. */
  const MaxMessageLength := 2000

  /** The concatenation of a sequence of pieces, in order. */
  function Flatten<T>(pieces: seq<seq<T>>): (s: seq<T>)
  {
    if pieces == [] then [] else pieces[0] + Flatten(pieces[1..])
  }

  /**
   * The greedy split of `s` into slices of `n` elements; the last slice
   * holds what is left and may be shorter.
   */
  function Slices<T>(s: seq<T>, n: nat): (r: seq<seq<T>>)
    requires n > 0
    ensures Flatten(r) == s
    ensures forall i :: 0 <= i < |r| ==> 0 < |r[i]| <= n
    ensures forall i :: 0 <= i < |r| - 1 ==> |r[i]| == n
    ensures (|r| - 1) * n < |s| <= |r| * n
    decreases |s|
  {
    if |s| == 0 then []
    else if |s| <= n then [s]
    else
      var rest := Slices(s[n..], n);
      assert (|rest| + 1) * n == |rest| * n + n;
      [s[..n]] + rest
  }

  /**
   * The pieces of the message text: `content.match(/.{1,2000}/gs) || []`.
   * Joining them gives back the whole text, every piece fits in one message,
   * only the last may be shorter, and an empty text gives no pieces.
   */
  function Chunks(content: string): (parts: seq<string>)
    ensures Flatten(parts) == content
    ensures forall i :: 0 <= i < |parts| ==> 1 <= |parts[i]| <= MaxMessageLength
    ensures forall i :: 0 <= i < |parts| - 1 ==> |parts[i]| == MaxMessageLength
    ensures content == [] <==> parts == []
  {
    Slices(content, MaxMessageLength)
  }

  /**
   * The greedy split is the only split into non-empty slices of at most `n`
   * elements in which every slice but the last is full.
   */
  lemma {:induction false} SlicesUnique<T>(s: seq<T>, n: nat, r: seq<seq<T>>)
    requires n > 0
    requires Flatten(r) == s
    requires forall i :: 0 <= i < |r| ==> 0 < |r[i]| <= n
    requires forall i :: 0 <= i < |r| - 1 ==> |r[i]| == n
    ensures r == Slices(s, n)
    decreases |r|
  {
    if r == [] {
    } else if |r| == 1 {
      assert Flatten(r) == r[0] + Flatten(r[1..]);
      assert Flatten(r[1..]) == [];
      assert s == r[0];
    } else {
      var tail := r[1..];
      assert Flatten(r) == r[0] + Flatten(tail);
      assert |r[0]| == n;
      FlattenNonEmpty(tail);
      assert s[..n] == r[0];
      assert s[n..] == Flatten(tail);
      SlicesUnique(s[n..], n, tail);
      assert r == [r[0]] + tail;
    }
  }

  /** Pieces that are all non-empty flatten to a non-empty sequence, unless there are none. */
  lemma {:induction false} FlattenNonEmpty<T>(pieces: seq<seq<T>>)
    requires forall i :: 0 <= i < |pieces| ==> |pieces[i]| > 0
    ensures |Flatten(pieces)| >= |pieces|
  {
    if pieces != [] {
      FlattenNonEmpty(pieces[1..]);
    }
  }

  /** A text of 4500 code units becomes three messages of 2000, 2000 and 500. */
  lemma ChunksOf4500(content: string)
    requires |content| == 4500
    ensures |Chunks(content)| == 3
    ensures |Chunks(content)[0]| == 2000 && |Chunks(content)[1]| == 2000 && |Chunks(content)[2]| == 500
  {
    var r := Chunks(content);
    assert r == [content[..2000]] + Slices(content[2000..], 2000);
    assert Slices(content[2000..], 2000) == [content[2000..][..2000]] + Slices(content[2000..][2000..], 2000);
    assert |content[2000..][2000..]| == 500;
  }
}
