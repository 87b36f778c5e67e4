/**
 * The byte-order correction of `process_audio`
 * (app/audio_processing/audio_utils.py): when the raw PCM data is declared
 * big-endian, every 4-byte sample has its bytes reversed before the data is
 * decoded; a short group at the end is reversed within itself.
 */
module AudioUtils {
  import opened Wrappers

  /** `chunk[::-1]` */
  function Reverse(s: seq<bv8>): (r: seq<bv8>)
    ensures |r| == |s|
    ensures forall k :: 0 <= k < |s| ==> r[k] == s[|s| - 1 - k]
  {
    if s == [] then [] else Reverse(s[1..]) + [s[0]]
  }

  lemma ReverseReverse(s: seq<bv8>)
    ensures Reverse(Reverse(s)) == s
  {
  }

  /** The converted buffer: each group of `4` bytes reversed, groups in their order. */
  function ByteSwapped(raw: seq<bv8>): seq<bv8>
    decreases |raw|
  {
    if |raw| <= 4 then Reverse(raw)
    else Reverse(raw[..4]) + ByteSwapped(raw[4..])
  }

  /** First index of the group that holds index `i`. */
  function GroupStart(i: nat): nat
  {
    i - i % 4
  }

  /** One past the last index of that group in a buffer of length `n`. */
  function GroupEnd(n: nat, i: nat): nat
  {
    if GroupStart(i) + 4 <= n then GroupStart(i) + 4 else n
  }

  /** Where output byte `i` comes from: its mirror image within its group. */
  function Source(n: nat, i: nat): nat
    requires i < n
  {
    GroupStart(i) + GroupEnd(n, i) - 1 - i
  }

  /** The swap keeps the length, and output byte `i` is input byte `Source(|raw|, i)`. */
  lemma {:induction false} ByteSwappedAt(raw: seq<bv8>, i: nat)
    requires i < |raw|
    ensures |ByteSwapped(raw)| == |raw|
    ensures Source(|raw|, i) < |raw| && ByteSwapped(raw)[i] == raw[Source(|raw|, i)]
    decreases |raw|
  {
    if |raw| > 4 {
      var tail := raw[4..];
      if i < 4 {
        ByteSwappedLength(tail);
      } else {
        ByteSwappedAt(tail, i - 4);
        assert GroupStart(i) == GroupStart(i - 4) + 4;
      }
    }
  }

  lemma {:induction false} ByteSwappedLength(raw: seq<bv8>)
    ensures |ByteSwapped(raw)| == |raw|
    decreases |raw|
  {
    if |raw| > 4 {
      ByteSwappedLength(raw[4..]);
    }
  }

  /** Index `4 * q + j`, with `j < 4`, is byte `j` of group `q`. */
  lemma GroupOffset(q: nat, j: nat)
    requires j < 4
    ensures (4 * q + j) % 4 == j && (4 * q + j) / 4 == q
    ensures GroupStart(4 * q + j) == 4 * q
  {
  }

  /** A full group at offset 4k comes out as bytes 4k+3, 4k+2, 4k+1, 4k. */
  lemma FullGroupReversed(raw: seq<bv8>, k: nat, j: nat)
    requires 4 * k + 4 <= |raw| && j < 4
    ensures |ByteSwapped(raw)| == |raw|
    ensures ByteSwapped(raw)[4 * k + j] == raw[4 * k + 3 - j]
  {
    ByteSwappedAt(raw, 4 * k + j);
    GroupOffset(k, j);
  }

  /**
   * After `q` full groups, a trailing group of `r` bytes (1 to 3) is reversed
   * within itself, neither padded nor dropped.
   */
  lemma TrailingGroupReversed(raw: seq<bv8>, q: nat, r: nat, j: nat)
    requires |raw| == 4 * q + r && 0 < r < 4 && j < r
    ensures |ByteSwapped(raw)| == |raw|
    ensures ByteSwapped(raw)[4 * q + j] == raw[4 * q + r - 1 - j]
  {
    GroupOffset(q, j);
    assert Source(|raw|, 4 * q + j) == 4 * q + r - 1 - j;
    ByteSwappedAt(raw, 4 * q + j);
  }

  /** No byte crosses a group boundary: output byte `i` comes from the group of `i`. */
  lemma StaysInGroup(raw: seq<bv8>, i: nat)
    requires i < |raw|
    ensures Source(|raw|, i) / 4 == i / 4
  {
    var q := i / 4;
    GroupOffset(q, i % 4);
    var src := Source(|raw|, i);
    assert 4 * q <= src < 4 * q + 4;
    GroupOffset(q, src - 4 * q);
  }

  /** Swapping twice restores the original buffer. */
  lemma {:induction false} ByteSwappedInvolution(raw: seq<bv8>)
    ensures ByteSwapped(ByteSwapped(raw)) == raw
    decreases |raw|
  {
    if |raw| <= 4 {
      ReverseReverse(raw);
    } else {
      var head, tail := raw[..4], raw[4..];
      var swapped := ByteSwapped(raw);
      assert swapped == Reverse(head) + ByteSwapped(tail);
      ByteSwappedLength(tail);
      assert swapped[..4] == Reverse(head);
      assert swapped[4..] == ByteSwapped(tail);
      ByteSwappedInvolution(tail);
      ReverseReverse(head);
      assert raw == head + tail;
    }
  }

  /** The conversion loop: reverse each 4-byte group and extend the output with it. */
  method SwapByteOrder(raw: seq<bv8>) returns (converted: seq<bv8>)
    ensures converted == ByteSwapped(raw)
    ensures |converted| == |raw|
  {
    converted := [];
    var i := 0;
    while i < |raw|
      invariant i <= |raw| + 4
      invariant converted + ByteSwapped(raw[Min(i, |raw|)..]) == ByteSwapped(raw)
      decreases |raw| - i
    {
      var end := Min(i + 4, |raw|);
      var chunk := raw[i..end];
      SwapStep(raw, i, converted);
      converted := converted + Reverse(chunk);
      i := i + 4;
    }
    ByteSwappedLength(raw);
  }

  /** One turn of the conversion loop keeps its invariant. */
  lemma SwapStep(raw: seq<bv8>, i: nat, converted: seq<bv8>)
    requires i < |raw|
    ensures var end := Min(i + 4, |raw|);
      converted + ByteSwapped(raw[i..]) == (converted + Reverse(raw[i..end])) + ByteSwapped(raw[end..])
  {
    var end := Min(i + 4, |raw|);
    var rest := raw[i..];
    ByteSwappedFront(rest);
    assert rest[..Min(4, |rest|)] == raw[i..end];
    assert rest[Min(4, |rest|)..] == raw[end..];
  }

  function Min(a: nat, b: nat): nat
  {
    if a <= b then a else b
  }

  /** The first group of a non-empty buffer comes out first, reversed. */
  lemma ByteSwappedFront(s: seq<bv8>)
    requires s != []
    ensures ByteSwapped(s) == Reverse(s[..Min(4, |s|)]) + ByteSwapped(s[Min(4, |s|)..])
  {
    if |s| <= 4 {
      assert s[..|s|] == s;
      assert ByteSwapped(s[|s|..]) == [];
    }
  }

  /**
   * `process_audio` on the bytes of the raw file: the byte-order correction
   * when `bigEndian` holds, then the decoding, resampling, noise reduction
   * and WAV export, given here as `decode`. Whatever `decode` raises is
   * raised again unchanged.
   */
  method ProcessAudio<W>(raw: seq<bv8>, bigEndian: bool, decode: seq<bv8> -> Result<W, string>)
    returns (r: Result<W, string>)
    ensures bigEndian ==> r == decode(ByteSwapped(raw))
    ensures !bigEndian ==> r == decode(raw)
  {
    var data := raw;
    if bigEndian {
      data := SwapByteOrder(raw);
    }
    r := decode(data);
  }

  /**
   * Declaring already swapped data big-endian hands any decoder the original
   * bytes: `ProcessAudio(ByteSwapped(raw), true, decode)` decodes `raw`.
   */
  lemma BigEndianUndoesSwap<W>(raw: seq<bv8>, decode: seq<bv8> -> Result<W, string>)
    ensures |ByteSwapped(raw)| == |raw|
    ensures decode(ByteSwapped(ByteSwapped(raw))) == decode(raw)
  {
    ByteSwappedInvolution(raw);
    ByteSwappedLength(raw);
  }
}
