/**
 * The byte accumulator of the audio websocket endpoint (app/main.py): each
 * received fragment is appended to a buffer, and once the buffer is longer
 * than a fixed threshold the whole buffer becomes one processing unit and the
 * buffer starts again empty.
 */
module Chunking {
  import opened Wrappers

  /** A unit is cut only when the buffer holds strictly more bytes than this. */
  const Threshold: nat := 1000000

  /** Concatenation of byte strings, in order. */
  function Flatten(parts: seq<seq<bv8>>): seq<bv8>
  {
    if parts == [] then [] else parts[0] + Flatten(parts[1..])
  }

  lemma {:induction false} FlattenAppend(xs: seq<seq<bv8>>, ys: seq<seq<bv8>>)
    ensures Flatten(xs + ys) == Flatten(xs) + Flatten(ys)
  {
    if xs == [] {
      assert xs + ys == ys;
    } else {
      assert (xs + ys)[1..] == xs[1..] + ys;
      FlattenAppend(xs[1..], ys);
    }
  }

  lemma FlattenSnoc(parts: seq<seq<bv8>>, p: seq<bv8>)
    ensures Flatten(parts + [p]) == Flatten(parts) + p
  {
    FlattenAppend(parts, [p]);
    assert Flatten([p]) == p + Flatten([]);
  }

  /** What one append does: possibly a unit cut off, and the bytes kept. */
  datatype Cut = Cut(unit: Option<seq<bv8>>, rest: seq<bv8>)

  /** The units a cut hands on for processing: none, or one. */
  function Emitted(c: Cut): seq<seq<bv8>>
  {
    if c.unit.Some? then [c.unit.value] else []
  }

  /**
   * Appending `chunk` to `buffer`: the unit is the whole grown buffer, cut
   * exactly when it exceeds the threshold, and nothing is carried over.
   */
  function Feed(buffer: seq<bv8>, chunk: seq<bv8>): (c: Cut)
    ensures c.unit.Some? <==> |buffer| + |chunk| > Threshold
    ensures c.unit.Some? ==> c.unit.value == buffer + chunk && c.rest == []
    ensures c.unit.None? ==> c.rest == buffer + chunk
    ensures |c.rest| <= Threshold
  {
    var grown := buffer + chunk;
    if |grown| > Threshold then Cut(Some(grown), []) else Cut(None, grown)
  }

  /** One append loses and duplicates nothing. */
  lemma FeedConserves(buffer: seq<bv8>, chunk: seq<bv8>)
    ensures var c := Feed(buffer, chunk); Flatten(Emitted(c)) + c.rest == buffer + chunk
  {
    var c := Feed(buffer, chunk);
    if c.unit.Some? {
      assert Flatten(Emitted(c)) == c.unit.value + Flatten([]);
    }
  }

  /** The units cut and the bytes left after a run of appends. */
  datatype Batch = Batch(units: seq<seq<bv8>>, rest: seq<bv8>)

  /** Feeding `chunks` one after the other, in arrival order. */
  function FeedAll(buffer: seq<bv8>, chunks: seq<seq<bv8>>): Batch
    decreases |chunks|
  {
    if chunks == [] then Batch([], buffer)
    else
      var c := Feed(buffer, chunks[0]);
      var after := FeedAll(c.rest, chunks[1..]);
      Batch(Emitted(c) + after.units, after.rest)
  }

  /** Conservation: bytes in all units plus bytes still buffered are the bytes received, in order. */
  lemma {:induction false} FeedAllConserves(buffer: seq<bv8>, chunks: seq<seq<bv8>>)
    ensures var b := FeedAll(buffer, chunks); Flatten(b.units) + b.rest == buffer + Flatten(chunks)
    decreases |chunks|
  {
    if chunks != [] {
      var c := Feed(buffer, chunks[0]);
      var after := FeedAll(c.rest, chunks[1..]);
      FeedAllConserves(c.rest, chunks[1..]);
      FeedConserves(buffer, chunks[0]);
      FlattenAppend(Emitted(c), after.units);
      Regroup(Flatten(Emitted(c)), Flatten(after.units), after.rest, c.rest, buffer, chunks[0], Flatten(chunks[1..]));
    }
  }

  lemma Regroup(e: seq<bv8>, f: seq<bv8>, r: seq<bv8>, c: seq<bv8>, b: seq<bv8>, x: seq<bv8>, t: seq<bv8>)
    requires e + c == b + x && f + r == c + t
    ensures (e + f) + r == b + (x + t)
  {
    calc {
      (e + f) + r;
      e + (f + r);
      e + (c + t);
      (e + c) + t;
      (b + x) + t;
    }
  }

  /** Feeding two runs of chunks one after the other is feeding their concatenation. */
  lemma {:induction false} FeedAllAppend(buffer: seq<bv8>, xs: seq<seq<bv8>>, ys: seq<seq<bv8>>)
    ensures var bx := FeedAll(buffer, xs); var after := FeedAll(bx.rest, ys);
      FeedAll(buffer, xs + ys) == Batch(bx.units + after.units, after.rest)
    decreases |xs|
  {
    if xs == [] {
      assert xs + ys == ys;
    } else {
      assert (xs + ys)[0] == xs[0] && (xs + ys)[1..] == xs[1..] + ys;
      FeedAllAppend(Feed(buffer, xs[0]).rest, xs[1..], ys);
    }
  }

  /**
   * Every unit is larger than the threshold, and the bytes kept after at
   * least one append are within the threshold.
   */
  lemma {:induction false} FeedAllBounds(buffer: seq<bv8>, chunks: seq<seq<bv8>>)
    ensures var b := FeedAll(buffer, chunks);
      forall i :: 0 <= i < |b.units| ==> |b.units[i]| > Threshold
    ensures chunks != [] || |buffer| <= Threshold ==> |FeedAll(buffer, chunks).rest| <= Threshold
    decreases |chunks|
  {
    if chunks != [] {
      FeedAllBounds(Feed(buffer, chunks[0]).rest, chunks[1..]);
    }
  }

  /** A buffer that reaches exactly the threshold is kept, not cut. */
  lemma ExactlyThresholdKeepsAccumulating(buffer: seq<bv8>, chunk: seq<bv8>)
    requires |buffer| + |chunk| == Threshold
    ensures Feed(buffer, chunk) == Cut(None, buffer + chunk)
  {
  }
}
