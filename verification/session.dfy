/**
 * The audio websocket endpoint of the server (app/main.py): one `Session`
 * per connection, holding the byte buffer, the staged temporary files and the
 * replies sent so far. Speech conversion, transcription and the transport are
 * outside the model; what they do with one unit is given as a `UnitRun`.
 */
module Server {
  import opened Wrappers
  import opened Chunking
  import opened Whitespace

  /** A temporary file, as an abstract resource. */
  type FileId = nat

  /**
   * What the collaborators do with one unit: whether `process_audio` returned
   * a WAV file, what the speech engine returned (None: it raised), and whether
   * `send_json` reached the client (false: the peer had gone and the send
   * raised `WebSocketDisconnect`).
   */
  datatype UnitRun = UnitRun(converted: bool, engine: Option<string>, delivered: bool)

  /** What the transport delivers to the receive loop. */
  datatype Event = Chunk(bytes: seq<bv8>, run: UnitRun) | Disconnect

  /** The exception that ends a session abnormally. */
  datatype Fault =
    | ConversionFailed      // raised by process_audio
    | TranscriptionFailed   // raised by the speech engine
    | WavPathUnbound        // `os.remove(wav_path)` before `wav_path` was ever assigned
    | WavFileMissing        // `os.remove(wav_path)` on a file an earlier unit already removed

  datatype Status = Listening | Closed | Crashed(fault: Fault)

  /** The JSON message sent for one unit. */
  datatype Reply = Reply(transcription: string)

  /**
   * The status a unit's processing leaves behind, given what the collaborators
   * did and whether `wav_path` was `bound` by an earlier unit. A failing
   * `process_audio` leaves `wav_path` as it was, so the `finally` block's own
   * `os.remove(wav_path)` raises and that error replaces the conversion error.
   */
  function CycleStatus(run: UnitRun, bound: bool): Status
  {
    if !run.converted then
      (if !bound then Crashed(WavPathUnbound) else Crashed(WavFileMissing))
    else if run.engine.None? then Crashed(TranscriptionFailed)
    else if !run.delivered then Closed
    else Listening
  }

  /** The reply a unit produces: one message with the stripped engine text, or none. */
  function UnitReplies(run: UnitRun): seq<Reply>
  {
    if run.converted && run.engine.Some? && run.delivered then [Reply(Strip(run.engine.value))] else []
  }

  /** The byte strings carried by the chunk events, in order. */
  function ChunkBytes(events: seq<Event>): seq<seq<bv8>>
  {
    if events == [] then []
    else (if events[0].Chunk? then [events[0].bytes] else []) + ChunkBytes(events[1..])
  }

  /** The replies one event produces, given the buffer it finds: those of the unit it cuts, if any. */
  function EventReplies(buffer: seq<bv8>, e: Event): seq<Reply>
  {
    match e
    case Chunk(bytes, run) => if |buffer| + |bytes| > Threshold then UnitReplies(run) else []
    case Disconnect => []
  }

  /**
   * The replies a script of events produces from a starting buffer: those
   * of all events but the last, then those of the last, which finds the
   * buffer the earlier chunks left.
   */
  function ScriptReplies(buffer: seq<bv8>, events: seq<Event>): seq<Reply>
    decreases |events|
  {
    if events == [] then []
    else
      var done := events[..|events| - 1];
      ScriptReplies(buffer, done) + EventReplies(FeedAll(buffer, ChunkBytes(done)).rest, events[|events| - 1])
  }

  /**
   * Whether `wav_path` is bound after one event, given the buffer the event
   * finds and whether it was bound before: a unit whose conversion succeeds
   * binds it, and nothing unbinds it.
   */
  function EventBound(buffer: seq<bv8>, bound: bool, e: Event): bool
  {
    match e
    case Chunk(bytes, run) => bound || (|buffer| + |bytes| > Threshold && run.converted)
    case Disconnect => bound
  }

  /**
   * The status one event leaves a listening session in: a chunk that cuts a
   * unit ends in that unit's `CycleStatus`, any other chunk keeps the session
   * listening, and a disconnect closes it.
   */
  function EventStatus(buffer: seq<bv8>, bound: bool, e: Event): Status
  {
    match e
    case Chunk(bytes, run) => if |buffer| + |bytes| > Threshold then CycleStatus(run, bound) else Listening
    case Disconnect => Closed
  }

  /** Whether `wav_path` is bound after a script of events, from a starting buffer and binding. */
  function ScriptBound(buffer: seq<bv8>, bound: bool, events: seq<Event>): bool
    decreases |events|
  {
    if events == [] then bound
    else
      var done := events[..|events| - 1];
      EventBound(FeedAll(buffer, ChunkBytes(done)).rest, ScriptBound(buffer, bound, done), events[|events| - 1])
  }

  /**
   * The status after a script of events handled by a listening session: a
   * session that has handled nothing listens; otherwise the status is the one
   * the last event leaves, with the buffer and binding the earlier events left.
   */
  function ScriptStatus(buffer: seq<bv8>, bound: bool, events: seq<Event>): Status
  {
    if events == [] then Listening
    else
      var done := events[..|events| - 1];
      EventStatus(FeedAll(buffer, ChunkBytes(done)).rest, ScriptBound(buffer, bound, done), events[|events| - 1])
  }

  /** The session was listening before each of the first `n` events. */
  ghost predicate ListensBefore(a: seq<bv8>, b: bool, events: seq<Event>, n: nat)
    requires n <= |events|
  {
    forall k :: 0 <= k < n ==> ScriptStatus(a, b, events[..k]) == Listening
  }

  /** A session still listening after the first `n` events was listening before each of the first `n + 1`. */
  lemma ListensBeforeStep(a: seq<bv8>, b: bool, events: seq<Event>, n: nat)
    requires n < |events| && ListensBefore(a, b, events, n) && ScriptStatus(a, b, events[..n]) == Listening
    ensures ListensBefore(a, b, events, n + 1)
  {
  }

  /** The first `n` events are chunks, except that the last of them may be a disconnect that `closed` the session. */
  ghost predicate ChunksBefore(events: seq<Event>, n: nat, closed: bool)
    requires n <= |events|
  {
    forall i :: 0 <= i < n ==> events[i].Chunk? || (i == n - 1 && closed)
  }

  lemma ChunksBeforeStep(events: seq<Event>, n: nat, closed: bool)
    requires n < |events| && ChunksBefore(events, n, false) && (events[n].Disconnect? ==> closed)
    ensures ChunksBefore(events, n + 1, closed)
  {
  }

  /**
   * What a script of events makes of a listening session: starting from
   * received bytes `r`, units `u`, buffer `a`, replies `rp` and `wav_path`
   * bound or not (`b`), the events `events` lead to `r1`, `u1`, `a1`, `rp1`,
   * binding `b1` and status `st1`.
   */
  ghost predicate Follows(r: seq<bv8>, u: seq<seq<bv8>>, a: seq<bv8>, rp: seq<Reply>, b: bool, events: seq<Event>,
                          r1: seq<bv8>, u1: seq<seq<bv8>>, a1: seq<bv8>, rp1: seq<Reply>, b1: bool, st1: Status)
  {
    && r1 == r + Flatten(ChunkBytes(events))
    && u1 == u + FeedAll(a, ChunkBytes(events)).units
    && a1 == FeedAll(a, ChunkBytes(events)).rest
    && rp1 == rp + ScriptReplies(a, events)
    && b1 == ScriptBound(a, b, events)
    && st1 == ScriptStatus(a, b, events)
  }

  class Session {
    /** `audio_data`: the bytes received since the last unit was cut. */
    var audioData: seq<bv8>
    /** `wav_path`: a local of the endpoint that keeps its value across loop iterations. */
    var wavPath: Option<FileId>
    /** Temporary files that currently exist. */
    var live: set<FileId>
    /** Every file created gets a number not used before. */
    var nextFile: FileId
    /** The JSON messages sent to the client, in order. */
    var replies: seq<Reply>
    var status: Status

    /** Every byte received on the connection, in order. */
    ghost var received: seq<bv8>
    /** Every unit staged for processing, in order. */
    ghost var units: seq<seq<bv8>>

    /** What holds at every point between two receives, whatever the status. */
    ghost predicate Accounted()
      reads this
    {
      && Flatten(units) + audioData == received
      && (forall i :: 0 <= i < |units| ==> |units[i]| > Threshold)
      && live == {}
      && (wavPath.Some? ==> wavPath.value < nextFile)
      && |replies| <= |units|
    }

    ghost predicate Valid()
      reads this
    {
      Accounted() && (status.Listening? ==> |audioData| <= Threshold)
    }

    /** The connection has been accepted and nothing has been received yet. */
    constructor ()
      ensures Valid() && status == Listening
      ensures audioData == [] && received == [] && units == [] && replies == []
      ensures wavPath == None && live == {}
    {
      audioData := [];
      wavPath := None;
      live := {};
      nextFile := 0;
      replies := [];
      status := Listening;
      received := [];
      units := [];
    }

    /**
     * One iteration of the receive loop: append the chunk, and if the buffer
     * is now over the threshold, process it as one unit.
     */
    method Receive(chunk: seq<bv8>, run: UnitRun)
      requires Valid() && status == Listening
      modifies this
      ensures Valid()
      ensures received == old(received) + chunk
      ensures var c := Feed(old(audioData), chunk);
        audioData == c.rest && units == old(units) + Emitted(c)
      ensures |old(audioData)| + |chunk| <= Threshold ==>
        status == Listening && replies == old(replies) && wavPath == old(wavPath)
      ensures |old(audioData)| + |chunk| > Threshold ==>
        && status == CycleStatus(run, old(wavPath).Some?)
        && replies == old(replies) + UnitReplies(run)
        && (run.converted ==> wavPath.Some?)
        && (!run.converted ==> wavPath == old(wavPath))
    {
      received := received + chunk;
      audioData := audioData + chunk;
      if |audioData| > Threshold {
        ProcessUnit(run);
      }
    }

    /**
     * Stage the whole buffer as a raw file, convert, transcribe and answer it,
     * then, in the `finally` block, empty the buffer and remove the raw file
     * and `wav_path`.
     */
    method ProcessUnit(run: UnitRun)
      requires Accounted() && status == Listening && |audioData| > Threshold
      modifies this
      ensures Valid()
      ensures audioData == [] && units == old(units) + [old(audioData)] && received == old(received)
      ensures replies == old(replies) + UnitReplies(run)
      ensures status == CycleStatus(run, old(wavPath).Some?)
      ensures run.converted ==> wavPath.Some?
      ensures !run.converted ==> wavPath == old(wavPath)
    {
      var rawPath := StageUnit();
      var pending := Attempt(run);
      Finally(rawPath, pending);
    }

    /** Write the whole buffer to a fresh raw file. */
    method StageUnit() returns (rawPath: FileId)
      requires Accounted() && |audioData| > Threshold
      modifies this`nextFile, this`live, this`units
      ensures rawPath == old(nextFile) && nextFile == rawPath + 1 && live == {rawPath}
      ensures units == old(units) + [audioData]
      ensures Flatten(units) == received
      ensures forall i :: 0 <= i < |units| ==> |units[i]| > Threshold
      ensures wavPath.Some? ==> wavPath.value < rawPath
      ensures |replies| < |units|
    {
      rawPath := nextFile;
      nextFile := nextFile + 1;
      live := live + {rawPath};
      FlattenSnoc(units, audioData);
      units := units + [audioData];
    }

    /**
     * The `try` block: convert, transcribe, send. Returns the exception in
     * flight when it ends, as the status it would give the session.
     */
    method Attempt(run: UnitRun) returns (pending: Option<Status>)
      requires |replies| < |units|
      modifies this`nextFile, this`live, this`wavPath, this`replies
      ensures |replies| <= |units|
      ensures replies == old(replies) + UnitReplies(run)
      ensures run.converted ==>
        wavPath == Some(old(nextFile)) && nextFile == old(nextFile) + 1 && live == old(live) + {old(nextFile)}
      ensures !run.converted ==> wavPath == old(wavPath) && nextFile == old(nextFile) && live == old(live)
      ensures pending == if !run.converted then Some(Crashed(ConversionFailed))
        else if run.engine.None? then Some(Crashed(TranscriptionFailed))
        else if !run.delivered then Some(Closed)
        else None
    {
      pending := None;
      if run.converted {
        var wav := nextFile;
        nextFile := nextFile + 1;
        live := live + {wav};
        wavPath := Some(wav);
        match run.engine {
          case None =>
            pending := Some(Crashed(TranscriptionFailed));
          case Some(text) =>
            var transcription := Strip(text);
            if run.delivered {
              replies := replies + [Reply(transcription)];
            } else {
              pending := Some(Closed);
            }
        }
      } else {
        pending := Some(Crashed(ConversionFailed));
      }
    }

    /**
     * The `finally` block: empty the buffer, remove the raw file, then remove
     * `wav_path`; an error raised here replaces the one in flight.
     */
    method Finally(rawPath: FileId, pending: Option<Status>)
      requires rawPath in live && live <= {rawPath} + (if wavPath.Some? then {wavPath.value} else {})
      modifies this`audioData, this`live, this`status
      ensures audioData == [] && live == {}
      ensures status == match old(wavPath)
        case None => Crashed(WavPathUnbound)
        case Some(w) => if w in old(live) && w != rawPath then (if pending.Some? then pending.value else old(status))
          else Crashed(WavFileMissing)
    {
      audioData := [];
      live := live - {rawPath};
      match wavPath {
        case None =>
          status := Crashed(WavPathUnbound);
        case Some(w) =>
          if w in live {
            live := live - {w};
            if pending.Some? {
              status := pending.value;
            }
          } else {
            status := Crashed(WavFileMissing);
          }
      }
    }

    /** The client went away: the loop ends quietly and the buffered bytes are dropped unanswered. */
    method Disconnect()
      requires Valid() && status == Listening
      modifies this
      ensures Valid() && status == Closed
      ensures replies == old(replies) && units == old(units)
      ensures received == old(received) && audioData == old(audioData)
      ensures wavPath == old(wavPath) && live == old(live) && nextFile == old(nextFile)
    {
      status := Closed;
    }

    /** Hand one transport event to the loop body. */
    method Handle(e: Event)
      requires Valid() && status == Listening
      modifies this
      ensures Valid()
      ensures received == old(received) + Flatten(ChunkBytes([e]))
      ensures var b := FeedAll(old(audioData), ChunkBytes([e]));
        units == old(units) + b.units && audioData == b.rest
      ensures replies == old(replies) + EventReplies(old(audioData), e)
      ensures status == EventStatus(old(audioData), old(wavPath).Some?, e)
      ensures wavPath.Some? == EventBound(old(audioData), old(wavPath).Some?, e)
      ensures e.Disconnect? ==> status == Closed && wavPath == old(wavPath)
      ensures e.Chunk? && |old(audioData)| + |e.bytes| <= Threshold ==>
        status == Listening && wavPath == old(wavPath)
      ensures e.Chunk? && |old(audioData)| + |e.bytes| > Threshold ==>
        && status == CycleStatus(e.run, old(wavPath).Some?)
        && (e.run.converted ==> wavPath.Some?)
        && (!e.run.converted ==> wavPath == old(wavPath))
    {
      match e {
        case Chunk(bytes, run) =>
          assert ChunkBytes([e]) == [bytes];
          assert Flatten([bytes]) == bytes by { assert [bytes][..0] == []; }
          Receive(bytes, run);
        case Disconnect =>
          assert ChunkBytes([e]) == [];
          Disconnect();
      }
    }

    /**
     * The receive loop over a finite script of transport events: it runs
     * until the script ends or the session stops listening.
     */
    method Serve(events: seq<Event>) returns (consumed: nat)
      requires Valid() && status == Listening
      modifies this
      ensures Valid()
      ensures consumed <= |events|
      ensures consumed < |events| ==> !status.Listening?
      ensures received == old(received) + Flatten(ChunkBytes(events[..consumed]))
      ensures var b := FeedAll(old(audioData), ChunkBytes(events[..consumed]));
        units == old(units) + b.units && audioData == b.rest
      ensures replies == old(replies) + ScriptReplies(old(audioData), events[..consumed])
      ensures status == ScriptStatus(old(audioData), old(wavPath).Some?, events[..consumed])
      ensures wavPath.Some? == ScriptBound(old(audioData), old(wavPath).Some?, events[..consumed])
      ensures forall k :: 0 <= k < consumed ==> ScriptStatus(old(audioData), old(wavPath).Some?, events[..k]) == Listening
      ensures forall i :: 0 <= i < consumed ==> events[i].Chunk? || (i == consumed - 1 && status == Closed)
    {
      consumed := 0;
      while consumed < |events| && status == Listening
        invariant Valid()
        invariant consumed <= |events|
        invariant Follows(old(received), old(units), old(audioData), old(replies), old(wavPath).Some?, events[..consumed],
                          received, units, audioData, replies, wavPath.Some?, status)
        invariant ListensBefore(old(audioData), old(wavPath).Some?, events, consumed)
        invariant ChunksBefore(events, consumed, status == Closed)
        decreases |events| - consumed
      {
        ListensBeforeStep(old(audioData), old(wavPath).Some?, events, consumed);
        Step(old(received), old(units), old(audioData), old(replies), old(wavPath).Some?, events, consumed);
        ChunksBeforeStep(events, consumed, status == Closed);
        consumed := consumed + 1;
      }
    }

    /** One iteration of `Serve`: the account over the first `n` events extends to the first `n + 1`. */
    method Step(ghost r: seq<bv8>, ghost u: seq<seq<bv8>>, ghost a: seq<bv8>, ghost rp: seq<Reply>, ghost b: bool,
                events: seq<Event>, n: nat)
      requires Valid() && status == Listening && n < |events|
      requires Follows(r, u, a, rp, b, events[..n], received, units, audioData, replies, wavPath.Some?, status)
      modifies this
      ensures Valid()
      ensures Follows(r, u, a, rp, b, events[..n + 1], received, units, audioData, replies, wavPath.Some?, status)
      ensures events[n].Disconnect? ==> status == Closed
      ensures status.Listening? ==> events[n].Chunk?
    {
      var e := events[n];
      ghost var done := events[..n];
      assert events[..n + 1] == done + [e];
      ghost var r0, u0, a0, rp0, b0 := received, units, audioData, replies, wavPath.Some?;
      Handle(e);
      Extend(r, u, a, rp, b, done, e, r0, u0, a0, rp0, b0, received, units, audioData, replies, wavPath.Some?, status);
    }
  }

  /**
   * A failed conversion of the first unit ends the session: given a chunk
   * over the threshold whose conversion fails, then any other event, the loop
   * consumes the chunk only, and the session crashes on `os.remove(wav_path)`
   * because `wav_path` was never bound.
   */
  method FailedConversionStops(big: seq<bv8>, next: Event) returns (consumed: nat, status: Status)
    requires |big| > Threshold
    ensures consumed == 1 && status == Crashed(WavPathUnbound)
  {
    var s := new Session();
    var e := Chunk(big, UnitRun(false, None, false));
    var script := [e, next];
    consumed := s.Serve(script);
    assert script[..0] == [] && script[..1] == [e];
    status := s.status;
  }

  /**
   * The account of a script extends by one event: if the session state
   * followed the script `done` before and changed as `Handle` says on `e`, it
   * follows the script `done + [e]`.
   */
  lemma Extend(r: seq<bv8>, u: seq<seq<bv8>>, a: seq<bv8>, rp: seq<Reply>, b: bool, done: seq<Event>, e: Event,
               r0: seq<bv8>, u0: seq<seq<bv8>>, a0: seq<bv8>, rp0: seq<Reply>, b0: bool,
               r1: seq<bv8>, u1: seq<seq<bv8>>, a1: seq<bv8>, rp1: seq<Reply>, b1: bool, st1: Status)
    requires Follows(r, u, a, rp, b, done, r0, u0, a0, rp0, b0, Listening)
    requires r1 == r0 + Flatten(ChunkBytes([e]))
    requires u1 == u0 + FeedAll(a0, ChunkBytes([e])).units && a1 == FeedAll(a0, ChunkBytes([e])).rest
    requires rp1 == rp0 + EventReplies(a0, e)
    requires b1 == EventBound(a0, b0, e) && st1 == EventStatus(a0, b0, e)
    ensures Follows(r, u, a, rp, b, done + [e], r1, u1, a1, rp1, b1, st1)
  {
    var xs, ys := ChunkBytes(done), ChunkBytes([e]);
    ChunkBytesAppend(done, [e]);
    FlattenAppend(xs, ys);
    Accumulate(r, Flatten(xs), Flatten(ys), r0, r1);
    FeedAllAppend(a, xs, ys);
    Accumulate(u, FeedAll(a, xs).units, FeedAll(a0, ys).units, u0, u1);
    ScriptRepliesSnoc(a, done, e);
    Accumulate(rp, ScriptReplies(a, done), EventReplies(a0, e), rp0, rp1);
    ScriptStatusSnoc(a, b, done, e);
  }

  lemma {:induction false} ChunkBytesAppend(xs: seq<Event>, ys: seq<Event>)
    ensures ChunkBytes(xs + ys) == ChunkBytes(xs) + ChunkBytes(ys)
  {
    if xs == [] {
      assert xs + ys == ys;
    } else {
      assert (xs + ys)[0] == xs[0] && (xs + ys)[1..] == xs[1..] + ys;
      ChunkBytesAppend(xs[1..], ys);
    }
  }

  /** The replies of a script with one more event are those of the last event, after the earlier ones. */
  lemma ScriptRepliesSnoc(a: seq<bv8>, done: seq<Event>, e: Event)
    ensures ScriptReplies(a, done + [e]) == ScriptReplies(a, done) + EventReplies(FeedAll(a, ChunkBytes(done)).rest, e)
  {
    var all := done + [e];
    assert all[..|all| - 1] == done && all[|all| - 1] == e;
  }

  /**
   * The binding and the status after a script with one more event are those
   * the last event leaves, on the buffer and binding the earlier events left.
   */
  lemma ScriptStatusSnoc(a: seq<bv8>, b: bool, done: seq<Event>, e: Event)
    ensures var buffer, bound := FeedAll(a, ChunkBytes(done)).rest, ScriptBound(a, b, done);
      && ScriptBound(a, b, done + [e]) == EventBound(buffer, bound, e)
      && ScriptStatus(a, b, done + [e]) == EventStatus(buffer, bound, e)
  {
    var all := done + [e];
    assert all[..|all| - 1] == done && all[|all| - 1] == e;
  }

  /**
   * A single chunk over the threshold, transcribed as " hi " and delivered,
   * makes the session send exactly one message, holding "hi".
   */
  lemma OneLoudChunk(bytes: seq<bv8>)
    requires |bytes| > Threshold
    ensures ScriptReplies([], [Chunk(bytes, UnitRun(true, Some(" hi "), true))]) == [Reply("hi")]
  {
    var e := Chunk(bytes, UnitRun(true, Some(" hi "), true));
    ScriptRepliesSnoc([], [], e);
    assert [] + [e] == [e];
    assert Strip(" hi ") == "hi";
  }

  /** An accumulator that grew by `x` and then by `y` grew by `x + y`. */
  lemma Accumulate<T>(start: seq<T>, x: seq<T>, y: seq<T>, mid: seq<T>, last: seq<T>)
    requires mid == start + x && last == mid + y
    ensures last == start + (x + y)
  {
    assert (start + x) + y == start + (x + y);
  }
}
