# Contextify core, modelled in Dafny

Contextify is a live-lecture assistant. A client streams raw PCM audio to a
server over a websocket. The server cuts the stream into units, transcribes
each unit and answers with JSON. The client shows the transcript and cards
for the courses, people, technical terms and companies named in a reply.

This project models three sequential pieces of that system and proves
properties about them:

- **The server's receive loop** (`app/main.py`, `websocket_endpoint`),
  modelled as the class `Server.Session`. The loop:
  - appends each binary frame to a byte buffer;
  - once the buffer holds more than 1,000,000 bytes, stages the whole buffer
    as a temporary raw file, converts it, transcribes it and sends one reply;
  - in a `finally` block, empties the buffer and removes the files.

  The pure part is the module `Chunking`: when a unit is cut, what it holds,
  and conservation of bytes over any sequence of chunks. Python's `str.strip`
  is the module `Whitespace`.
- **The big-endian correction of `process_audio`**
  (`app/audio_processing/audio_utils.py`), the module `AudioUtils`. A loop
  reverses each 4-byte group of the buffer, including a short last group. It
  is specified by the function `ByteSwapped`, with lemmas for:
  - length;
  - the position of every byte;
  - groups staying intact;
  - involution.
- **The client's reply decoder** (`frontend/Contextify/ContentView.swift`).
  - The modules `Json` and `Terms` hold the pure part: the two conditional
    casts, the `ExtractedTerm` and `NewsItem` records, `ExtractedTerm.==`, the
    card built from each array element with its placeholders, and the order
    in which a reply's cards are appended.
  - The class `Frontend.ContentView` holds the two appended-to arrays and the
    loops of `parseJsonAndUpdateUI`, plus the `.string` branch of
    `receiveWebSocketMessages`.

Outside collaborators become values:
- The speech pipeline's outcome for a unit is a `Server.UnitRun`: whether
  conversion returned a file, what the engine returned, and whether the reply
  was delivered.
- The WAV pipeline after the byte swap is a `decode` function parameter.
- What `JSONSerialization` made of a message is an `Option<Json.JValue>`
  parameter.

Facts about the code that the model keeps:
- A unit is cut when the buffer exceeds 1,000,000 bytes (app/main.py:34).
- The reply carries only `transcription` (app/main.py:49-52).
- A failed conversion or transcription ends the session. After a failed
  conversion, the `finally` block's `os.remove(wav_path)` raises in turn:
  either `wav_path` was never bound, or it names a file an earlier unit
  already removed (app/main.py:42, 54-57).

## Model

| member | source | states |
|---|---|---|
| Chunking.Feed | app/main.py:30-36 | a chunk is appended after the buffer; a unit is cut exactly when the length strictly exceeds 1,000,000; the unit is the whole buffer and nothing is carried over; otherwise the bytes stay buffered; the buffer left is never over the threshold |
| Chunking.FeedConserves | app/main.py:32-36 | one step loses and duplicates no byte: emitted unit followed by the buffer equals old buffer followed by chunk |
| Chunking.FeedAll | app/main.py:29-36 | the buffer and units after a whole sequence of chunks, one `Feed` after another; its properties are `FeedAllConserves`, `FeedAllAppend` and `FeedAllBounds` |
| Chunking.FeedAllConserves | app/main.py:29-36 | conservation over any chunk sequence: all emitted units concatenated, then the buffer, equal the starting buffer followed by every chunk in arrival order |
| Chunking.FeedAllAppend | app/main.py:29-36 | feeding two chunk sequences one after the other is feeding their concatenation |
| Chunking.FeedAllBounds | app/main.py:34 | every emitted unit is longer than 1,000,000 bytes and the remaining buffer is at most 1,000,000 |
| Chunking.ExactlyThresholdKeepsAccumulating | app/main.py:34 | a buffer of exactly 1,000,000 bytes is not cut and keeps accumulating |
| Whitespace.Strip | app/main.py:46 | `str.strip()` over the characters for which Python's `str.isspace` holds; its properties are `StripSplits`, `StripEdges`, `StripEmptyIff` and `StripIdempotent` |
| Whitespace.StripSplits | app/main.py:46 | `strip()` returns a contiguous slice of its input with only whitespace cut on either side |
| Whitespace.StripEdges | app/main.py:46 | the stripped text is empty or neither starts nor ends with whitespace |
| Whitespace.StripEmptyIff | app/main.py:46 | the transcription is empty exactly when the engine text is all whitespace |
| Whitespace.StripIdempotent | app/main.py:46 | stripping twice is stripping once |
| Server.CycleStatus | app/main.py:40-59 | the status one unit leaves: a failed conversion crashes with the error of `os.remove(wav_path)` (unbound, or already removed); an engine failure crashes; a failed send closes quietly; otherwise the session keeps listening; `Receive` and `ProcessUnit` end in this status |
| Server.UnitReplies | app/main.py:45-52 | one reply holding the stripped engine text when conversion, transcription and the send all succeed, and none otherwise; `Receive` and `ProcessUnit` append exactly these |
| Server.Session.constructor | app/main.py:25-26 | an accepted connection starts listening with an empty buffer, no files and no replies |
| Server.Session.Receive | app/main.py:30-57 | one iteration: the received bytes grow by the chunk; buffer and units move as `Feed` says; below the threshold nothing else changes; above it, the status and the replies are those of processing one unit; the invariant holds (conservation, units over threshold, no live temporary file, buffer at most 1,000,000 while listening) |
| Server.Session.ProcessUnit | app/main.py:34-57 | the whole buffer becomes one unit; afterwards the buffer is empty and every temporary file is removed whatever the outcome; at most one reply is sent, holding the stripped engine text; a conversion failure ends the session with the error of `os.remove(wav_path)` |
| Server.Session.StageUnit | app/main.py:35-38 | a fresh raw file is created holding exactly the buffer |
| Server.Session.Attempt | app/main.py:40-52 | conversion creates a fresh WAV file bound to `wav_path`; an engine failure or a failed send stops the attempt; success appends one reply with the stripped text |
| Server.Session.Finally | app/main.py:54-57 | the buffer is emptied, the raw file removed, then `wav_path` removed; an unbound or already removed `wav_path` raises and replaces the exception in flight |
| Server.Session.Disconnect | app/main.py:58-59 | a disconnect ends the loop quietly: the buffered bytes are dropped without a reply, and `wav_path` and the temporary files are left as they were |
| Server.Session.Handle | app/main.py:29-59 | a frame is received as in `Receive`, a disconnect as in `Disconnect`; the status is `EventStatus` of the event and `wav_path` is bound as `EventBound` says: below the threshold the session keeps listening with `wav_path` unchanged; above it the status is `CycleStatus` of the unit, a successful conversion binds `wav_path` and a failed one leaves it as it was; a disconnect closes the session without a reply; received bytes and units follow the chunk bytes of the event, and the replies grow by `EventReplies` |
| Server.Session.Step | app/main.py:29-59 | one loop iteration extends the account (`Follows`) of received bytes, units, buffer, replies, `wav_path` binding and status from the events before it to one event more; a disconnect closes the session, and the session still listens only after a chunk |
| Server.Session.Serve | app/main.py:24-59 | the loop over a script of transport events: the session was listening before every consumed event, and it stops early only when the session stops listening, so it stops exactly after the first event that leaves the session not listening; the final status is `ScriptStatus` of the consumed events (so a failed conversion, an engine failure or a failed send ends the session as `CycleStatus` says) and `wav_path` is bound as `ScriptBound` says; conservation and the buffer bound hold at the end; received bytes, units and buffer are exactly those of `FeedAll` over the consumed chunks, and the replies are exactly `ScriptReplies` of the consumed events; every consumed event but the last is a chunk, and a consumed disconnect is the last one and leaves the session closed |
| Server.EventReplies | app/main.py:32-52 | the replies one event produces from the buffer it finds: those of the unit it cuts when buffer plus chunk exceed 1,000,000 bytes, none otherwise and none for a disconnect |
| Server.ScriptReplies | app/main.py:29-59 | the replies of a script of events: each event's `EventReplies`, taken with the buffer that `FeedAll` leaves after the chunks before it; its step is `ScriptRepliesSnoc` |
| Server.Follows | app/main.py:29-59 | the session's received bytes, units, buffer, replies, `wav_path` binding and status are what a script of events makes of a starting state; `Step` and `Serve` keep it |
| Server.Extend | app/main.py:29-59 | handling one more event, as `Handle` states it, turns an account of the script `done` into an account of `done + [e]` |
| Server.EventBound | app/main.py:40-57 | `wav_path` is bound after an event exactly when it was bound before or the event cuts a unit whose conversion succeeds; nothing unbinds it |
| Server.EventStatus | app/main.py:29-59 | the status one event leaves a listening session in: a chunk that cuts a unit ends in that unit's `CycleStatus`, any other chunk keeps it listening, and a disconnect closes it |
| Server.ScriptBound | app/main.py:29-59 | whether `wav_path` is bound after a script of events, each event's `EventBound` on the buffer and binding the earlier events left; its step is `ScriptStatusSnoc` |
| Server.ScriptStatus | app/main.py:29-59 | the status after a script of events: listening before any event, otherwise the `EventStatus` of the last event on the buffer and binding the earlier events left; its step is `ScriptStatusSnoc`, and `Serve` ends in it |
| Server.ScriptStatusSnoc | app/main.py:29-59 | the binding and the status after a script with one more event are those the last event leaves, on the buffer and binding the earlier events left |
| Server.FailedConversionStops | app/main.py:34-57 | a chunk over the threshold whose conversion fails, as the first unit of a session, ends the loop after that chunk whatever follows, with the `os.remove(wav_path)` error for an unbound `wav_path` |
| Server.ScriptRepliesSnoc | app/main.py:29-59 | the replies of a script with one more event are those of the earlier events followed by those of the last event on the buffer the earlier chunks left |
| Server.OneLoudChunk | app/main.py:34-52 | a single chunk over 1,000,000 bytes, transcribed as " hi " and delivered, yields exactly one reply, holding "hi" |
| AudioUtils.Reverse | app/audio_processing/audio_utils.py:24 | `chunk[::-1]` keeps length and puts byte `k` at position `len - 1 - k` |
| AudioUtils.ByteSwapped | app/audio_processing/audio_utils.py:21-24 | each 4-byte group reversed, groups in order, a short last group reversed within itself; its properties are `ByteSwappedAt`, `FullGroupReversed`, `TrailingGroupReversed`, `StaysInGroup` and `ByteSwappedInvolution`, and `SwapByteOrder` computes it |
| AudioUtils.ByteSwappedAt | app/audio_processing/audio_utils.py:21-24 | the swapped buffer has the input's length, and output byte `i` is input byte `Source(n, i)`, its mirror within its group |
| AudioUtils.FullGroupReversed | app/audio_processing/audio_utils.py:22-24 | in every full group at offset 4k, output byte 4k+j is input byte 4k+3-j |
| AudioUtils.TrailingGroupReversed | app/audio_processing/audio_utils.py:22-24 | a trailing group of 1 to 3 bytes is reversed within itself, neither padded nor dropped |
| AudioUtils.StaysInGroup | app/audio_processing/audio_utils.py:22-24 | no byte crosses a group boundary, so groups keep their order |
| AudioUtils.ByteSwappedInvolution | app/audio_processing/audio_utils.py:22-24 | swapping twice restores the original buffer |
| AudioUtils.SwapByteOrder | app/audio_processing/audio_utils.py:21-24 | the conversion loop computes exactly `ByteSwapped(raw)` and keeps the length |
| AudioUtils.ProcessAudio | app/audio_processing/audio_utils.py:15-37 | big-endian input reaches decoding swapped; otherwise the bytes reach decoding unchanged; a decoding error is returned as raised, never turned into a result |
| AudioUtils.BigEndianUndoesSwap | app/audio_processing/audio_utils.py:16-24 | for any decoder, decoding the swap of already swapped data is decoding the original bytes, and the swap keeps the length; the lemma itself does not mention `ProcessAudio`: only together with `ProcessAudio`'s ensures (big-endian input reaches the decoder swapped) does it follow that declaring swapped data big-endian decodes the original |
| Json.StringOr | frontend/Contextify/ContentView.swift:291 | `obj[key] as? String ?? fallback`; its behaviour for each card field is stated by `CourseFields`, `PersonFields`, `TechTermFields`, `CompanyFields` and `NewsItemFields` |
| Json.FieldsOf | frontend/Contextify/ContentView.swift:296 | the objects of an all-object array, one per element, in order |
| Json.ObjectsAt | frontend/Contextify/ContentView.swift:296 | the cast `as? [[String: Any]]` succeeds exactly when the field is an array whose every element is an object, and then yields those objects in order |
| Json.ObjectsOrEmpty | frontend/Contextify/ContentView.swift:296 | `obj[key] as? [[String: Any]] ?? []`: the objects `ObjectsAt` yields, or none; its count is stated by `Terms.ObjectsCount` |
| Terms.Same | frontend/Contextify/ContentView.swift:15-22 | `ExtractedTerm.==` compares `term`, `definition`, `isName`, `courseCode`, `courseName` and `isCourse`; its properties are `SameIsEquivalence` and `SameIffEqualApartFromIdAndNews` |
| Terms.NewsItemOf | frontend/Contextify/ContentView.swift:356-359 | the news item built from one element of a `news` array; stated field by field by `NewsItemFields` |
| Terms.Card | frontend/Contextify/ContentView.swift:297-384 | the card built from one array element of each category; stated by `CardShape`, `CourseFields`, `PersonFields`, `TechTermFields`, `CompanyFields` and `PlaceholdersWhenMissing` |
| Terms.TranscriptLines | frontend/Contextify/ContentView.swift:291-294 | the transcript line a reply adds; stated by `TranscriptOnlyWhenNonEmptyString` |
| Terms.Decoded | frontend/Contextify/ContentView.swift:296-385 | the cards a reply adds; stated by `DecodedCount`, `AppendedAt` and `RedecodedCardsAreSame`, and `ParseJsonAndUpdateUI` appends exactly these |
| Terms.SameIsEquivalence | frontend/Contextify/ContentView.swift:15-22 | `ExtractedTerm.==` is reflexive, symmetric and transitive |
| Terms.SameIffEqualApartFromIdAndNews | frontend/Contextify/ContentView.swift:15-22 | `==` holds exactly when the two cards agree on every field except `id` and `news` |
| Terms.NewsItems | frontend/Contextify/ContentView.swift:355-360 | one news item per element of the `news` array, in order, with "" for missing fields |
| Terms.CompanyNews | frontend/Contextify/ContentView.swift:353-384 | a company's news is nil when the `news` field is absent, not an array of objects, or empty; otherwise one item per element, in order |
| Terms.CardShape | frontend/Contextify/ContentView.swift:302-384 | course cards have `isCourse`, empty `term`, no news, and a course code and name; person cards have `isName`; other cards have both flags false; only company cards carry news |
| Terms.PlaceholdersWhenMissing | frontend/Contextify/ContentView.swift:298-351 | an element with no string fields gives the category's fixed placeholders ("UnknownCode", "UnknownCourseName", "No description", "Unknown Person", "No bio", "Unknown TechTerm", "No definition", "Unknown Company", "No company info") |
| Terms.CourseFields | frontend/Contextify/ContentView.swift:297-310 | each field of a course card, separately, is the element's string under `course_code`, `course_name` or `description` when there is one, and otherwise "UnknownCode", "UnknownCourseName" or "No description" |
| Terms.PersonFields | frontend/Contextify/ContentView.swift:315-327 | each field of a person card, separately, is the element's `person_name` or `description` string when there is one, and otherwise "Unknown Person" or "No bio" |
| Terms.TechTermFields | frontend/Contextify/ContentView.swift:332-344 | each field of a technical-term card, separately, is the element's `term` or `description` string when there is one, and otherwise "Unknown TechTerm" or "No definition" |
| Terms.CompanyFields | frontend/Contextify/ContentView.swift:349-351 | each field of a company card, separately, is the element's `company_name` or `description` string when there is one, and otherwise "Unknown Company" or "No company info" |
| Terms.NewsItemFields | frontend/Contextify/ContentView.swift:356-359 | each field of a news item, separately, is the element's `title`, `summary` or `image_url` string when there is one, and otherwise "" |
| Terms.Cards | frontend/Contextify/ContentView.swift:297-312 | one card per array element |
| Terms.ObjectsCount | frontend/Contextify/ContentView.swift:296 | a category adds as many elements as its array holds when that is an array of objects, and none otherwise |
| Terms.DecodedCount | frontend/Contextify/ContentView.swift:296-385 | a reply adds exactly the sum of its four array lengths; an absent or ill-typed array counts as empty |
| Terms.TranscriptOnlyWhenNonEmptyString | frontend/Contextify/ContentView.swift:291-294 | a transcript line is added exactly when `transcription` is a non-empty string, and it is that string |
| Terms.AppendedAt | frontend/Contextify/ContentView.swift:296-385 | the cards of a reply come in the order courses, persons, technical terms, companies, each in array order, with consecutive fresh ids |
| Terms.CardSameForAnyId | frontend/Contextify/ContentView.swift:5-22 | a card made from the same element with another id is `==` to the first but not identical |
| Terms.ReappendedCardsAreSame | frontend/Contextify/ContentView.swift:5-22 | the same arrays appended again give cards that are `==` position by position, yet distinct |
| Terms.RedecodedCardsAreSame | frontend/Contextify/ContentView.swift:285-385 | decoding the same reply twice gives cards that are `==` position by position, each with a new id |
| Frontend.ContentView.constructor | frontend/Contextify/ContentView.swift:35-36 | the view starts with no transcript and no cards |
| Frontend.ContentView.ParseJsonAndUpdateUI | frontend/Contextify/ContentView.swift:285-387 | data that is not a top-level object changes nothing; an object appends its transcript line and exactly the decoded cards after the existing ones, which are never modified; card ids stay distinct |
| Frontend.ContentView.ApplyReply | frontend/Contextify/ContentView.swift:290-385 | the decoding of an object reply: transcript line first, then the four arrays' cards |
| Frontend.ContentView.ReceiveString | frontend/Contextify/ContentView.swift:254-267 | text that parses as JSON goes through the decoder, so a non-object changes nothing; text that does not parse is appended to the transcript verbatim |
| Frontend.ContentView.AppendCards | frontend/Contextify/ContentView.swift:297-346 | the course, person and technical-term loops append one card per element, in order, with fresh ids |
| Frontend.ContentView.AppendCompanies | frontend/Contextify/ContentView.swift:349-385 | the company loop appends one card per element, in order, with fresh ids |
| Frontend.CompanyCard | frontend/Contextify/ContentView.swift:350-384 | the company card built by either branch of `if let newsArray` is the card `Card(Company, …)` specifies |
| Frontend.BuildNews | frontend/Contextify/ContentView.swift:354-360 | the inner loop builds one news item per element, in order, with "" for missing fields |

## Left out

- Audio decoding, resampling, down-mixing, noise reduction and WAV export in
  `process_audio` are foreign library calls on floating-point data. They are
  the `decode` parameter of `AudioUtils.ProcessAudio`.
- File I/O is not modelled: temporary files are abstract numbered resources
  (`Server.FileId`), and the raw file's bytes are the unit itself.
- Temporary files that `process_audio` creates and does not remove are not
  tracked: the swapped copy in the big-endian branch, and files left on its
  failure paths.
- The speech engine, `websocket.send_json` and the websocket transport are
  not modelled. What they do with a unit is the `Server.UnitRun` given with
  each chunk.
- Server.Session.Receive: a failing send is modelled as the peer having left
  (`WebSocketDisconnect`, a quiet close). A send error of any other kind would
  end the session with that error; the model does not distinguish it.
- Non-binary frames and the model-loading lifespan hook are not modelled.
- The server never calls `process_audio` with `big_endian=True`
  (app/main.py:42), so `Server.Session` never swaps bytes.
  `AudioUtils.ProcessAudio` models the branch on its own.
- `Fault.ConversionFailed` is the exception in flight when conversion fails.
  It never becomes the session's final status, because the `finally` block
  raises again and replaces it.
- The OpenAI and news/encyclopedia lookups and the test scripts are not
  modelled: they are network wrappers with no logic of their own.
- The SwiftUI views, audio capture, the websocket connection and its
  recursive receive loop are UI, hardware and transport, and are not
  modelled.
- `DispatchQueue.main.async` scheduling is not modelled: each update is
  applied at once and in order.
- `JSONSerialization` is not modelled: what it made of a message is a
  parameter. A Swift `String` always converts to UTF-8 data, so the branch
  where `text.data(using: .utf8)` fails is not modelled. It would append the
  text, like unparseable text.
- The `.data` branch of `receiveWebSocketMessages` is not modelled. It calls
  `parseJsonAndUpdateUI` directly, so it is the same as
  `Frontend.ContentView.ParseJsonAndUpdateUI`.
- JSON numbers are integers: no decoded field reads a number.
- Terms.Same: strings are compared code point by code point. Swift's `String`
  `==` compares by Unicode canonical equivalence, so the model agrees with it
  only when both strings use the same normalization form (for example "é" as
  one code point against "e" followed by a combining accent).
- `UUID()` is a counter `nextId`. The model captures that ids are fresh and
  distinct, not that they are random. The ids of `NewsItem` values are not
  modelled. Nothing in the modelled decoder reads them; only the views, which
  are not modelled, use them as list identity.
