# HTTP-FLV player session, modelled in Dafny

This project models the player side of Node-Media-Server's FLV session
(`NodeFlvSession`). A viewer connects over chunked HTTP or a WebSocket and asks
for `<stream path>.flv`. The session checks the request and, when a policy is
configured, the signature. It then looks up the publisher of that stream path
in the shared registry. If there is one, the session joins the publisher's
players and writes the join burst: the 13-byte FLV file header, the metadata
and codec sequence-header tags, then the cached group of pictures (GOP). If
there is none, the session waits in the idle-player set. When the connection
closes, errors or is rejected, the session is stopped once and removed from
every shared structure it was registered in.

Files and modules:

- `wrappers.dfy`, module `Wrappers`: `Option`.
- `bytes.dfy`, module `Bytes`: the `byte` type, and the big-endian unsigned
  integers written by `Buffer.writeUIntBE` and `writeUInt32BE`, with their
  decoder. The two are proved inverse.
- `flv.dfy`, module `Flv`: the tag framer `createFlvMessage` and the FLV header.
  These follow the Adobe Flash Video File Format Specification version 10.1:
  Annex E.4.1 (FLV tag), Annex E.3 (PreviousTagSize) and Annex E.2 (FLV
  header). Each comes with a decoder, and round trips are proved in both
  directions.
- `url_path.dfy`, module `UrlPath`: JavaScript's `split('.')` and its inverse
  `join`, and the stream path and format computed from a pathname.
- `core_context.dfy`, module `CoreContext`: the shared context. It holds the
  sessions map (id → entry), the publishers map (stream path → id), the
  idle-player set and the notification log, as the class `Context`.
- `session.dfy`, module `Session`: each handler written as a step function on a
  `World` value, and the lemmas about those steps. It also holds the objects
  themselves: the class `Response` (`res`), and the class `FlvSession`, whose
  methods update fields and the shared maps in place. Each method is proved
  to produce exactly the world that its step function gives.

Collaborators are inputs:

- the pathname, method and query of `URL.parse`;
- `NodeCoreUtils.verifyAuth`, passed in as a function value (`Verifier`);
- the id from `generateNewSessionID`, passed in as a parameter that must not
  be registered yet;
- the publisher state cached by the publish side (`Media`, `players`).

`bp.stop()` is not shown (BufferPool is not part of this model). The model
assumes it resumes the `handleData` generator, which then leaves its loop and
runs its teardown (lines 125-138) exactly once. `Stop` therefore clears
`isStarting` and then runs `Teardown`.

The model follows the code as written, including these points that a reader might not expect:

- The format is the text between the first and the second `.`. So
  `/live/x.flv.bak` is accepted as stream `/live/x` (`UrlPath.PathAndFormat`).
- The sequence-header tags depend only on the codec id (10; 7 or 12). A null
  cached header is not skipped: framing it throws a `TypeError`, which ends
  the burst.
- Teardown removes the player only from the publisher that currently holds
  its stream path. It leaves every publisher's players set only when the
  player was attached to nothing else (`Session.StopDetaches`).
- `isPublisher` is never set. Role and stream path are only ever those of a
  player.

An exception inside `onPlay` stops the burst at that point. The chunks
already written stay written, and `postPlay` is not emitted. Two things
raise one: a body of 2^24 bytes or more (`writeUIntBE` throws `RangeError`),
and a null body (`TypeError`). The methods return the exception as `thrown`.

## Model

| member | source | states |
|---|---|---|
| `Bytes.BigEndian` | node_flv_session.js:242-249 | `writeUIntBE`/`writeUInt32BE`: a value written as exactly `width` bytes, high byte first; `Bytes.DecodeEncode` reads it back |
| `Bytes.DecodeEncode` | node_flv_session.js:242 | reading back a `writeUIntBE`/`writeUInt32BE` field gives the value whenever it fits the width |
| `Bytes.EncodeDecode` | node_flv_session.js:249 | every byte string is the big-endian encoding of its own value, so the decoder is injective |
| `Bytes.BigEndianByte` | node_flv_session.js:243-246 | byte `i` of an encoding is `(n >> 8*(width-1-i)) & 0xFF`, the shift-and-mask the source writes by hand |
| `Flv.CreateFlvMessage` | node_flv_session.js:239-251 | fails (RangeError) exactly when the body has 2^24 bytes or more; otherwise it is 15 + n bytes: the type id mod 256, DataSize n, timestamp bits 16-23, 8-15, 0-7, then bits 24-31, three zero StreamID bytes, the body verbatim, and a trailer that reads back as 11 + n |
| `Flv.TagBytes` | node_flv_session.js:240-250 | the concatenation of the 11-byte tag header, the body and the 4-byte trailer: 15 bytes more than the body |
| `Flv.TagBytesLayout` | node_flv_session.js:240-250 | where each field of the tag lies: type byte, DataSize at 1-3, timestamp bytes 1-3 then byte 0 at 4-7, zero StreamID at 8-10, the body, then the trailer |
| `Flv.TimestampBytes` | node_flv_session.js:243-246 | the four big-endian bytes of the timestamp's 32-bit pattern are its bits 24-31, 16-23, 8-15 and 0-7 |
| `Flv.ParseTag` | node_flv_session.js:240-250 | a reader of one tag plus trailer; an accepted tag is 15 bytes longer than its body |
| `Flv.TagRoundTrip` | node_flv_session.js:239-251 | decoding a framed tag recovers the type byte, the timestamp mod 2^32 and the body |
| `Flv.ParsedTagIsFramed` | node_flv_session.js:239-251 | every tag the reader accepts is exactly what the framer builds from its fields, whatever the chunk and message stream ids |
| `Flv.FramingIgnoresStreamIds` | node_flv_session.js:241-247 | `chunkStreamID` and `messageStreamID` do not affect the output |
| `Flv.VideoTagExample` | node_flv_session.js:241-247 | type 9 with timestamp 0x01020304 gives byte 0 = 9, bytes 4-7 = 02 03 04 01, bytes 8-10 = 0 |
| `Flv.FlvHeader` | node_flv_session.js:182-189 | 13 bytes: "FLV", version 1, flags = 4 for audio plus 1 for video, DataOffset 9, PreviousTagSize0 0 |
| `Flv.FlvHeaderRoundTrip` | node_flv_session.js:182-189 | a header reader recovers both type flags from the header the session builds |
| `Flv.ParsedHeaderIsBuilt` | node_flv_session.js:182-189 | every header the reader accepts is the one built for its flags |
| `Flv.AudioVideoFlags` | node_flv_session.js:183-189 | audio and video together give the flag byte 0b00000101 |
| `UrlPath.Split` | node_flv_session.js:54-55 | `split('.')` gives at least one piece and no piece contains '.' |
| `UrlPath.JoinSplit` | node_flv_session.js:54-55 | joining the pieces with '.' gives the pathname back |
| `UrlPath.SplitJoin` | node_flv_session.js:54-55 | splitting a join of '.'-free pieces gives the pieces back |
| `UrlPath.StreamPathOf` | node_flv_session.js:54 | the stream path is the text of the pathname up to its first '.', or all of it when there is none |
| `UrlPath.FormatOf` | node_flv_session.js:55 | the format is absent exactly when the pathname has no '.', and contains no '.' itself |
| `UrlPath.PathAndFormat` | node_flv_session.js:54-55 | `<path>.<format>` and `<path>.<format>.<more>` split into that path and that format |
| `UrlPath.FlvFormatShape` | node_flv_session.js:54-64 | an accepted format means the pathname is the stream path, ".flv", then nothing or a further '.' |
| `UrlPath.Mp4IsNotFlv` | node_flv_session.js:54-55 | "/live/x.mp4" has stream path "/live/x" and format "mp4" |
| `Session.Sign` | node_flv_session.js:156 | `playArgs.sign` is present exactly when the query has a `sign` key, and is its value |
| `Session.Frame` | node_flv_session.js:200-201 | one `res.write(createFlvMessage(h, body))`: after an earlier exception nothing happens; a null body throws TypeError and a body of 2^24 bytes or more throws RangeError, with nothing written; otherwise exactly one chunk is appended, which reads back as a tag of `h`'s type and timestamp carrying the body |
| `Session.JoinBurst` | node_flv_session.js:182-230 | the chunks of the join burst: the FLV header first, then at most three tags before the GOP cache, and, when nothing threw, the GOP cache verbatim at the end |
| `Session.OptionalTag` | node_flv_session.js:191-224 | each conditional tag of the burst reads back as a tag of its header's type and timestamp carrying its body |
| `Session.JoinBurstThrows` | node_flv_session.js:200-222 | the join burst throws exactly when one of its framed bodies is null or has 2^24 bytes or more |
| `Session.JoinBurstLayout` | node_flv_session.js:182-230 | when nothing throws, the writes are: header, metadata tag if metaData, AAC tag if codec 10, AVC/HEVC tag if codec 7 or 12, then the GOP cache verbatim and oldest first |
| `Session.PlayStep` | node_flv_session.js:149-233 | onPlay as a step; it keeps the registry valid and the session's fields unchanged |
| `Session.RunStep` | node_flv_session.js:51-91 | run as a step; it keeps the registry valid and keeps the id and role |
| `Session.TeardownStep` | node_flv_session.js:125-138 | the parser's teardown as a step; it keeps the registry valid |
| `Session.StopStep` | node_flv_session.js:105-114 | stop and reject as a step; they keep the registry valid |
| `Session.RunRejectsFormat` | node_flv_session.js:64-69 | a format other than "flv" gives 403 and an ended response; the registry is unchanged and play is never entered |
| `Session.Mp4RequestForbidden` | node_flv_session.js:53-69 | a request for "/live/x.mp4" gets 403 with no registry change, whatever the method |
| `Session.RunRejectsMethod` | node_flv_session.js:71-90 | with format "flv", POST and every method other than GET give 405 and an ended response, with no registry change |
| `Session.RunPlays` | node_flv_session.js:70-76 | a GET for "flv" records the stream path and the query, then plays |
| `Session.PlayWhenStopped` | node_flv_session.js:151-154 | on a stopped session, play only emits prePlay |
| `Session.PlayUnauthorized` | node_flv_session.js:155-162 | a signature the verifier refuses gives 401 and an ended response, with no registry change |
| `Session.PlayNotFound` | node_flv_session.js:165-169 | an unpublished path adds exactly this id to the idle set; no players set changes, nothing is written, and the session keeps running |
| `Session.PlayJoins` | node_flv_session.js:171-232 | a published path adds the id to that publisher's players and leaves every other entry, the idle set and the publishers map alone; the join burst is written after the earlier writes, the status code and ended flag are unchanged, and the events are prePlay then postPlay, or prePlay alone when the burst threw |
| `Session.StopWhenStopped` | node_flv_session.js:106 | stop on a stopped session changes nothing |
| `Session.StopIdempotent` | node_flv_session.js:105-114 | a second stop or reject leaves the world as the first one left it |
| `Session.StopDeregisters` | node_flv_session.js:105-138 | after stop, the id has left the sessions map and the idle set; the publisher of its stream path keeps its media and its other players and loses only this id; every other entry is unchanged, publishers are untouched, the response is ended, and the events added are donePlay (when that publisher exists) then doneConnect |
| `Session.RunKeepsAttached` | node_flv_session.js:73-174 | a session that was in no players set is afterwards only in the players set of the publisher of its requested path |
| `Session.StopDetaches` | node_flv_session.js:129-137 | under that invariant, a stopped session is in no publisher's players set |
| `Session.Response.Write` | node_flv_session.js:190 | `res.write(chunk)` appends the chunk and changes nothing else |
| `Session.Response.End` | node_flv_session.js:67 | `res.end()` marks the response ended and changes nothing else |
| `CoreContext.Context.Emit` | node_flv_session.js:57 | `context.nodeEvent.emit` appends the event to the log and leaves the registry unchanged |
| `Session.FlvSession.constructor` | node_flv_session.js:18-49 | a new session is registered under its fresh id; it is not starting, not a publisher, and has an empty stream path and no play args |
| `Session.FlvSession.Run` | node_flv_session.js:51-91 | updates the session, registry, events and response exactly as `RunStep` |
| `Session.FlvSession.OnPlay` | node_flv_session.js:149-174 | updates the registry, events and response exactly as `PlayStep` |
| `Session.FlvSession.SendJoinBurst` | node_flv_session.js:176-230 | appends exactly `JoinBurst(m).writes` to the response and returns its exception |
| `Session.FlvSession.SendTag` | node_flv_session.js:200-201 | one framed write: the response's chunks and the exception are those of `Frame`, and the status code and ended flag are unchanged |
| `Session.FlvSession.SendGopCache` | node_flv_session.js:226-230 | the loop writes every cached tag in cache order |
| `Session.FlvSession.Stop` | node_flv_session.js:105-110 | changes state exactly as `StopStep` |
| `Session.FlvSession.Reject` | node_flv_session.js:112-114 | changes state exactly as `StopStep` |
| `Session.FlvSession.OnReqClose` | node_flv_session.js:97-99 | a transport close stops the session as `StopStep` |
| `Session.FlvSession.OnReqError` | node_flv_session.js:101-103 | a transport error stops the session as `StopStep` |
| `Session.FlvSession.Teardown` | node_flv_session.js:125-138 | changes state exactly as `TeardownStep` |

## Left out

- Transport wiring (lines 34-46, 93-95): the WebSocket/HTTP event hookup, the aliasing of `res.write`/`res.end`, and `onReqData` pushing into the buffer. Byte intake is not modelled.
- BufferPool and the `handleData` loop (lines 116-124, `bp.init`, `bp.need`): BufferPool is not part of this model. Only the teardown that `bp.stop()` triggers is modelled, under the assumption stated above.
- Response headers (`setHeader`, lines 176-179), `allow_origin`, `TAG`, `connectTime` and logging carry no checkable logic.
- Notifications are recorded as the event name and the session id. The `connectCmdObj`, stream path and args payloads are not recorded.
- `onConnect`, `onPublish` and `respondUnpublish` (lines 141-147, 235-237) are empty or only end the response. The publish side fills in `Media` and the publishers map; the model takes both as given.
- Live relay after the join burst, and atomicity of the burst with respect to it: these belong to the publish side. The code runs on one thread.
- `URL.parse`: the pathname is given as a string (never null), and the query as a map with one value per key. Repeated keys, which JavaScript turns into arrays, are not modelled.
- Timestamps are integers. JavaScript numbers that are not integers are not modelled.
- The caller's handling of an exception that escapes `run`: the model only returns it.
- Registry integrity is assumed: every handler requires `Session.Coherent`. This says that every stream path in the publishers map names a registered publisher session, and that this session publishes nothing. The publish side keeps this so. The model does not cover the TypeError that `context.sessions.get(publisherId).players` (lines 131 and 172-174) raises when the map names a session that is missing.
- `Session.StopDetaches`: it proves absence from every players set only under the hypothesis `Attached`. The code removes the id only from the publisher that currently holds the stream path, so no stronger statement holds in general.
