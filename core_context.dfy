/** The process-wide shared state that sessions read and update (the module
    `node_core_ctx`): the sessions map, the publishers map, the idle-player
    set and the notification bus. */
module CoreContext {

  import opened Wrappers
  import opened Bytes

  type SessionId = string
  type StreamPath = string

  /** What the publish side has cached on a publisher session; the FLV session
      only reads it. A `None` is JavaScript's `null`. */
  datatype Media = Media(
    isFirstAudioReceived: bool,
    isFirstVideoReceived: bool,
    metaData: Option<seq<byte>>,
    audioCodec: int,
    aacSequenceHeader: Option<seq<byte>>,
    videoCodec: int,
    avcSequenceHeader: Option<seq<byte>>,
    flvGopCacheQueue: Option<seq<seq<byte>>>)

  /** An entry of the sessions map: a publishing session, with its media and
      the ids of the players it relays to, or any other session (players of
      either transport, connections that have not made a request yet). */
  datatype Entry =
    | Publisher(media: Media, players: set<SessionId>)
    | Other

  datatype Registry = Registry(
    sessions: map<SessionId, Entry>,
    publishers: map<StreamPath, SessionId>,
    idlePlayers: set<SessionId>)

  /** Every stream path is published by a registered publishing session;
      `sessions.get(publishers.get(path)).players` is then always defined. */
  predicate Valid(r: Registry)
  {
    forall path :: path in r.publishers ==>
      r.publishers[path] in r.sessions && r.sessions[r.publishers[path]].Publisher?
  }

  /** The notifications that `nodeEvent.emit` sends, with the emitting session. */
  datatype Event =
    | PreConnect(id: SessionId)
    | PostConnect(id: SessionId)
    | PrePlay(id: SessionId)
    | PostPlay(id: SessionId)
    | DonePlay(id: SessionId)
    | DoneConnect(id: SessionId)

  /** The shared context object. */
  class Context {
    var sessions: map<SessionId, Entry>
    var publishers: map<StreamPath, SessionId>
    var idlePlayers: set<SessionId>
    var events: seq<Event>

    constructor ()
      ensures Value() == Registry(map[], map[], {}) && events == []
    {
      sessions, publishers, idlePlayers, events := map[], map[], {}, [];
    }

    function Value(): Registry
      reads this
    {
      Registry(sessions, publishers, idlePlayers)
    }

    method Emit(e: Event)
      modifies this
      ensures events == old(events) + [e]
      ensures Value() == old(Value())
    {
      events := events + [e];
    }
  }

}
