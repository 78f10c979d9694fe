/** The HTTP-FLV / WebSocket-FLV player session (`NodeFlvSession`). The spec
    functions below describe each handler as a step on a `World` value (the
    shared registry, the notification log, the session's own fields and the
    response); the classes at the end are the session and response objects,
    whose methods update their fields in place and are proved to take exactly
    those steps. */
module Session {

  import opened Wrappers
  import opened Bytes
  import opened Flv
  import opened UrlPath
  import opened CoreContext

  /** The parsed query string of the request (`urlInfo.query`). */
  type Query = map<string, string>

  /** `config.auth`: whether play requests must be signed, and the secret. */
  datatype AuthPolicy = AuthPolicy(play: bool, secret: string)
  datatype Config = Config(auth: Option<AuthPolicy>)

  /** `NodeCoreUtils.verifyAuth(sign, streamPath, secret)`, supplied by the caller. */
  type Verifier = (Option<string>, StreamPath, string) -> bool

  /** `playArgs.sign`. */
  function Sign(q: Query): (sign: Option<string>)
    ensures sign.Some? <==> "sign" in q
    ensures sign.Some? ==> sign.value == q["sign"]
  {
    if "sign" in q then Some(q["sign"]) else None
  }

  /** The session's own fields. */
  datatype Player = Player(
    id: SessionId,
    isStarting: bool,
    isPublisher: bool,
    playStreamPath: StreamPath,
    playArgs: Option<Query>)

  /** The response as the session sees it: status code, the chunks written, in
      order, and whether `end()` was called. */
  datatype Reply = Reply(statusCode: int, writes: seq<seq<byte>>, ended: bool)

  datatype World = World(reg: Registry, events: seq<Event>, me: Player, reply: Reply)

  /** The world after a handler, and the exception it raised, if any. */
  datatype After = After(world: World, thrown: Option<Error>)

  /** The registry is valid and this session's id publishes no stream; every
      handler keeps this. */
  predicate Coherent(w: World)
  {
    && Valid(w.reg)
    && forall path :: path in w.reg.publishers ==> w.reg.publishers[path] != w.me.id
  }

  // ---------------------------------------------------------------------------
  // The join burst of onPlay

  const MetaDataHeader := RtmpHeader(5, 0, 0x12, 1)
  const AudioHeader := RtmpHeader(4, 0, 0x08, 1)
  const VideoHeader := RtmpHeader(6, 0, 0x09, 1)

  /** Audio codec id 10 (AAC) carries an out-of-band sequence header. */
  const AacCodecId := 10

  /** Video codec ids 7 (AVC) and 12 (HEVC) carry an out-of-band sequence header. */
  predicate NeedsVideoHeader(codec: int)
  {
    codec == 7 || codec == 12
  }

  /** The chunks written so far, and the exception that stopped the burst. */
  datatype Burst = Burst(writes: seq<seq<byte>>, thrown: Option<Error>)

  /** One `res.write(createFlvMessage(h, body))`, unless an earlier step threw;
      a null body or an oversized one throws before anything is written. */
  function Frame(b: Burst, h: RtmpHeader, body: Option<seq<byte>>): (r: Burst)
    ensures b.writes <= r.writes && |r.writes| <= |b.writes| + 1
    ensures b.thrown.Some? ==> r == b
    ensures r.thrown.None? <==> b.thrown.None? && body.Some? && |body.value| < MaxDataSize
    ensures b.thrown.None? && body.None? ==> r == b.(thrown := Some(TypeError))
    ensures b.thrown.None? && body.Some? && |body.value| >= MaxDataSize ==> r == b.(thrown := Some(RangeError))
    ensures r.thrown.None? ==>
      && |r.writes| == |b.writes| + 1
      && r.writes[..|b.writes|] == b.writes
      && ParseTag(r.writes[|b.writes|]) == Some(FlvTag((h.messageTypeId % 256) as byte, Uint32(h.timestamp), body.value))
  {
    if b.thrown.Some? then b
    else if body.None? then b.(thrown := Some(TypeError))
    else
      match CreateFlvMessage(h, body.value)
      case Ok(tag) =>
        TagRoundTrip(h, body.value);
        b.(writes := b.writes + [tag])
      case Err(e) => b.(thrown := Some(e))
  }

  function HeaderStage(m: Media): (r: Burst)
    ensures |r.writes| == 1 && r.writes[0] == FlvHeader(m.isFirstAudioReceived, m.isFirstVideoReceived)
  {
    Burst([FlvHeader(m.isFirstAudioReceived, m.isFirstVideoReceived)], None)
  }

  function MetaStage(m: Media): (r: Burst)
    ensures 1 <= |r.writes| <= 2 && r.writes[0] == FlvHeader(m.isFirstAudioReceived, m.isFirstVideoReceived)
  {
    if m.metaData.Some? then Frame(HeaderStage(m), MetaDataHeader, m.metaData) else HeaderStage(m)
  }

  function AudioStage(m: Media): (r: Burst)
    ensures 1 <= |r.writes| <= 3 && r.writes[0] == FlvHeader(m.isFirstAudioReceived, m.isFirstVideoReceived)
  {
    if m.audioCodec == AacCodecId then Frame(MetaStage(m), AudioHeader, m.aacSequenceHeader) else MetaStage(m)
  }

  function VideoStage(m: Media): (r: Burst)
    ensures 1 <= |r.writes| <= 4 && r.writes[0] == FlvHeader(m.isFirstAudioReceived, m.isFirstVideoReceived)
  {
    if NeedsVideoHeader(m.videoCodec) then Frame(AudioStage(m), VideoHeader, m.avcSequenceHeader) else AudioStage(m)
  }

  /** Everything onPlay writes to a joining player, in order. */
  function JoinBurst(m: Media): (r: Burst)
    ensures 1 <= |r.writes| <= 4 + |GopOf(m)|
    ensures r.writes[0] == FlvHeader(m.isFirstAudioReceived, m.isFirstVideoReceived)
    ensures r.thrown.None? ==> |GopOf(m)| < |r.writes| && r.writes[|r.writes| - |GopOf(m)|..] == GopOf(m)
  {
    var b := VideoStage(m);
    if b.thrown.None? && m.flvGopCacheQueue.Some? then b.(writes := b.writes + m.flvGopCacheQueue.value) else b
  }

  /** The cached GOP, or nothing when the publisher has no cache. */
  function GopOf(m: Media): (gop: seq<seq<byte>>)
  {
    if m.flvGopCacheQueue.Some? then m.flvGopCacheQueue.value else []
  }

  /** Every tag of the burst can be framed: each body it frames is present and
      shorter than 2^24 bytes. */
  predicate BurstFits(m: Media)
  {
    && (m.metaData.Some? ==> |m.metaData.value| < MaxDataSize)
    && (m.audioCodec == AacCodecId ==> m.aacSequenceHeader.Some? && |m.aacSequenceHeader.value| < MaxDataSize)
    && (NeedsVideoHeader(m.videoCodec) ==> m.avcSequenceHeader.Some? && |m.avcSequenceHeader.value| < MaxDataSize)
  }

  /** The burst throws exactly when one of its tags cannot be framed. */
  lemma JoinBurstThrows(m: Media)
    ensures JoinBurst(m).thrown.None? <==> BurstFits(m)
  {
  }

  /** The tag framed from `body` when `present`, and nothing otherwise; it
      reads back as a tag of the header's type and timestamp carrying `body`. */
  function OptionalTag(present: bool, h: RtmpHeader, body: Option<seq<byte>>): (tags: seq<seq<byte>>)
    requires present ==> body.Some? && |body.value| < MaxDataSize
    ensures |tags| == if present then 1 else 0
    ensures present ==>
      ParseTag(tags[0]) == Some(FlvTag((h.messageTypeId % 256) as byte, Uint32(h.timestamp), body.value))
  {
    if present then
      TagRoundTrip(h, body.value);
      [CreateFlvMessage(h, body.value).value]
    else []
  }

  /** The join burst, in order: the FLV header with the publisher's flags; the
      metadata tag (type 0x12, timestamp 0) if there is metadata; the AAC
      sequence header tag (type 8) if the audio codec is AAC; the AVC/HEVC
      sequence header tag (type 9) if the video codec is one of those; then the
      GOP cache verbatim, oldest first. */
  lemma JoinBurstLayout(m: Media)
    requires BurstFits(m)
    ensures JoinBurst(m) == Burst(
      [FlvHeader(m.isFirstAudioReceived, m.isFirstVideoReceived)]
      + OptionalTag(m.metaData.Some?, MetaDataHeader, m.metaData)
      + OptionalTag(m.audioCodec == AacCodecId, AudioHeader, m.aacSequenceHeader)
      + OptionalTag(NeedsVideoHeader(m.videoCodec), VideoHeader, m.avcSequenceHeader)
      + GopOf(m), None)
  {
    VideoStageFits(m);
  }

  /** The header, then the metadata tag if there is metadata. */
  lemma MetaStageFits(m: Media)
    requires BurstFits(m)
    ensures MetaStage(m) == Burst(
      [FlvHeader(m.isFirstAudioReceived, m.isFirstVideoReceived)]
      + OptionalTag(m.metaData.Some?, MetaDataHeader, m.metaData), None)
  {
    FrameFits(HeaderStage(m), m.metaData.Some?, MetaDataHeader, m.metaData);
  }

  /** Then the AAC sequence header tag if the audio codec is AAC. */
  lemma AudioStageFits(m: Media)
    requires BurstFits(m)
    ensures AudioStage(m) == Burst(
      [FlvHeader(m.isFirstAudioReceived, m.isFirstVideoReceived)]
      + OptionalTag(m.metaData.Some?, MetaDataHeader, m.metaData)
      + OptionalTag(m.audioCodec == AacCodecId, AudioHeader, m.aacSequenceHeader), None)
  {
    MetaStageFits(m);
    FrameFits(MetaStage(m), m.audioCodec == AacCodecId, AudioHeader, m.aacSequenceHeader);
  }

  /** Then the AVC/HEVC sequence header tag if the video codec is one of those. */
  lemma VideoStageFits(m: Media)
    requires BurstFits(m)
    ensures VideoStage(m) == Burst(
      [FlvHeader(m.isFirstAudioReceived, m.isFirstVideoReceived)]
      + OptionalTag(m.metaData.Some?, MetaDataHeader, m.metaData)
      + OptionalTag(m.audioCodec == AacCodecId, AudioHeader, m.aacSequenceHeader)
      + OptionalTag(NeedsVideoHeader(m.videoCodec), VideoHeader, m.avcSequenceHeader), None)
  {
    AudioStageFits(m);
    FrameFits(AudioStage(m), NeedsVideoHeader(m.videoCodec), VideoHeader, m.avcSequenceHeader);
  }

  /** A step that fits appends its optional tag. */
  lemma FrameFits(b: Burst, present: bool, h: RtmpHeader, body: Option<seq<byte>>)
    requires b.thrown.None?
    requires present ==> body.Some? && |body.value| < MaxDataSize
    ensures (if present then Frame(b, h, body) else b) == Burst(b.writes + OptionalTag(present, h, body), None)
  {
  }

  lemma AppendAssoc<T>(a: seq<T>, b: seq<T>, c: seq<T>)
    ensures a + (b + c) == a + b + c
  {
  }

  // ---------------------------------------------------------------------------
  // The handlers as steps

  /** onPlay. */
  function PlayStep(w: World, cfg: Config, verify: Verifier): (a: After)
    requires Coherent(w)
    ensures Coherent(a.world) && a.world.me == w.me
  {
    var id := w.me.id;
    var announced := w.(events := w.events + [PrePlay(id)]);
    if !w.me.isStarting then After(announced, None)
    else if cfg.auth.Some? && cfg.auth.value.play && w.me.playArgs.None?
    then After(announced, Some(TypeError))  // `this.playArgs.sign` with playArgs null
    else if cfg.auth.Some? && cfg.auth.value.play
         && !verify(Sign(w.me.playArgs.value), w.me.playStreamPath, cfg.auth.value.secret)
    then After(announced.(reply := w.reply.(statusCode := 401, ended := true)), None)
    else if w.me.playStreamPath !in w.reg.publishers
    then After(announced.(reg := w.reg.(idlePlayers := w.reg.idlePlayers + {id})), None)
    else
      var pid := w.reg.publishers[w.me.playStreamPath];
      var pub := w.reg.sessions[pid];
      var burst := JoinBurst(pub.media);
      After(World(w.reg.(sessions := w.reg.sessions[pid := pub.(players := pub.players + {id})]),
                  announced.events + (if burst.thrown.None? then [PostPlay(id)] else []),
                  w.me,
                  w.reply.(writes := w.reply.writes + burst.writes)),
            burst.thrown)
  }

  /** run, on a request with the given method, pathname and query. */
  function RunStep(w: World, cfg: Config, httpMethod: string, pathname: string, query: Query, verify: Verifier): (a: After)
    requires Coherent(w)
    ensures Coherent(a.world) && a.world.me.id == w.me.id && a.world.me.isPublisher == w.me.isPublisher
  {
    var id := w.me.id;
    var started := w.(events := w.events + [PreConnect(id)], me := w.me.(isStarting := true));
    if FormatOf(pathname) != Some("flv")
    then After(started.(reply := w.reply.(statusCode := 403, ended := true)), None)
    else
      var connected := started.(events := started.events + [PostConnect(id)]);
      if httpMethod == "GET"
      then PlayStep(connected.(me := connected.me.(playStreamPath := StreamPathOf(pathname), playArgs := Some(query))), cfg, verify)
      else After(connected.(reply := w.reply.(statusCode := 405, ended := true)), None)
  }

  /** The tail of the handleData parser, run once when it is resumed after stop. */
  function TeardownStep(w: World): (w': World)
    requires Coherent(w)
    ensures Coherent(w') && w'.me == w.me
  {
    var id := w.me.id;
    var path := w.me.playStreamPath;
    var detach := !w.me.isPublisher && path in w.reg.publishers;
    var sessions :=
      if detach then
        var pid := w.reg.publishers[path];
        var pub := w.reg.sessions[pid];
        w.reg.sessions[pid := pub.(players := pub.players - {id})]
      else w.reg.sessions;
    World(Registry(sessions - {id}, w.reg.publishers, w.reg.idlePlayers - {id}),
          w.events + (if detach then [DonePlay(id)] else []) + [DoneConnect(id)],
          w.me,
          w.reply.(ended := true))
  }

  /** stop (and reject, which only calls it). */
  function StopStep(w: World): (w': World)
    requires Coherent(w)
    ensures Coherent(w')
  {
    if w.me.isStarting then TeardownStep(w.(me := w.me.(isStarting := false))) else w
  }

  // ---------------------------------------------------------------------------
  // What the handlers promise

  /** A request whose format is not "flv" gets 403 and an ended response; the
      registry is untouched and play is never entered. */
  lemma RunRejectsFormat(w: World, cfg: Config, httpMethod: string, pathname: string, query: Query, verify: Verifier)
    requires Coherent(w) && FormatOf(pathname) != Some("flv")
    ensures var a := RunStep(w, cfg, httpMethod, pathname, query, verify);
      && a.world.reg == w.reg
      && a.world.reply == w.reply.(statusCode := 403, ended := true)
      && a.world.events == w.events + [PreConnect(w.me.id)]
      && a.world.me == w.me.(isStarting := true)
      && a.thrown.None?
  {
  }

  /** "/live/x.mp4" is refused with 403 whatever the method. */
  lemma Mp4RequestForbidden(w: World, cfg: Config, httpMethod: string, query: Query, verify: Verifier)
    requires Coherent(w)
    ensures var a := RunStep(w, cfg, httpMethod, "/live/x.mp4", query, verify);
      a.world.reg == w.reg && a.world.reply.statusCode == 403 && a.world.reply.ended
  {
    Mp4IsNotFlv();
  }

  /** A "flv" request with any method but GET gets 405 and an ended response,
      without a registry change and without play being entered. */
  lemma RunRejectsMethod(w: World, cfg: Config, httpMethod: string, pathname: string, query: Query, verify: Verifier)
    requires Coherent(w) && FormatOf(pathname) == Some("flv") && httpMethod != "GET"
    ensures var a := RunStep(w, cfg, httpMethod, pathname, query, verify);
      && a.world.reg == w.reg
      && a.world.reply == w.reply.(statusCode := 405, ended := true)
      && a.world.events == w.events + [PreConnect(w.me.id), PostConnect(w.me.id)]
      && a.world.me == w.me.(isStarting := true)
  {
  }

  /** A GET for "<path>.flv" records the stream path and the query and plays. */
  lemma RunPlays(w: World, cfg: Config, pathname: string, query: Query, verify: Verifier)
    requires Coherent(w) && FormatOf(pathname) == Some("flv")
    ensures var started := w.(events := w.events + [PreConnect(w.me.id), PostConnect(w.me.id)],
                              me := w.me.(isStarting := true, playStreamPath := StreamPathOf(pathname), playArgs := Some(query)));
      RunStep(w, cfg, "GET", pathname, query, verify) == PlayStep(started, cfg, verify)
  {
  }

  /** On a stopped session play only announces itself. */
  lemma PlayWhenStopped(w: World, cfg: Config, verify: Verifier)
    requires Coherent(w) && !w.me.isStarting
    ensures PlayStep(w, cfg, verify) == After(w.(events := w.events + [PrePlay(w.me.id)]), None)
  {
  }

  /** A refused signature gets 401 and an ended response, and nothing else. */
  lemma PlayUnauthorized(w: World, cfg: Config, verify: Verifier)
    requires Coherent(w) && w.me.playArgs.Some? && w.me.isStarting
    requires cfg.auth.Some? && cfg.auth.value.play
    requires !verify(Sign(w.me.playArgs.value), w.me.playStreamPath, cfg.auth.value.secret)
    ensures var a := PlayStep(w, cfg, verify);
      && a.world.reg == w.reg
      && a.world.reply == w.reply.(statusCode := 401, ended := true)
      && a.thrown.None?
  {
  }

  /** The play admission rule: without an auth policy for play, or with a
      signature the verifier accepts, the request goes on to the registry. */
  predicate Admitted(me: Player, cfg: Config, verify: Verifier)
  {
    || !(cfg.auth.Some? && cfg.auth.value.play)
    || (me.playArgs.Some? && verify(Sign(me.playArgs.value), me.playStreamPath, cfg.auth.value.secret))
  }

  /** Playing an unpublished path parks the session as an idle player and
      nothing more: one id joins the idle set, no players set changes, nothing
      is written and the session keeps running. */
  lemma PlayNotFound(w: World, cfg: Config, verify: Verifier)
    requires Coherent(w) && w.me.isStarting && Admitted(w.me, cfg, verify)
    requires w.me.playStreamPath !in w.reg.publishers
    ensures var a := PlayStep(w, cfg, verify);
      && a.world.reg.idlePlayers == w.reg.idlePlayers + {w.me.id}
      && (w.me.id !in w.reg.idlePlayers ==> |a.world.reg.idlePlayers| == |w.reg.idlePlayers| + 1)
      && a.world.reg.sessions == w.reg.sessions
      && a.world.reg.publishers == w.reg.publishers
      && a.world.reply == w.reply
      && a.world.me.isStarting
      && a.thrown.None?
  {
  }

  /** Playing a published path adds the session to that publisher's players,
      leaves every other entry alone, and writes the join burst after whatever
      was written before. */
  lemma PlayJoins(w: World, cfg: Config, verify: Verifier)
    requires Coherent(w) && w.me.isStarting && Admitted(w.me, cfg, verify)
    requires w.me.playStreamPath in w.reg.publishers
    ensures var a := PlayStep(w, cfg, verify);
      var pid := w.reg.publishers[w.me.playStreamPath];
      var pub := w.reg.sessions[pid];
      && a.world.reg.sessions.Keys == w.reg.sessions.Keys
      && a.world.reg.sessions[pid] == Publisher(pub.media, pub.players + {w.me.id})
      && (forall k :: k in w.reg.sessions && k != pid ==> a.world.reg.sessions[k] == w.reg.sessions[k])
      && a.world.reg.publishers == w.reg.publishers
      && a.world.reg.idlePlayers == w.reg.idlePlayers
      && a.world.reply.writes == w.reply.writes + JoinBurst(pub.media).writes
      && a.thrown == JoinBurst(pub.media).thrown
      && (a.thrown.None? <==> BurstFits(pub.media))
      && a.world.reply.statusCode == w.reply.statusCode
      && a.world.reply.ended == w.reply.ended
      && (a.thrown.None? ==> a.world.events == w.events + [PrePlay(w.me.id), PostPlay(w.me.id)])
      && (a.thrown.Some? ==> a.world.events == w.events + [PrePlay(w.me.id)])
  {
    JoinBurstThrows(w.reg.sessions[w.reg.publishers[w.me.playStreamPath]].media);
  }

  /** A stopped session is left as it is by stop and reject. */
  lemma StopWhenStopped(w: World)
    requires Coherent(w) && !w.me.isStarting
    ensures StopStep(w) == w
  {
  }

  /** stop is idempotent: a second stop (or a reject after it) changes nothing. */
  lemma StopIdempotent(w: World)
    requires Coherent(w)
    ensures StopStep(StopStep(w)) == StopStep(w)
  {
  }

  /** Stopping a running player deregisters it: it leaves the sessions map,
      the idle set, and the players set of the publisher of its stream path,
      whose other players stay; every other entry is unchanged, the publishers
      map is untouched, the response is ended, and donePlay (when it was
      detached from a publisher) and doneConnect are emitted. */
  lemma StopDeregisters(w: World)
    requires Coherent(w) && w.me.isStarting && !w.me.isPublisher
    ensures var w' := StopStep(w);
      var id, path := w.me.id, w.me.playStreamPath;
      var detach := path in w.reg.publishers;
      && id !in w'.reg.sessions
      && id !in w'.reg.idlePlayers
      && w'.reg.idlePlayers == w.reg.idlePlayers - {id}
      && w'.reg.sessions.Keys == w.reg.sessions.Keys - {id}
      && w'.reg.publishers == w.reg.publishers
      && (detach ==>
            var pid := w.reg.publishers[path];
            var pub := w.reg.sessions[pid];
            && pid in w'.reg.sessions
            && w'.reg.sessions[pid] == pub.(players := pub.players - {id})
            && id !in w'.reg.sessions[pid].players)
      && (forall k :: k in w'.reg.sessions && (!detach || k != w.reg.publishers[path]) ==>
            w'.reg.sessions[k] == w.reg.sessions[k])
      && !w'.me.isStarting
      && w'.reply == w.reply.(ended := true)
      && w'.events == w.events + (if detach then [DonePlay(id)] else []) + [DoneConnect(id)]
  {
  }

  /** The player's id is in no players set but (perhaps) that of the
      publisher of its own stream path. */
  predicate Attached(w: World)
  {
    forall pid :: pid in w.reg.sessions && w.reg.sessions[pid].Publisher? && w.me.id in w.reg.sessions[pid].players ==>
      w.me.playStreamPath in w.reg.publishers && w.reg.publishers[w.me.playStreamPath] == pid
  }

  /** The player's id is in no players set at all. */
  predicate Detached(w: World)
  {
    forall pid :: pid in w.reg.sessions && w.reg.sessions[pid].Publisher? ==> w.me.id !in w.reg.sessions[pid].players
  }

  /** A request on a session in no players set leaves it attached at most to
      the publisher of the path it asked for. */
  lemma RunKeepsAttached(w: World, cfg: Config, httpMethod: string, pathname: string, query: Query, verify: Verifier)
    requires Coherent(w) && Detached(w)
    ensures Attached(RunStep(w, cfg, httpMethod, pathname, query, verify).world)
  {
  }

  /** Under that invariant, a stopped session is in no publisher's players set. */
  lemma StopDetaches(w: World)
    requires Coherent(w) && Attached(w) && w.me.isStarting && !w.me.isPublisher
    ensures Detached(StopStep(w))
  {
  }


  // ---------------------------------------------------------------------------
  // The objects

  /** The transport's response object (`res`). */
  class Response {
    var statusCode: int
    var writes: seq<seq<byte>>
    var ended: bool

    constructor ()
      ensures Value() == Reply(200, [], false)
    {
      statusCode, writes, ended := 200, [], false;
    }

    function Value(): Reply
      reads this
    {
      Reply(statusCode, writes, ended)
    }

    /** res.write(chunk). */
    method Write(chunk: seq<byte>)
      modifies this
      ensures Value() == old(Value()).(writes := old(writes) + [chunk])
    {
      writes := writes + [chunk];
    }

    /** res.end(). */
    method End()
      modifies this
      ensures Value() == old(Value()).(ended := true)
    {
      ended := true;
    }
  }

  /** One player connection. */
  class FlvSession {
    const id: SessionId
    const config: Config
    const ctx: Context
    const res: Response
    var isStarting: bool
    var isPublisher: bool
    var playStreamPath: StreamPath
    var playArgs: Option<Query>

    function Me(): Player
      reads this
    {
      Player(id, isStarting, isPublisher, playStreamPath, playArgs)
    }

    function State(): World
      reads this, ctx, res
    {
      World(ctx.Value(), ctx.events, Me(), res.Value())
    }

    /** The session is registered under its id as soon as it exists. The id
        stands for `generateNewSessionID()`, which returns an unused id;
        `isStarting` is undefined, hence false, until `run`. */
    constructor (config: Config, id: SessionId, ctx: Context, res: Response)
      requires id !in ctx.sessions
      modifies ctx
      ensures this.id == id && this.config == config && this.ctx == ctx && this.res == res
      ensures Me() == Player(id, false, false, "", None)
      ensures ctx.Value() == old(ctx.Value()).(sessions := old(ctx.sessions)[id := Other])
      ensures ctx.events == old(ctx.events)
      ensures Valid(old(ctx.Value())) ==> Coherent(State())
    {
      this.id := id;
      this.config := config;
      this.ctx := ctx;
      this.res := res;
      isStarting := false;
      isPublisher := false;
      playStreamPath := "";
      playArgs := None;
      new;
      ctx.sessions := ctx.sessions[id := Other];
    }

    /** run: check the format and the method, then play. */
    method Run(httpMethod: string, pathname: string, query: Query, verify: Verifier) returns (thrown: Option<Error>)
      requires Coherent(State())
      modifies this, ctx, res
      ensures State() == RunStep(old(State()), config, httpMethod, pathname, query, verify).world
      ensures thrown == RunStep(old(State()), config, httpMethod, pathname, query, verify).thrown
    {
      var streamPath := StreamPathOf(pathname);
      var format := FormatOf(pathname);
      ctx.Emit(PreConnect(id));
      isStarting := true;
      if format != Some("flv") {
        res.statusCode := 403;
        res.End();
        return None;
      }
      ctx.Emit(PostConnect(id));
      if httpMethod == "GET" {
        playStreamPath := streamPath;
        playArgs := Some(query);
        thrown := OnPlay(verify);
      } else {
        // POST (publishing over HTTP) is refused like every other method.
        res.statusCode := 405;
        res.End();
        thrown := None;
      }
    }

    /** onPlay: authenticate, then join the publisher or wait as an idle player. */
    method OnPlay(verify: Verifier) returns (thrown: Option<Error>)
      requires Coherent(State())
      modifies ctx, res
      ensures State() == PlayStep(old(State()), config, verify).world
      ensures thrown == PlayStep(old(State()), config, verify).thrown
    {
      ctx.Emit(PrePlay(id));
      if !isStarting {
        return None;
      }
      if config.auth.Some? && config.auth.value.play {
        if playArgs.None? {
          return Some(TypeError);
        }
        var results := verify(Sign(playArgs.value), playStreamPath, config.auth.value.secret);
        if !results {
          res.statusCode := 401;
          res.End();
          return None;
        }
      }
      if playStreamPath !in ctx.publishers {
        ctx.idlePlayers := ctx.idlePlayers + {id};
        return None;
      }
      var publisherId := ctx.publishers[playStreamPath];
      var publisher := ctx.sessions[publisherId];
      ctx.sessions := ctx.sessions[publisherId := publisher.(players := publisher.players + {id})];
      thrown := SendJoinBurst(publisher.media);
      if thrown.None? {
        ctx.Emit(PostPlay(id));
      }
    }

    /** The writes of onPlay after the player has joined: the FLV header, the
        metadata and sequence header tags, then the GOP cache. */
    method SendJoinBurst(m: Media) returns (thrown: Option<Error>)
      modifies res
      ensures res.Value() == old(res.Value()).(writes := old(res.writes) + JoinBurst(m).writes)
      ensures thrown == JoinBurst(m).thrown
    {
      ghost var before := res.writes;
      res.Write(FlvHeader(m.isFirstAudioReceived, m.isFirstVideoReceived));
      if m.metaData.Some? {
        thrown := SendTag(MetaDataHeader, m.metaData, before, HeaderStage(m));
        if thrown.Some? {
          assert JoinBurst(m) == MetaStage(m);
          return;
        }
      }
      if m.audioCodec == AacCodecId {
        thrown := SendTag(AudioHeader, m.aacSequenceHeader, before, MetaStage(m));
        if thrown.Some? {
          assert JoinBurst(m) == AudioStage(m);
          return;
        }
      }
      if NeedsVideoHeader(m.videoCodec) {
        thrown := SendTag(VideoHeader, m.avcSequenceHeader, before, AudioStage(m));
        if thrown.Some? {
          assert JoinBurst(m) == VideoStage(m);
          return;
        }
      }
      assert res.writes == before + VideoStage(m).writes && VideoStage(m).thrown.None?;
      ghost var sent := res.writes;
      if m.flvGopCacheQueue.Some? {
        SendGopCache(m.flvGopCacheQueue.value);
        assert JoinBurst(m).writes == VideoStage(m).writes + m.flvGopCacheQueue.value;
        assert res.writes == sent + m.flvGopCacheQueue.value;
        AppendAssoc(before, VideoStage(m).writes, m.flvGopCacheQueue.value);
      } else {
        assert JoinBurst(m) == VideoStage(m);
      }
      return None;
    }

    /** The loop over the publisher's GOP cache: every cached tag, in order. */
    method SendGopCache(queue: seq<seq<byte>>)
      modifies res
      ensures res.Value() == old(res.Value()).(writes := old(res.writes) + queue)
    {
      for i := 0 to |queue|
        invariant res.Value() == old(res.Value()).(writes := old(res.writes) + queue[..i])
      {
        res.Write(queue[i]);
        assert queue[..i + 1] == queue[..i] + [queue[i]];
      }
      assert queue[..|queue|] == queue;
    }

    /** One `res.write(createFlvMessage(h, body))` of the burst `b` written so
        far after `prefix`; nothing is written when framing throws. */
    method SendTag(h: RtmpHeader, body: Option<seq<byte>>, ghost prefix: seq<seq<byte>>, ghost b: Burst)
      returns (thrown: Option<Error>)
      requires b.thrown.None? && res.writes == prefix + b.writes
      modifies res
      ensures res.writes == prefix + Frame(b, h, body).writes && thrown == Frame(b, h, body).thrown
      ensures res.statusCode == old(res.statusCode) && res.ended == old(res.ended)
    {
      if body.None? {
        return Some(TypeError);
      }
      var tag := CreateFlvMessage(h, body.value);
      if tag.Err? {
        return Some(tag.error);
      }
      res.Write(tag.value);
      return None;
    }

    /** stop: the first call ends the session; `bp.stop()` resumes the parser,
        which leaves its loop and runs its teardown once. */
    method Stop()
      requires Coherent(State())
      modifies this, ctx, res
      ensures State() == StopStep(old(State()))
    {
      if isStarting {
        isStarting := false;
        Teardown();
      }
    }

    /** The transport's close notification. */
    method OnReqClose()
      requires Coherent(State())
      modifies this, ctx, res
      ensures State() == StopStep(old(State()))
    {
      Stop();
    }

    /** The transport's error notification: handled exactly like a close. */
    method OnReqError()
      requires Coherent(State())
      modifies this, ctx, res
      ensures State() == StopStep(old(State()))
    {
      Stop();
    }

    /** reject: stop on behalf of someone else. */
    method Reject()
      requires Coherent(State())
      modifies this, ctx, res
      ensures State() == StopStep(old(State()))
    {
      Stop();
    }

    /** The tail of handleData after its loop. */
    method Teardown()
      requires Coherent(State())
      modifies ctx, res
      ensures State() == TeardownStep(old(State()))
    {
      if !isPublisher {
        if playStreamPath in ctx.publishers {
          var publisherId := ctx.publishers[playStreamPath];
          var publisher := ctx.sessions[publisherId];
          ctx.sessions := ctx.sessions[publisherId := publisher.(players := publisher.players - {id})];
          ctx.Emit(DonePlay(id));
        }
      }
      ctx.Emit(DoneConnect(id));
      res.End();
      ctx.idlePlayers := ctx.idlePlayers - {id};
      ctx.sessions := ctx.sessions - {id};
    }
  }


}
