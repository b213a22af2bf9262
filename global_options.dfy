/** The global option writes of `setup_http_session` and `setup_options`:
    each write is guarded by the truthiness of one namespace field, except
    the last three writes of `setup_options`. */
module GlobalOptions {
  import opened Values
  import opened Sessions

  /** How a guarded write turns the field's value into the stored value. */
  datatype Conversion = AsIs | ToDict | ToTuple | Fixed(v: Value)

  /** `if args.<field>: session.set_option(<key>, <converted value>)`. */
  datatype Rule = Rule(field: string, key: string, conv: Conversion)

  function Converted(w: Rule, args: Store): Value {
    var v := Get(args, w.field);
    match w.conv
    case AsIs => v
    case ToDict => AsDict(v)
    case ToTuple => AsTuple(v)
    case Fixed(c) => c
  }

  /** What one guarded write leaves at its key, given what was there. */
  function Outcome(w: Rule, args: Store, prior: Option<Value>): Option<Value> {
    if Truthy(Get(args, w.field)) then Some(Converted(w, args)) else prior
  }

  /** The store after one guarded write: only the rule's key can change. */
  function Apply(w: Rule, args: Store, o: Store): (r: Store)
    ensures forall k :: Lookup(r, k) == if k == w.key then Outcome(w, args, Lookup(o, k)) else Lookup(o, k)
  {
    if Truthy(Get(args, w.field)) then o[w.key := Converted(w, args)] else o
  }

  /** One guarded write, `if args.<field>: session.set_option(<key>, ...)`,
      the statement both setup functions repeat. */
  method SetOptionIf(session: Session, args: Store, w: Rule)
    modifies session`options
    ensures session.options == Apply(w, args, old(session.options))
  {
    if Truthy(Get(args, w.field)) {
      session.SetOption(w.key, Converted(w, args));
    }
  }

  /** A write applied a second time with the same namespace changes nothing. */
  lemma OutcomeIdempotent(w: Rule, args: Store, prior: Option<Value>)
    ensures Outcome(w, args, Outcome(w, args, prior)) == Outcome(w, args, prior)
  {
  }

  // The writes of `setup_http_session`, in source order.
  const HttpProxy := Rule("http_proxy", "http-proxy", AsIs)
  const HttpsProxy := Rule("https_proxy", "https-proxy", AsIs)
  const HttpCookie := Rule("http_cookie", "http-cookies", ToDict)
  const HttpHeader := Rule("http_header", "http-headers", ToDict)
  const HttpQueryParam := Rule("http_query_param", "http-query-params", ToDict)
  const HttpIgnoreEnv := Rule("http_ignore_env", "http-trust-env", Fixed(BoolV(false)))
  const HttpNoSslVerify := Rule("http_no_ssl_verify", "http-ssl-verify", Fixed(BoolV(false)))
  const HttpDisableDh := Rule("http_disable_dh", "http-disable-dh", Fixed(BoolV(true)))
  const HttpSslCert := Rule("http_ssl_cert", "http-ssl-cert", AsIs)
  const HttpSslCertCrtKey := Rule("http_ssl_cert_crt_key", "http-ssl-cert", ToTuple)
  const HttpTimeout := Rule("http_timeout", "http-timeout", AsIs)
  const HttpCookies := Rule("http_cookies", "http-cookies", AsIs)
  const HttpHeaders := Rule("http_headers", "http-headers", AsIs)
  const HttpQueryParams := Rule("http_query_params", "http-query-params", AsIs)

  /** The keys `setup_http_session` may write. */
  predicate HttpKey(k: string) {
    k == "http-proxy" ||
    k == "https-proxy" ||
    k == "http-cookies" ||
    k == "http-headers" ||
    k == "http-query-params" ||
    k == "http-trust-env" ||
    k == "http-ssl-verify" ||
    k == "http-disable-dh" ||
    k == "http-ssl-cert" ||
    k == "http-timeout"
  }

  /** The global store after `setup_http_session`, one guarded write after
      the other in source order. */
  function HttpSession(o: Store, args: Store): Store {
    var o1 := Apply(HttpProxy, args, o);
    var o2 := Apply(HttpsProxy, args, o1);
    var o3 := Apply(HttpCookie, args, o2);
    var o4 := Apply(HttpHeader, args, o3);
    var o5 := Apply(HttpQueryParam, args, o4);
    var o6 := Apply(HttpIgnoreEnv, args, o5);
    var o7 := Apply(HttpNoSslVerify, args, o6);
    var o8 := Apply(HttpDisableDh, args, o7);
    var o9 := Apply(HttpSslCert, args, o8);
    var o10 := Apply(HttpSslCertCrtKey, args, o9);
    var o11 := Apply(HttpTimeout, args, o10);
    var o12 := Apply(HttpCookies, args, o11);
    var o13 := Apply(HttpHeaders, args, o12);
    Apply(HttpQueryParams, args, o13)
  }

  /** `setup_http_session` leaves every key outside the HTTP keys as it was. */
  lemma HttpSessionUntouched(o: Store, args: Store)
    ensures forall k :: !HttpKey(k) ==> Lookup(HttpSession(o, args), k) == Lookup(o, k)
  {
  }

  /** The same for two writes to one key applied twice in turn. */
  lemma OutcomePairIdempotent(w1: Rule, w2: Rule, args: Store, prior: Option<Value>)
    ensures Outcome(w2, args, Outcome(w1, args, Outcome(w2, args, Outcome(w1, args, prior)))) ==
      Outcome(w2, args, Outcome(w1, args, prior))
  {
  }

  /** What `setup_http_session` does to each HTTP key of `o`, as `r` shows
      it: a key with one writer gets that writer's outcome; a key with two
      writers gets the later writer's outcome over the earlier one's. */
  predicate HttpWritesHold(o: Store, r: Store, args: Store) {
    Lookup(r, "http-proxy") == Outcome(HttpProxy, args, Lookup(o, "http-proxy")) &&
    Lookup(r, "https-proxy") == Outcome(HttpsProxy, args, Lookup(o, "https-proxy")) &&
    Lookup(r, "http-cookies") == Outcome(HttpCookies, args, Outcome(HttpCookie, args, Lookup(o, "http-cookies"))) &&
    Lookup(r, "http-headers") == Outcome(HttpHeaders, args, Outcome(HttpHeader, args, Lookup(o, "http-headers"))) &&
    Lookup(r, "http-query-params") == Outcome(HttpQueryParams, args, Outcome(HttpQueryParam, args, Lookup(o, "http-query-params"))) &&
    Lookup(r, "http-trust-env") == Outcome(HttpIgnoreEnv, args, Lookup(o, "http-trust-env")) &&
    Lookup(r, "http-ssl-verify") == Outcome(HttpNoSslVerify, args, Lookup(o, "http-ssl-verify")) &&
    Lookup(r, "http-disable-dh") == Outcome(HttpDisableDh, args, Lookup(o, "http-disable-dh")) &&
    Lookup(r, "http-ssl-cert") == Outcome(HttpSslCertCrtKey, args, Outcome(HttpSslCert, args, Lookup(o, "http-ssl-cert"))) &&
    Lookup(r, "http-timeout") == Outcome(HttpTimeout, args, Lookup(o, "http-timeout"))
  }

  /** Each HTTP key gets the value its writes leave, the later of two writes
      to one key winning. */
  lemma HttpSessionWrites(o: Store, args: Store)
    ensures HttpWritesHold(o, HttpSession(o, args), args)
  {
  }

  /** A store that agrees with `once` outside the HTTP keys and gets the
      same per-key outcomes starting from `once` as `once` got from `o` is
      `once` itself. */
  lemma HttpRewriteStable(o: Store, once: Store, twice: Store, args: Store)
    requires HttpWritesHold(o, once, args) && HttpWritesHold(once, twice, args)
    requires forall k :: !HttpKey(k) ==> Lookup(twice, k) == Lookup(once, k)
    ensures twice == once
  {
    forall k ensures Lookup(twice, k) == Lookup(once, k) {
      if !HttpKey(k) {
      } else if k == "http-proxy" {
        OutcomeIdempotent(HttpProxy, args, Lookup(o, k));
      } else if k == "https-proxy" {
        OutcomeIdempotent(HttpsProxy, args, Lookup(o, k));
      } else if k == "http-trust-env" {
        OutcomeIdempotent(HttpIgnoreEnv, args, Lookup(o, k));
      } else if k == "http-ssl-verify" {
        OutcomeIdempotent(HttpNoSslVerify, args, Lookup(o, k));
      } else if k == "http-disable-dh" {
        OutcomeIdempotent(HttpDisableDh, args, Lookup(o, k));
      } else if k == "http-timeout" {
        OutcomeIdempotent(HttpTimeout, args, Lookup(o, k));
      } else if k == "http-cookies" {
        OutcomePairIdempotent(HttpCookie, HttpCookies, args, Lookup(o, k));
      } else if k == "http-headers" {
        OutcomePairIdempotent(HttpHeader, HttpHeaders, args, Lookup(o, k));
      } else if k == "http-query-params" {
        OutcomePairIdempotent(HttpQueryParam, HttpQueryParams, args, Lookup(o, k));
      } else {
        assert k == "http-ssl-cert";
        OutcomePairIdempotent(HttpSslCert, HttpSslCertCrtKey, args, Lookup(o, k));
      }
    }
    StoreEquality(twice, once);
  }

  /** Running `setup_http_session` twice with the same namespace gives the
      store that running it once gives. */
  lemma HttpSessionIdempotent(o: Store, args: Store)
    ensures HttpSession(HttpSession(o, args), args) == HttpSession(o, args)
  {
    var once := HttpSession(o, args);
    HttpSessionWrites(o, args);
    HttpSessionWrites(once, args);
    HttpSessionUntouched(once, args);
    HttpRewriteStable(o, once, HttpSession(once, args), args);
  }

  // The guarded writes of `setup_options`, in source order.
  const HlsLiveEdge := Rule("hls_live_edge", "hls-live-edge", AsIs)
  const HlsSegmentAttempts := Rule("hls_segment_attempts", "hls-segment-attempts", AsIs)
  const HlsPlaylistReloadAttempts := Rule("hls_playlist_reload_attempts", "hls-playlist-reload-attempts", AsIs)
  const HlsSegmentThreads := Rule("hls_segment_threads", "hls-segment-threads", AsIs)
  const HlsSegmentTimeout := Rule("hls_segment_timeout", "hls-segment-timeout", AsIs)
  const HlsSegmentIgnoreNames := Rule("hls_segment_ignore_names", "hls-segment-ignore-names", AsIs)
  const HlsTimeout := Rule("hls_timeout", "hls-timeout", AsIs)
  const HlsAudioSelect := Rule("hls_audio_select", "hls-audio-select", AsIs)
  const HlsStartOffset := Rule("hls_start_offset", "hls-start-offset", AsIs)
  const HlsDuration := Rule("hls_duration", "hls-duration", AsIs)
  const HlsLiveRestart := Rule("hls_live_restart", "hls-live-restart", AsIs)
  const HdsLiveEdge := Rule("hds_live_edge", "hds-live-edge", AsIs)
  const HdsSegmentAttempts := Rule("hds_segment_attempts", "hds-segment-attempts", AsIs)
  const HdsSegmentThreads := Rule("hds_segment_threads", "hds-segment-threads", AsIs)
  const HdsSegmentTimeout := Rule("hds_segment_timeout", "hds-segment-timeout", AsIs)
  const HdsTimeout := Rule("hds_timeout", "hds-timeout", AsIs)
  const HttpStreamTimeout := Rule("http_stream_timeout", "http-stream-timeout", AsIs)
  const RingbufferSize := Rule("ringbuffer_size", "ringbuffer-size", AsIs)
  const RtmpProxy := Rule("rtmp_proxy", "rtmp-proxy", AsIs)
  const RtmpRtmpdump := Rule("rtmp_rtmpdump", "rtmp-rtmpdump", AsIs)
  const RtmpTimeout := Rule("rtmp_timeout", "rtmp-timeout", AsIs)
  const StreamSegmentAttempts := Rule("stream_segment_attempts", "stream-segment-attempts", AsIs)
  const StreamSegmentThreads := Rule("stream_segment_threads", "stream-segment-threads", AsIs)
  const StreamSegmentTimeout := Rule("stream_segment_timeout", "stream-segment-timeout", AsIs)
  const StreamTimeout := Rule("stream_timeout", "stream-timeout", AsIs)
  const FfmpegFfmpeg := Rule("ffmpeg_ffmpeg", "ffmpeg-ffmpeg", AsIs)
  const FfmpegVerbose := Rule("ffmpeg_verbose", "ffmpeg-verbose", AsIs)
  const FfmpegVerbosePath := Rule("ffmpeg_verbose_path", "ffmpeg-verbose-path", AsIs)
  const FfmpegVideoTranscode := Rule("ffmpeg_video_transcode", "ffmpeg-video-transcode", AsIs)
  const FfmpegAudioTranscode := Rule("ffmpeg_audio_transcode", "ffmpeg-audio-transcode", AsIs)

  /** The keys `setup_options` may write. */
  predicate OptionKey(k: string) {
    k == "hls-live-edge" ||
    k == "hls-segment-attempts" ||
    k == "hls-playlist-reload-attempts" ||
    k == "hls-segment-threads" ||
    k == "hls-segment-timeout" ||
    k == "hls-segment-ignore-names" ||
    k == "hls-timeout" ||
    k == "hls-audio-select" ||
    k == "hls-start-offset" ||
    k == "hls-duration" ||
    k == "hls-live-restart" ||
    k == "hds-live-edge" ||
    k == "hds-segment-attempts" ||
    k == "hds-segment-threads" ||
    k == "hds-segment-timeout" ||
    k == "hds-timeout" ||
    k == "http-stream-timeout" ||
    k == "ringbuffer-size" ||
    k == "rtmp-proxy" ||
    k == "rtmp-rtmpdump" ||
    k == "rtmp-timeout" ||
    k == "stream-segment-attempts" ||
    k == "stream-segment-threads" ||
    k == "stream-segment-timeout" ||
    k == "stream-timeout" ||
    k == "ffmpeg-ffmpeg" ||
    k == "ffmpeg-verbose" ||
    k == "ffmpeg-verbose-path" ||
    k == "ffmpeg-video-transcode" ||
    k == "ffmpeg-audio-transcode" ||
    k == "subprocess-errorlog" ||
    k == "subprocess-errorlog-path" ||
    k == "locale"
  }

  /** The global store after `setup_options`, the guarded writes in source
      order followed by the three unconditional ones. */
  function StreamOptions(o: Store, args: Store): Store {
    var o1 := Apply(HlsLiveEdge, args, o);
    var o2 := Apply(HlsSegmentAttempts, args, o1);
    var o3 := Apply(HlsPlaylistReloadAttempts, args, o2);
    var o4 := Apply(HlsSegmentThreads, args, o3);
    var o5 := Apply(HlsSegmentTimeout, args, o4);
    var o6 := Apply(HlsSegmentIgnoreNames, args, o5);
    var o7 := Apply(HlsTimeout, args, o6);
    var o8 := Apply(HlsAudioSelect, args, o7);
    var o9 := Apply(HlsStartOffset, args, o8);
    var o10 := Apply(HlsDuration, args, o9);
    var o11 := Apply(HlsLiveRestart, args, o10);
    var o12 := Apply(HdsLiveEdge, args, o11);
    var o13 := Apply(HdsSegmentAttempts, args, o12);
    var o14 := Apply(HdsSegmentThreads, args, o13);
    var o15 := Apply(HdsSegmentTimeout, args, o14);
    var o16 := Apply(HdsTimeout, args, o15);
    var o17 := Apply(HttpStreamTimeout, args, o16);
    var o18 := Apply(RingbufferSize, args, o17);
    var o19 := Apply(RtmpProxy, args, o18);
    var o20 := Apply(RtmpRtmpdump, args, o19);
    var o21 := Apply(RtmpTimeout, args, o20);
    var o22 := Apply(StreamSegmentAttempts, args, o21);
    var o23 := Apply(StreamSegmentThreads, args, o22);
    var o24 := Apply(StreamSegmentTimeout, args, o23);
    var o25 := Apply(StreamTimeout, args, o24);
    var o26 := Apply(FfmpegFfmpeg, args, o25);
    var o27 := Apply(FfmpegVerbose, args, o26);
    var o28 := Apply(FfmpegVerbosePath, args, o27);
    var o29 := Apply(FfmpegVideoTranscode, args, o28);
    var o30 := Apply(FfmpegAudioTranscode, args, o29);
    o30["subprocess-errorlog" := Get(args, "subprocess_errorlog")]
      ["subprocess-errorlog-path" := Get(args, "subprocess_errorlog_path")]
      ["locale" := Get(args, "locale")]
  }

  /** `setup_options` leaves every key outside its keys as it was. */
  lemma StreamOptionsUntouched(o: Store, args: Store)
    ensures forall k :: !OptionKey(k) ==> Lookup(StreamOptions(o, args), k) == Lookup(o, k)
  {
  }

  /** What `setup_options` does to each guarded key of `o`, as `r` shows
      it: the key gets its write's outcome. */
  predicate GuardedWritesHold(o: Store, r: Store, args: Store) {
    Lookup(r, "hls-live-edge") == Outcome(HlsLiveEdge, args, Lookup(o, "hls-live-edge")) &&
    Lookup(r, "hls-segment-attempts") == Outcome(HlsSegmentAttempts, args, Lookup(o, "hls-segment-attempts")) &&
    Lookup(r, "hls-playlist-reload-attempts") == Outcome(HlsPlaylistReloadAttempts, args, Lookup(o, "hls-playlist-reload-attempts")) &&
    Lookup(r, "hls-segment-threads") == Outcome(HlsSegmentThreads, args, Lookup(o, "hls-segment-threads")) &&
    Lookup(r, "hls-segment-timeout") == Outcome(HlsSegmentTimeout, args, Lookup(o, "hls-segment-timeout")) &&
    Lookup(r, "hls-segment-ignore-names") == Outcome(HlsSegmentIgnoreNames, args, Lookup(o, "hls-segment-ignore-names")) &&
    Lookup(r, "hls-timeout") == Outcome(HlsTimeout, args, Lookup(o, "hls-timeout")) &&
    Lookup(r, "hls-audio-select") == Outcome(HlsAudioSelect, args, Lookup(o, "hls-audio-select")) &&
    Lookup(r, "hls-start-offset") == Outcome(HlsStartOffset, args, Lookup(o, "hls-start-offset")) &&
    Lookup(r, "hls-duration") == Outcome(HlsDuration, args, Lookup(o, "hls-duration")) &&
    Lookup(r, "hls-live-restart") == Outcome(HlsLiveRestart, args, Lookup(o, "hls-live-restart")) &&
    Lookup(r, "hds-live-edge") == Outcome(HdsLiveEdge, args, Lookup(o, "hds-live-edge")) &&
    Lookup(r, "hds-segment-attempts") == Outcome(HdsSegmentAttempts, args, Lookup(o, "hds-segment-attempts")) &&
    Lookup(r, "hds-segment-threads") == Outcome(HdsSegmentThreads, args, Lookup(o, "hds-segment-threads")) &&
    Lookup(r, "hds-segment-timeout") == Outcome(HdsSegmentTimeout, args, Lookup(o, "hds-segment-timeout")) &&
    Lookup(r, "hds-timeout") == Outcome(HdsTimeout, args, Lookup(o, "hds-timeout")) &&
    Lookup(r, "http-stream-timeout") == Outcome(HttpStreamTimeout, args, Lookup(o, "http-stream-timeout")) &&
    Lookup(r, "ringbuffer-size") == Outcome(RingbufferSize, args, Lookup(o, "ringbuffer-size")) &&
    Lookup(r, "rtmp-proxy") == Outcome(RtmpProxy, args, Lookup(o, "rtmp-proxy")) &&
    Lookup(r, "rtmp-rtmpdump") == Outcome(RtmpRtmpdump, args, Lookup(o, "rtmp-rtmpdump")) &&
    Lookup(r, "rtmp-timeout") == Outcome(RtmpTimeout, args, Lookup(o, "rtmp-timeout")) &&
    Lookup(r, "stream-segment-attempts") == Outcome(StreamSegmentAttempts, args, Lookup(o, "stream-segment-attempts")) &&
    Lookup(r, "stream-segment-threads") == Outcome(StreamSegmentThreads, args, Lookup(o, "stream-segment-threads")) &&
    Lookup(r, "stream-segment-timeout") == Outcome(StreamSegmentTimeout, args, Lookup(o, "stream-segment-timeout")) &&
    Lookup(r, "stream-timeout") == Outcome(StreamTimeout, args, Lookup(o, "stream-timeout")) &&
    Lookup(r, "ffmpeg-ffmpeg") == Outcome(FfmpegFfmpeg, args, Lookup(o, "ffmpeg-ffmpeg")) &&
    Lookup(r, "ffmpeg-verbose") == Outcome(FfmpegVerbose, args, Lookup(o, "ffmpeg-verbose")) &&
    Lookup(r, "ffmpeg-verbose-path") == Outcome(FfmpegVerbosePath, args, Lookup(o, "ffmpeg-verbose-path")) &&
    Lookup(r, "ffmpeg-video-transcode") == Outcome(FfmpegVideoTranscode, args, Lookup(o, "ffmpeg-video-transcode")) &&
    Lookup(r, "ffmpeg-audio-transcode") == Outcome(FfmpegAudioTranscode, args, Lookup(o, "ffmpeg-audio-transcode"))
  }

  /** The guarded writes HlsLiveEdge, HlsSegmentAttempts, HlsPlaylistReloadAttempts of `setup_options`. */
  lemma StreamOptionsWrites1(o: Store, args: Store)
    ensures var r := StreamOptions(o, args);
      Lookup(r, "hls-live-edge") == Outcome(HlsLiveEdge, args, Lookup(o, "hls-live-edge")) &&
      Lookup(r, "hls-segment-attempts") == Outcome(HlsSegmentAttempts, args, Lookup(o, "hls-segment-attempts")) &&
      Lookup(r, "hls-playlist-reload-attempts") == Outcome(HlsPlaylistReloadAttempts, args, Lookup(o, "hls-playlist-reload-attempts"))
  {
  }

  /** The guarded writes HlsSegmentThreads, HlsSegmentTimeout, HlsSegmentIgnoreNames of `setup_options`. */
  lemma StreamOptionsWrites2(o: Store, args: Store)
    ensures var r := StreamOptions(o, args);
      Lookup(r, "hls-segment-threads") == Outcome(HlsSegmentThreads, args, Lookup(o, "hls-segment-threads")) &&
      Lookup(r, "hls-segment-timeout") == Outcome(HlsSegmentTimeout, args, Lookup(o, "hls-segment-timeout")) &&
      Lookup(r, "hls-segment-ignore-names") == Outcome(HlsSegmentIgnoreNames, args, Lookup(o, "hls-segment-ignore-names"))
  {
  }

  /** The guarded writes HlsTimeout, HlsAudioSelect, HlsStartOffset of `setup_options`. */
  lemma StreamOptionsWrites3(o: Store, args: Store)
    ensures var r := StreamOptions(o, args);
      Lookup(r, "hls-timeout") == Outcome(HlsTimeout, args, Lookup(o, "hls-timeout")) &&
      Lookup(r, "hls-audio-select") == Outcome(HlsAudioSelect, args, Lookup(o, "hls-audio-select")) &&
      Lookup(r, "hls-start-offset") == Outcome(HlsStartOffset, args, Lookup(o, "hls-start-offset"))
  {
  }

  /** The guarded writes HlsDuration, HlsLiveRestart, HdsLiveEdge of `setup_options`. */
  lemma StreamOptionsWrites4(o: Store, args: Store)
    ensures var r := StreamOptions(o, args);
      Lookup(r, "hls-duration") == Outcome(HlsDuration, args, Lookup(o, "hls-duration")) &&
      Lookup(r, "hls-live-restart") == Outcome(HlsLiveRestart, args, Lookup(o, "hls-live-restart")) &&
      Lookup(r, "hds-live-edge") == Outcome(HdsLiveEdge, args, Lookup(o, "hds-live-edge"))
  {
  }

  /** The guarded writes HdsSegmentAttempts, HdsSegmentThreads, HdsSegmentTimeout of `setup_options`. */
  lemma StreamOptionsWrites5(o: Store, args: Store)
    ensures var r := StreamOptions(o, args);
      Lookup(r, "hds-segment-attempts") == Outcome(HdsSegmentAttempts, args, Lookup(o, "hds-segment-attempts")) &&
      Lookup(r, "hds-segment-threads") == Outcome(HdsSegmentThreads, args, Lookup(o, "hds-segment-threads")) &&
      Lookup(r, "hds-segment-timeout") == Outcome(HdsSegmentTimeout, args, Lookup(o, "hds-segment-timeout"))
  {
  }

  /** The guarded writes HdsTimeout, HttpStreamTimeout, RingbufferSize of `setup_options`. */
  lemma StreamOptionsWrites6(o: Store, args: Store)
    ensures var r := StreamOptions(o, args);
      Lookup(r, "hds-timeout") == Outcome(HdsTimeout, args, Lookup(o, "hds-timeout")) &&
      Lookup(r, "http-stream-timeout") == Outcome(HttpStreamTimeout, args, Lookup(o, "http-stream-timeout")) &&
      Lookup(r, "ringbuffer-size") == Outcome(RingbufferSize, args, Lookup(o, "ringbuffer-size"))
  {
  }

  /** The guarded writes RtmpProxy, RtmpRtmpdump, RtmpTimeout of `setup_options`. */
  lemma StreamOptionsWrites7(o: Store, args: Store)
    ensures var r := StreamOptions(o, args);
      Lookup(r, "rtmp-proxy") == Outcome(RtmpProxy, args, Lookup(o, "rtmp-proxy")) &&
      Lookup(r, "rtmp-rtmpdump") == Outcome(RtmpRtmpdump, args, Lookup(o, "rtmp-rtmpdump")) &&
      Lookup(r, "rtmp-timeout") == Outcome(RtmpTimeout, args, Lookup(o, "rtmp-timeout"))
  {
  }

  /** The guarded writes StreamSegmentAttempts, StreamSegmentThreads, StreamSegmentTimeout of `setup_options`. */
  lemma StreamOptionsWrites8(o: Store, args: Store)
    ensures var r := StreamOptions(o, args);
      Lookup(r, "stream-segment-attempts") == Outcome(StreamSegmentAttempts, args, Lookup(o, "stream-segment-attempts")) &&
      Lookup(r, "stream-segment-threads") == Outcome(StreamSegmentThreads, args, Lookup(o, "stream-segment-threads")) &&
      Lookup(r, "stream-segment-timeout") == Outcome(StreamSegmentTimeout, args, Lookup(o, "stream-segment-timeout"))
  {
  }

  /** The guarded writes StreamTimeout, FfmpegFfmpeg, FfmpegVerbose of `setup_options`. */
  lemma StreamOptionsWrites9(o: Store, args: Store)
    ensures var r := StreamOptions(o, args);
      Lookup(r, "stream-timeout") == Outcome(StreamTimeout, args, Lookup(o, "stream-timeout")) &&
      Lookup(r, "ffmpeg-ffmpeg") == Outcome(FfmpegFfmpeg, args, Lookup(o, "ffmpeg-ffmpeg")) &&
      Lookup(r, "ffmpeg-verbose") == Outcome(FfmpegVerbose, args, Lookup(o, "ffmpeg-verbose"))
  {
  }

  /** The guarded writes FfmpegVerbosePath, FfmpegVideoTranscode, FfmpegAudioTranscode of `setup_options`. */
  lemma StreamOptionsWrites10(o: Store, args: Store)
    ensures var r := StreamOptions(o, args);
      Lookup(r, "ffmpeg-verbose-path") == Outcome(FfmpegVerbosePath, args, Lookup(o, "ffmpeg-verbose-path")) &&
      Lookup(r, "ffmpeg-video-transcode") == Outcome(FfmpegVideoTranscode, args, Lookup(o, "ffmpeg-video-transcode")) &&
      Lookup(r, "ffmpeg-audio-transcode") == Outcome(FfmpegAudioTranscode, args, Lookup(o, "ffmpeg-audio-transcode"))
  {
  }

  /** `subprocess-errorlog`, `subprocess-errorlog-path` and `locale` always
      get their field's value, falsy or not. */
  lemma StreamOptionsUnconditional(o: Store, args: Store)
    ensures var r := StreamOptions(o, args);
      Lookup(r, "subprocess-errorlog") == Some(Get(args, "subprocess_errorlog")) &&
      Lookup(r, "subprocess-errorlog-path") == Some(Get(args, "subprocess_errorlog_path")) &&
      Lookup(r, "locale") == Some(Get(args, "locale"))
  {
  }

  /** Each guarded key of `setup_options` gets its field's value when the
      field is truthy and keeps its value otherwise. */
  lemma StreamOptionsGuardedWrites(o: Store, args: Store)
    ensures GuardedWritesHold(o, StreamOptions(o, args), args)
  {
    StreamOptionsWrites1(o, args);
    StreamOptionsWrites2(o, args);
    StreamOptionsWrites3(o, args);
    StreamOptionsWrites4(o, args);
    StreamOptionsWrites5(o, args);
    StreamOptionsWrites6(o, args);
    StreamOptionsWrites7(o, args);
    StreamOptionsWrites8(o, args);
    StreamOptionsWrites9(o, args);
    StreamOptionsWrites10(o, args);
  }

  /** `a` and `b` hold the same value at every guarded key. */
  predicate AgreeOnGuarded(a: Store, b: Store) {
    Lookup(a, "hls-live-edge") == Lookup(b, "hls-live-edge") &&
    Lookup(a, "hls-segment-attempts") == Lookup(b, "hls-segment-attempts") &&
    Lookup(a, "hls-playlist-reload-attempts") == Lookup(b, "hls-playlist-reload-attempts") &&
    Lookup(a, "hls-segment-threads") == Lookup(b, "hls-segment-threads") &&
    Lookup(a, "hls-segment-timeout") == Lookup(b, "hls-segment-timeout") &&
    Lookup(a, "hls-segment-ignore-names") == Lookup(b, "hls-segment-ignore-names") &&
    Lookup(a, "hls-timeout") == Lookup(b, "hls-timeout") &&
    Lookup(a, "hls-audio-select") == Lookup(b, "hls-audio-select") &&
    Lookup(a, "hls-start-offset") == Lookup(b, "hls-start-offset") &&
    Lookup(a, "hls-duration") == Lookup(b, "hls-duration") &&
    Lookup(a, "hls-live-restart") == Lookup(b, "hls-live-restart") &&
    Lookup(a, "hds-live-edge") == Lookup(b, "hds-live-edge") &&
    Lookup(a, "hds-segment-attempts") == Lookup(b, "hds-segment-attempts") &&
    Lookup(a, "hds-segment-threads") == Lookup(b, "hds-segment-threads") &&
    Lookup(a, "hds-segment-timeout") == Lookup(b, "hds-segment-timeout") &&
    Lookup(a, "hds-timeout") == Lookup(b, "hds-timeout") &&
    Lookup(a, "http-stream-timeout") == Lookup(b, "http-stream-timeout") &&
    Lookup(a, "ringbuffer-size") == Lookup(b, "ringbuffer-size") &&
    Lookup(a, "rtmp-proxy") == Lookup(b, "rtmp-proxy") &&
    Lookup(a, "rtmp-rtmpdump") == Lookup(b, "rtmp-rtmpdump") &&
    Lookup(a, "rtmp-timeout") == Lookup(b, "rtmp-timeout") &&
    Lookup(a, "stream-segment-attempts") == Lookup(b, "stream-segment-attempts") &&
    Lookup(a, "stream-segment-threads") == Lookup(b, "stream-segment-threads") &&
    Lookup(a, "stream-segment-timeout") == Lookup(b, "stream-segment-timeout") &&
    Lookup(a, "stream-timeout") == Lookup(b, "stream-timeout") &&
    Lookup(a, "ffmpeg-ffmpeg") == Lookup(b, "ffmpeg-ffmpeg") &&
    Lookup(a, "ffmpeg-verbose") == Lookup(b, "ffmpeg-verbose") &&
    Lookup(a, "ffmpeg-verbose-path") == Lookup(b, "ffmpeg-verbose-path") &&
    Lookup(a, "ffmpeg-video-transcode") == Lookup(b, "ffmpeg-video-transcode") &&
    Lookup(a, "ffmpeg-audio-transcode") == Lookup(b, "ffmpeg-audio-transcode")
  }

  /** Starting from `once`, the guarded writes leave every guarded key as
      `once` has it, when `once` is itself their result from `o`. */
  lemma GuardedWritesStable(o: Store, once: Store, twice: Store, args: Store)
    requires GuardedWritesHold(o, once, args) && GuardedWritesHold(once, twice, args)
    ensures AgreeOnGuarded(twice, once)
  {
    assert Lookup(twice, "hls-live-edge") == Lookup(once, "hls-live-edge") by {
      OutcomeIdempotent(HlsLiveEdge, args, Lookup(o, "hls-live-edge"));
    }
    assert Lookup(twice, "hls-segment-attempts") == Lookup(once, "hls-segment-attempts") by {
      OutcomeIdempotent(HlsSegmentAttempts, args, Lookup(o, "hls-segment-attempts"));
    }
    assert Lookup(twice, "hls-playlist-reload-attempts") == Lookup(once, "hls-playlist-reload-attempts") by {
      OutcomeIdempotent(HlsPlaylistReloadAttempts, args, Lookup(o, "hls-playlist-reload-attempts"));
    }
    assert Lookup(twice, "hls-segment-threads") == Lookup(once, "hls-segment-threads") by {
      OutcomeIdempotent(HlsSegmentThreads, args, Lookup(o, "hls-segment-threads"));
    }
    assert Lookup(twice, "hls-segment-timeout") == Lookup(once, "hls-segment-timeout") by {
      OutcomeIdempotent(HlsSegmentTimeout, args, Lookup(o, "hls-segment-timeout"));
    }
    assert Lookup(twice, "hls-segment-ignore-names") == Lookup(once, "hls-segment-ignore-names") by {
      OutcomeIdempotent(HlsSegmentIgnoreNames, args, Lookup(o, "hls-segment-ignore-names"));
    }
    assert Lookup(twice, "hls-timeout") == Lookup(once, "hls-timeout") by {
      OutcomeIdempotent(HlsTimeout, args, Lookup(o, "hls-timeout"));
    }
    assert Lookup(twice, "hls-audio-select") == Lookup(once, "hls-audio-select") by {
      OutcomeIdempotent(HlsAudioSelect, args, Lookup(o, "hls-audio-select"));
    }
    assert Lookup(twice, "hls-start-offset") == Lookup(once, "hls-start-offset") by {
      OutcomeIdempotent(HlsStartOffset, args, Lookup(o, "hls-start-offset"));
    }
    assert Lookup(twice, "hls-duration") == Lookup(once, "hls-duration") by {
      OutcomeIdempotent(HlsDuration, args, Lookup(o, "hls-duration"));
    }
    assert Lookup(twice, "hls-live-restart") == Lookup(once, "hls-live-restart") by {
      OutcomeIdempotent(HlsLiveRestart, args, Lookup(o, "hls-live-restart"));
    }
    assert Lookup(twice, "hds-live-edge") == Lookup(once, "hds-live-edge") by {
      OutcomeIdempotent(HdsLiveEdge, args, Lookup(o, "hds-live-edge"));
    }
    assert Lookup(twice, "hds-segment-attempts") == Lookup(once, "hds-segment-attempts") by {
      OutcomeIdempotent(HdsSegmentAttempts, args, Lookup(o, "hds-segment-attempts"));
    }
    assert Lookup(twice, "hds-segment-threads") == Lookup(once, "hds-segment-threads") by {
      OutcomeIdempotent(HdsSegmentThreads, args, Lookup(o, "hds-segment-threads"));
    }
    assert Lookup(twice, "hds-segment-timeout") == Lookup(once, "hds-segment-timeout") by {
      OutcomeIdempotent(HdsSegmentTimeout, args, Lookup(o, "hds-segment-timeout"));
    }
    assert Lookup(twice, "hds-timeout") == Lookup(once, "hds-timeout") by {
      OutcomeIdempotent(HdsTimeout, args, Lookup(o, "hds-timeout"));
    }
    assert Lookup(twice, "http-stream-timeout") == Lookup(once, "http-stream-timeout") by {
      OutcomeIdempotent(HttpStreamTimeout, args, Lookup(o, "http-stream-timeout"));
    }
    assert Lookup(twice, "ringbuffer-size") == Lookup(once, "ringbuffer-size") by {
      OutcomeIdempotent(RingbufferSize, args, Lookup(o, "ringbuffer-size"));
    }
    assert Lookup(twice, "rtmp-proxy") == Lookup(once, "rtmp-proxy") by {
      OutcomeIdempotent(RtmpProxy, args, Lookup(o, "rtmp-proxy"));
    }
    assert Lookup(twice, "rtmp-rtmpdump") == Lookup(once, "rtmp-rtmpdump") by {
      OutcomeIdempotent(RtmpRtmpdump, args, Lookup(o, "rtmp-rtmpdump"));
    }
    assert Lookup(twice, "rtmp-timeout") == Lookup(once, "rtmp-timeout") by {
      OutcomeIdempotent(RtmpTimeout, args, Lookup(o, "rtmp-timeout"));
    }
    assert Lookup(twice, "stream-segment-attempts") == Lookup(once, "stream-segment-attempts") by {
      OutcomeIdempotent(StreamSegmentAttempts, args, Lookup(o, "stream-segment-attempts"));
    }
    assert Lookup(twice, "stream-segment-threads") == Lookup(once, "stream-segment-threads") by {
      OutcomeIdempotent(StreamSegmentThreads, args, Lookup(o, "stream-segment-threads"));
    }
    assert Lookup(twice, "stream-segment-timeout") == Lookup(once, "stream-segment-timeout") by {
      OutcomeIdempotent(StreamSegmentTimeout, args, Lookup(o, "stream-segment-timeout"));
    }
    assert Lookup(twice, "stream-timeout") == Lookup(once, "stream-timeout") by {
      OutcomeIdempotent(StreamTimeout, args, Lookup(o, "stream-timeout"));
    }
    assert Lookup(twice, "ffmpeg-ffmpeg") == Lookup(once, "ffmpeg-ffmpeg") by {
      OutcomeIdempotent(FfmpegFfmpeg, args, Lookup(o, "ffmpeg-ffmpeg"));
    }
    assert Lookup(twice, "ffmpeg-verbose") == Lookup(once, "ffmpeg-verbose") by {
      OutcomeIdempotent(FfmpegVerbose, args, Lookup(o, "ffmpeg-verbose"));
    }
    assert Lookup(twice, "ffmpeg-verbose-path") == Lookup(once, "ffmpeg-verbose-path") by {
      OutcomeIdempotent(FfmpegVerbosePath, args, Lookup(o, "ffmpeg-verbose-path"));
    }
    assert Lookup(twice, "ffmpeg-video-transcode") == Lookup(once, "ffmpeg-video-transcode") by {
      OutcomeIdempotent(FfmpegVideoTranscode, args, Lookup(o, "ffmpeg-video-transcode"));
    }
    assert Lookup(twice, "ffmpeg-audio-transcode") == Lookup(once, "ffmpeg-audio-transcode") by {
      OutcomeIdempotent(FfmpegAudioTranscode, args, Lookup(o, "ffmpeg-audio-transcode"));
    }
  }

  /** The part of a store outside the keys of `setup_options`. */
  function Outside(o: Store): Store {
    map k | k in o && !OptionKey(k) :: o[k]
  }

  /** Stores that agree outside the keys of `setup_options` have the same
      outside part. */
  lemma OutsideEqual(a: Store, b: Store)
    requires forall k :: !OptionKey(k) ==> Lookup(a, k) == Lookup(b, k)
    ensures Outside(a) == Outside(b)
  {
    forall k | k in Outside(a) ensures k in Outside(b) && Outside(a)[k] == Outside(b)[k] {
      assert Lookup(a, k) == Lookup(b, k);
    }
    forall k | k in Outside(b) ensures k in Outside(a) {
      assert Lookup(a, k) == Lookup(b, k);
    }
  }

  /** A store that agrees with `once` on the guarded keys, outside the keys
      of `setup_options` and on the unconditional keys is `once` itself. */
  lemma StreamRewriteStable(once: Store, twice: Store)
    requires AgreeOnGuarded(twice, once)
    requires Outside(twice) == Outside(once)
    requires Lookup(twice, "subprocess-errorlog") == Lookup(once, "subprocess-errorlog")
    requires Lookup(twice, "subprocess-errorlog-path") == Lookup(once, "subprocess-errorlog-path")
    requires Lookup(twice, "locale") == Lookup(once, "locale")
    ensures twice == once
  {
    forall k | !OptionKey(k) ensures Lookup(twice, k) == Lookup(once, k) {
      assert k in twice <==> k in Outside(twice);
      assert k in once <==> k in Outside(once);
    }
    StoreEquality(twice, once);
  }

  /** Running `setup_options` twice with the same namespace gives the store
      that running it once gives. */
  lemma StreamOptionsIdempotent(o: Store, args: Store)
    ensures StreamOptions(StreamOptions(o, args), args) == StreamOptions(o, args)
  {
    var once := StreamOptions(o, args);
    StreamOptionsGuardedWrites(o, args);
    StreamOptionsGuardedWrites(once, args);
    StreamOptionsUntouched(once, args);
    StreamOptionsUnconditional(o, args);
    StreamOptionsUnconditional(once, args);
    GuardedWritesStable(o, once, StreamOptions(once, args), args);
    OutsideEqual(StreamOptions(once, args), once);
    StreamRewriteStable(once, StreamOptions(once, args));
  }

  /** `setup_http_session`. */
  method SetupHttpSession(session: Session, args: Store)
    modifies session`options
    ensures session.options == HttpSession(old(session.options), args)
  {
    SetOptionIf(session, args, HttpProxy);
    SetOptionIf(session, args, HttpsProxy);
    SetOptionIf(session, args, HttpCookie);
    SetOptionIf(session, args, HttpHeader);
    SetOptionIf(session, args, HttpQueryParam);
    SetOptionIf(session, args, HttpIgnoreEnv);
    SetOptionIf(session, args, HttpNoSslVerify);
    SetOptionIf(session, args, HttpDisableDh);
    SetOptionIf(session, args, HttpSslCert);
    SetOptionIf(session, args, HttpSslCertCrtKey);
    SetOptionIf(session, args, HttpTimeout);
    SetOptionIf(session, args, HttpCookies);
    SetOptionIf(session, args, HttpHeaders);
    SetOptionIf(session, args, HttpQueryParams);
  }

  /** `setup_options`. */
  method SetupOptions(session: Session, args: Store)
    modifies session`options
    ensures session.options == StreamOptions(old(session.options), args)
  {
    SetOptionIf(session, args, HlsLiveEdge);
    SetOptionIf(session, args, HlsSegmentAttempts);
    SetOptionIf(session, args, HlsPlaylistReloadAttempts);
    SetOptionIf(session, args, HlsSegmentThreads);
    SetOptionIf(session, args, HlsSegmentTimeout);
    SetOptionIf(session, args, HlsSegmentIgnoreNames);
    SetOptionIf(session, args, HlsTimeout);
    SetOptionIf(session, args, HlsAudioSelect);
    SetOptionIf(session, args, HlsStartOffset);
    SetOptionIf(session, args, HlsDuration);
    SetOptionIf(session, args, HlsLiveRestart);
    SetOptionIf(session, args, HdsLiveEdge);
    SetOptionIf(session, args, HdsSegmentAttempts);
    SetOptionIf(session, args, HdsSegmentThreads);
    SetOptionIf(session, args, HdsSegmentTimeout);
    SetOptionIf(session, args, HdsTimeout);
    SetOptionIf(session, args, HttpStreamTimeout);
    SetOptionIf(session, args, RingbufferSize);
    SetOptionIf(session, args, RtmpProxy);
    SetOptionIf(session, args, RtmpRtmpdump);
    SetOptionIf(session, args, RtmpTimeout);
    SetOptionIf(session, args, StreamSegmentAttempts);
    SetOptionIf(session, args, StreamSegmentThreads);
    SetOptionIf(session, args, StreamSegmentTimeout);
    SetOptionIf(session, args, StreamTimeout);
    SetOptionIf(session, args, FfmpegFfmpeg);
    SetOptionIf(session, args, FfmpegVerbose);
    SetOptionIf(session, args, FfmpegVerbosePath);
    SetOptionIf(session, args, FfmpegVideoTranscode);
    SetOptionIf(session, args, FfmpegAudioTranscode);
    session.SetOption("subprocess-errorlog", Get(args, "subprocess_errorlog"));
    session.SetOption("subprocess-errorlog-path", Get(args, "subprocess_errorlog_path"));
    session.SetOption("locale", Get(args, "locale"));
  }
}
