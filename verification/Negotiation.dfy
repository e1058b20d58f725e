/** Which protocol revision a client chooses, and that a server accepts streams opened with it. */
module Negotiation {
  import opened FlowControl
  import opened Link

  const REVISION_ZERO := 0
  const REVISION_ONE := 1
  const REVISION_TWO := 2

  const REVISION_TWO_MESSAGE_OVERHEAD: uint32 := 5
  const SUPPORTED_REVISIONS := [REVISION_ONE, REVISION_TWO]

  function MessageOverhead(revision: int): uint32 {
    if revision >= REVISION_TWO then REVISION_TWO_MESSAGE_OVERHEAD else 0
  }

  function MinWindowSize(revision: int): uint32 { MessageOverhead(revision) + 1 }

  // ---------------------------------------------------------------- options

  const DEFAULT_INITIAL_WINDOW_SIZE: uint32 := 64 * 1024
  const MIN_INITIAL_WINDOW_SIZE: uint32 := 1024
  const DEFAULT_CHUNK_MAX: uint32 := 16 * 1024
  const DEFAULT_UPDATE_MIN: uint32 := 16 * 1024

  datatype Options = Options(initialWindowSize: uint32, maxChunkSize: uint32, minWindowUpdateSize: uint32)

  function InitOptions(o: Options): Options {
    Options(if o.initialWindowSize == 0 then DEFAULT_INITIAL_WINDOW_SIZE
            else if o.initialWindowSize < MIN_INITIAL_WINDOW_SIZE then MIN_INITIAL_WINDOW_SIZE
            else o.initialWindowSize,
            if o.maxChunkSize == 0 then DEFAULT_CHUNK_MAX else o.maxChunkSize,
            if o.minWindowUpdateSize == 0 then DEFAULT_UPDATE_MIN else o.minWindowUpdateSize)
  }

  /** Zero asks for the default; every other value is kept, except that a window is at least one
      kilobyte. So options that have been filled in stay as they are. */
  lemma InitOptionsExact(o: Options)
    ensures var i := InitOptions(o);
            && i.initialWindowSize >= 1024 && (o.initialWindowSize >= 1024 ==> i.initialWindowSize == o.initialWindowSize)
            && (o.initialWindowSize == 0 ==> i.initialWindowSize == 65536)
            && (0 < o.initialWindowSize < 1024 ==> i.initialWindowSize == 1024)
            && i.maxChunkSize > 0 && i.minWindowUpdateSize > 0
            && (if o.maxChunkSize > 0 then i.maxChunkSize == o.maxChunkSize else i.maxChunkSize == 16384)
            && (if o.minWindowUpdateSize > 0 then i.minWindowUpdateSize == o.minWindowUpdateSize else i.minWindowUpdateSize == 16384)
            && InitOptions(i) == i
  {
  }

  // ---------------------------------------------------------------- client

  datatype Settings = Settings(supported: seq<int>, initialWindowSize: uint32)

  datatype Negotiated =
    | Use(revision: int)
    | OnlyRevisionZero
    | NoCommonRevision
    | WindowTooSmall

  predicate Shared(advertised: seq<int>, revision: int) { revision in advertised && revision in SUPPORTED_REVISIONS }

  /** The client's reaction to the server's settings. The advertised list may be in any order,
      repeat itself, and hold unknown or negative values. */
  method Negotiate(settings: Settings) returns (r: Negotiated)
    ensures r.Use? || r.WindowTooSmall? <==> exists v :: Shared(settings.supported, v)
    ensures r.Use? ==> Shared(settings.supported, r.revision) && settings.initialWindowSize >= MinWindowSize(r.revision)
    ensures r.Use? ==> forall v :: Shared(settings.supported, v) ==> v <= r.revision
    ensures r.WindowTooSmall? ==>
              exists v :: Shared(settings.supported, v) && settings.initialWindowSize < MinWindowSize(v)
                          && forall w :: Shared(settings.supported, w) ==> w <= v
    ensures r.OnlyRevisionZero? <==> (forall v :: !Shared(settings.supported, v)) && REVISION_ZERO in settings.supported
  {
    var v0supported := false;
    var useRevision := REVISION_ZERO;
    assert REVISION_ZERO !in SUPPORTED_REVISIONS;
    for i := 0 to |settings.supported|
      invariant v0supported <==> REVISION_ZERO in settings.supported[..i]
      invariant useRevision != REVISION_ZERO ==> Shared(settings.supported[..i], useRevision)
      invariant useRevision >= REVISION_ZERO
      invariant forall v :: Shared(settings.supported[..i], v) ==> v <= useRevision
    {
      var rev := settings.supported[i];
      assert settings.supported[..i + 1] == settings.supported[..i] + [rev];
      if rev == REVISION_ZERO {
        v0supported := true;
      } else if rev in SUPPORTED_REVISIONS {
        useRevision := if rev > useRevision then rev else useRevision;
      }
      ghost var seen := settings.supported[..i + 1];
      forall v | Shared(seen, v) ensures v <= useRevision {
        assert v == rev || Shared(settings.supported[..i], v);
      }
    }
    assert settings.supported[..|settings.supported|] == settings.supported;
    if useRevision == REVISION_ZERO {
      return if v0supported then OnlyRevisionZero else NoCommonRevision;
    }
    assert Shared(settings.supported, useRevision);
    if settings.initialWindowSize < MinWindowSize(useRevision) {
      return WindowTooSmall;
    }
    return Use(useRevision);
  }

  // ---------------------------------------------------------------- server

  datatype Rejection = ShuttingDown | Revision(v: int) | InvalidWindow | MalformedMethod | Unimplemented

  datatype Verdict = Admit | Reject(reason: Rejection)

  datatype MethodName = Malformed | Unknown | Known

  datatype NewStream = NewStream(methodName: MethodName, revision: int, window: uint32)

  /** The checks of `createStream` that reject a single stream, in their order. */
  function Judge(closing: bool, n: NewStream): Verdict {
    if closing then Reject(ShuttingDown)
    else if n.revision == REVISION_ZERO || n.revision !in SUPPORTED_REVISIONS then Reject(Revision(n.revision))
    else if n.window < MinWindowSize(n.revision) then Reject(InvalidWindow)
    else if n.methodName == Malformed then Reject(MalformedMethod)
    else if n.methodName == Unknown then Reject(Unimplemented)
    else Admit
  }

  predicate Usable(n: NewStream) {
    (n.revision == 1 && n.window >= 1) || (n.revision == 2 && n.window >= 6)
  }

  /** Exactly which streams are admitted, and exactly when each reason is given for turning one away. */
  lemma JudgeExact(closing: bool, n: NewStream)
    ensures var v, supported := Judge(closing, n), 1 <= n.revision <= 2;
            && (v == Admit <==> !closing && Usable(n) && n.methodName == Known)
            && (v == Reject(ShuttingDown) <==> closing)
            && (forall r :: v == Reject(Revision(r)) <==> !closing && !supported && r == n.revision)
            && (v == Reject(InvalidWindow) <==> !closing && supported && !Usable(n))
            && (v == Reject(MalformedMethod) <==> !closing && Usable(n) && n.methodName == Malformed)
            && (v == Reject(Unimplemented) <==> !closing && Usable(n) && n.methodName == Unknown)
  {
    assert n.revision in SUPPORTED_REVISIONS <==> n.revision == 1 || n.revision == 2;
  }

  /** The link from a sender with options `from` to a receiver with options `to`. */
  function LinkConfig(revision: int, from: Options, to: Options): Config {
    Config(MessageOverhead(revision), to.initialWindowSize, from.maxChunkSize, to.minWindowUpdateSize)
  }

  /** A server and a client of this package, with any options: they agree on revision two, a
      stream opened with it is not rejected on account of its revision or window, and the
      links of both directions meet what total delivery asks of a configuration. */
  lemma NegotiationFeedsFlowControl(client: Options, server: Options, r: int, m: MethodName)
    requires Shared(SUPPORTED_REVISIONS, r) && forall v :: Shared(SUPPORTED_REVISIONS, v) ==> v <= r
    ensures var c, s := InitOptions(client), InitOptions(server);
            && r == REVISION_TWO
            && s.initialWindowSize >= MinWindowSize(r)
            && (Judge(false, NewStream(m, r, c.initialWindowSize)) == Admit <==> m == Known)
            && ValidConfig(LinkConfig(r, c, s)) && ValidConfig(LinkConfig(r, s, c))
  {
    assert Shared(SUPPORTED_REVISIONS, REVISION_TWO);
  }

  /** With any peer: a revision and windows that passed the client's check of the settings and
      the server's check of the new stream give links that total delivery covers. */
  lemma AdmittedIsUsable(closing: bool, n: NewStream, settings: Settings, client: Options, server: Options)
    requires Judge(closing, n) == Admit
    requires settings.initialWindowSize >= MinWindowSize(n.revision)
    requires client.initialWindowSize == n.window && server.initialWindowSize == settings.initialWindowSize
    requires client.maxChunkSize >= 1 && server.maxChunkSize >= 1
    ensures n.revision in SUPPORTED_REVISIONS && !closing && n.methodName == Known
    ensures ValidConfig(LinkConfig(n.revision, client, server)) && ValidConfig(LinkConfig(n.revision, server, client))
  {
  }
}
