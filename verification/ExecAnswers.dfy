/** What the answers of `ExecProtocol` mean to a caller: when a run is reported as it was, and when
    the two transports report alike. */
module ExecAnswers {
  import opened Wrappers
  import opened Utf8
  import opened Trailer
  import opened ExecProtocol

  ghost predicate Codec(enc: Trailer -> Text, dec: Text -> Parsed) {
    forall t :: OneLine(enc(t)) && dec(enc(t)) == Found(t)
  }

  /** The result of a completed run. Tier 2 reports the calls its host served, the other tiers
      those the code made. */
  function ReportOf<S>(cfg: Setup<S>, v: Verdict<S>): Answer
    requires v.Completed?
  {
    Result(v.success, v.error, CaptureText(v.stdout, cfg.max), if cfg.wire == Vsock then v.calls else v.made)
  }

  /** Over the vsock connection, and over request/reply when the code left no unfinished line on
      stderr, the host returns what direct evaluation produced, its output cut to the limit. */
  lemma {:induction false} CompletedRuns<S>(cfg: Setup<S>, v: Verdict<S>)
    requires v.Completed? && Codec(cfg.enc, cfg.dec)
    requires cfg.wire == Vsock || v.stderr == [] || IsBreak(v.stderr[|v.stderr| - 1])
    ensures Expected(cfg, v) == ReportOf(cfg, v)
  {
    if cfg.wire == RequestReply {
      UnfinishedLine(cfg, v);
      TailEmpty(v.stderr);
      var line := cfg.enc(Trailer(v.success, v.error, v.made));
      assert [] + line == line;
      TruncationIsFaithful(v.stdout, cfg.max);
    }
  }

  /** In general the request/reply host reads the trailer with the code's unfinished line in
      front of it: the run counts as a crash exactly when the two are no trailer, an exception
      comes out exactly when the JSON parser raises one that is not caught, and the run is
      reported as it was exactly when the two still read as the trailer that was printed. */
  lemma {:induction false} UnfinishedLine<S>(cfg: Setup<S>, v: Verdict<S>)
    requires v.Completed? && Codec(cfg.enc, cfg.dec) && cfg.wire == RequestReply
    ensures var read := cfg.dec(Tail(v.stderr) + cfg.enc(Trailer(v.success, v.error, v.made)));
            && (Expected(cfg, v) == Crashed <==> read == NoTrailer)
            && (forall what :: Expected(cfg, v) == Propagated(OtherError(what)) <==> read == ParseRaises(what))
            && (Expected(cfg, v) == ReportOf(cfg, v) <==> read == Found(Trailer(v.success, v.error, v.made)))
            && (read.Found? ==>
                  Expected(cfg, v) == Result(read.trailer.success, read.trailer.error,
                                             CaptureText(v.stdout, cfg.max), read.trailer.calls))
  {
    var line := cfg.enc(Trailer(v.success, v.error, v.made));
    ParserSees(v.stderr, line, cfg.dec);
    assert v.stderr + PrintTrailer(Trailer(v.success, v.error, v.made), cfg.enc) == v.stderr + line + [NEWLINE];
    TruncationIsFaithful(v.stdout, cfg.max);
  }

  /** Code that ends without coming back through the shim. Over the vsock connection the run has
      crashed. Otherwise it has crashed when its stderr is blank; and when it is not, the last line
      that is not blank decides: a crash exactly when that is no trailer. */
  lemma {:induction false} DeadRuns<S>(cfg: Setup<S>, v: Verdict<S>)
    requires v.Died?
    ensures cfg.wire == Vsock || Blank(v.stderr) ==> Expected(cfg, v) == Crashed
    ensures !Blank(v.stderr) ==> exists i, j :: LastLineAt(v.stderr, i, j)
    ensures forall i, j :: cfg.wire == RequestReply && LastLineAt(v.stderr, i, j) ==>
              var read := cfg.dec(v.stderr[i..j]);
              && (Expected(cfg, v) == Crashed <==> read == NoTrailer)
              && (forall what :: Expected(cfg, v) == Propagated(OtherError(what)) <==> read == ParseRaises(what))
              && (read.Found? ==>
                    Expected(cfg, v) == Result(read.trailer.success, read.trailer.error,
                                               Captured([], false), read.trailer.calls))
  {
    ParserReadsLastLine(v.stderr, cfg.dec);
    TruncationIsFaithful([], cfg.max);
  }

  /** A failing callback is a tool-call timeout exactly when it timed out under a per-call limit;
      over the vsock connection any other timeout is the run's, and a lost connection its crash;
      every other error comes out as it is. */
  lemma {:induction false} FailedCallbacks<S>(cfg: Setup<S>, v: Verdict<S>)
    requires v.HostFailed?
    ensures Expected(cfg, v) == ToolCallTimedOut <==> cfg.bounded && v.cause == TimeoutRaised
    ensures Expected(cfg, v) == TimedOut <==> cfg.wire == Vsock && !cfg.bounded && v.cause == TimeoutRaised
    ensures Expected(cfg, v) == Crashed <==> cfg.wire == Vsock && v.cause == ConnectionLost
    ensures forall e :: Expected(cfg, v) == Propagated(e) <==>
              e == v.cause && (e.OtherError? || (cfg.wire == RequestReply && !(cfg.bounded && e == TimeoutRaised)))
  {
  }

  /** A completed run without an unfinished line is reported alike by both transports if and only
      if none of its calls was refused before it was sent. */
  lemma {:induction false} TiersAgreeOnCompletion<S>(
    vsock: Setup<S>, reqrep: Setup<S>, store: S, fuel: nat, v: Verdict<S>)
    requires vsock.wire == Vsock && reqrep == vsock.(wire := RequestReply) && Codec(vsock.enc, vsock.dec)
    requires Evaluate(vsock, store, fuel) == Some(v) && v.Completed?
    requires v.stderr == [] || IsBreak(v.stderr[|v.stderr| - 1])
    ensures Expected(vsock, v) == Expected(reqrep, v)
            <==> Refused(vsock.code, vsock.cb, store, [], fuel) == 0
  {
    CompletedRuns(vsock, v);
    CompletedRuns(reqrep, v);
    DirectCounts(vsock.code, vsock.cb, store, [], 0, [], [], fuel);
  }

  /** The two transports differ on a failing callback exactly when it raises a timeout with no
      per-call limit set, or a connection error: Tier 2 takes both for its own. */
  lemma {:induction false} TiersAgreeOnFailure<S>(vsock: Setup<S>, reqrep: Setup<S>, v: Verdict<S>)
    requires vsock.wire == Vsock && reqrep.wire == RequestReply && vsock.bounded == reqrep.bounded
    requires v.HostFailed?
    ensures Expected(vsock, v) == Expected(reqrep, v)
            <==> v.cause.OtherError? || (v.cause == TimeoutRaised && vsock.bounded)
  {
  }
}
