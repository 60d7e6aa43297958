/**
 * UploadQueue.java: uploads the queued tracks. At most one tender runs at a time and only for
 * a signed-in user; a tender makes one pass over the listed tracks, uploads those in state
 * QUEUED, and goes away only when every upload succeeded.
 *
 * The tender thread runs to completion inside the call. The upload itself is an oracle: a
 * function telling, per track, whether the upload succeeded.
 */
module Uploads {
  import opened JavaLang
  import opened Tracks
  import opened AuthEvents
  import TrackListing

  /** What a tend reads from the world: the sign-in state, the track directory and the uploader. */
  datatype UploadContext = UploadContext(
    authState: Option<AuthEvent>,     // BaseActivity.currentAuthState
    logDir: Option<string>,           // the track directory, if available
    names: seq<string>,               // the names `listFiles` returns there
    upload: TrackFile -> bool)        // UploadTask.upload: true on success

  datatype QueueEffect =
    | SkippedTenderRunning   // "Skipping queue tending - tender already running"
    | SkippedNotSignedIn     // "Skipping queue tending - not signed in"
    | TenderStarted          // "Starting queue tender"
    | Attempted(track: TrackFile, success: bool)
    | PassFailed             // "Error uploading at least one queued track"

  /** The tracks of a listing that are QUEUED, in listing order. */
  function QueuedIn(tracks: seq<TrackFile>, states: map<TrackFile, TrackState>): seq<TrackFile> {
    if tracks == [] then []
    else
      var last := tracks[|tracks| - 1];
      QueuedIn(tracks[..|tracks| - 1], states) + (if StateIn(states, last) == Some(Queued) then [last] else [])
  }

  /** The upload attempts of a pass over those tracks, with their results. */
  function AttemptsOf(queued: seq<TrackFile>, upload: TrackFile -> bool): seq<QueueEffect> {
    if queued == [] then []
    else AttemptsOf(queued[..|queued| - 1], upload) + [Attempted(queued[|queued| - 1], upload(queued[|queued| - 1]))]
  }

  /** The number of failed uploads among those tracks. */
  function Failures(queued: seq<TrackFile>, upload: TrackFile -> bool): nat {
    if queued == [] then 0
    else
      var last := queued[|queued| - 1];
      Failures(queued[..|queued| - 1], upload) + (if upload(last) then 0 else 1)
  }

  /** The tracks a pass uploads with the given world and track states. */
  function PassTracks(ctx: UploadContext, states: map<TrackFile, TrackState>): seq<TrackFile> {
    QueuedIn(TrackListing.ListedTracks(ctx.logDir, ctx.names, states), states)
  }

  class UploadQueue {
    /** `tenderRunnable != null`. */
    var tenderRunning: bool
    var effects: seq<QueueEffect>
    const registry: TrackStateRegistry

    constructor (registry: TrackStateRegistry)
      ensures !tenderRunning && effects == [] && this.registry == registry
    {
      tenderRunning := false;
      effects := [];
      this.registry := registry;
    }

    /** `start`: one initial tend. */
    method Start(ctx: UploadContext)
      modifies this
      ensures tenderRunning <==> old(tenderRunning) || TendWouldFail(ctx, registry.states)
      ensures effects == old(effects) + TendEffects(old(tenderRunning), ctx, registry.states)
    {
      TendQueue(ctx);
    }

    /**
     * `tendQueue`: skipped while a tender is running or when not signed in; otherwise a tender
     * starts, makes one pass, and is cleared again when the pass had no failure.
     */
    method TendQueue(ctx: UploadContext)
      modifies this`tenderRunning, this`effects
      ensures tenderRunning <==> old(tenderRunning) || TendWouldFail(ctx, registry.states)
      ensures effects == old(effects) + TendEffects(old(tenderRunning), ctx, registry.states)
    {
      if tenderRunning {
        effects := effects + [SkippedTenderRunning];
      } else if ctx.authState != Some(SignedIn) {
        effects := effects + [SkippedNotSignedIn];
      } else {
        ghost var attempts := AttemptsOf(PassTracks(ctx, registry.states), ctx.upload);
        ghost var failing := TendWouldFail(ctx, registry.states);
        ghost var before := effects;
        effects := effects + [TenderStarted];
        tenderRunning := true;
        var success := UploadPass(ctx);
        assert success == !failing;
        assert effects == before + [TenderStarted] + attempts;
        if !success {
          effects := effects + [PassFailed];
        } else {
          tenderRunning := false;
        }
        assert TendEffects(false, ctx, registry.states)
          == [TenderStarted] + attempts + (if failing then [PassFailed] else []);
      }
    }

    /** `uploadQueue`: uploads every listed QUEUED track once, in order; true iff none failed. */
    method UploadPass(ctx: UploadContext) returns (success: bool)
      modifies this`effects
      ensures effects == old(effects) + AttemptsOf(PassTracks(ctx, registry.states), ctx.upload)
      ensures success <==> Failures(PassTracks(ctx, registry.states), ctx.upload) == 0
      ensures success <==> forall t :: t in PassTracks(ctx, registry.states) ==> ctx.upload(t)
    {
      var errors := 0;
      var tracks := TrackListing.GetTracks(ctx.logDir, ctx.names, registry);
      ghost var start := effects;
      var i := 0;
      while i < |tracks|
        invariant 0 <= i <= |tracks|
        invariant effects == start + AttemptsOf(QueuedIn(tracks[..i], registry.states), ctx.upload)
        invariant errors == Failures(QueuedIn(tracks[..i], registry.states), ctx.upload)
      {
        assert tracks[..i + 1] == tracks[..i] + [tracks[i]];
        var failed := VisitTrack(tracks[i], ctx, tracks[..i], start);
        errors := errors + failed;
        i := i + 1;
      }
      assert tracks[..i] == tracks;
      FailuresZeroIff(QueuedIn(tracks, registry.states), ctx.upload);
      success := errors == 0;
    }

    /** One iteration of `uploadQueue`: upload the track if it is QUEUED; 1 if that upload failed. */
    method VisitTrack(trackFile: TrackFile, ctx: UploadContext, ghost seen: seq<TrackFile>, ghost start: seq<QueueEffect>)
      returns (failed: nat)
      requires effects == start + AttemptsOf(QueuedIn(seen, registry.states), ctx.upload)
      modifies this`effects
      ensures effects == start + AttemptsOf(QueuedIn(seen + [trackFile], registry.states), ctx.upload)
      ensures Failures(QueuedIn(seen + [trackFile], registry.states), ctx.upload)
              == Failures(QueuedIn(seen, registry.states), ctx.upload) + failed
    {
      ghost var states := registry.states;
      ghost var queued := QueuedIn(seen, states);
      PassStep(seen, trackFile, states, ctx.upload);
      failed := 0;
      if registry.GetState(trackFile) == Some(Queued) {
        assert StateIn(states, trackFile) == Some(Queued);
        var ok := ctx.upload(trackFile);
        ghost var before := effects;
        effects := effects + [Attempted(trackFile, ok)];
        assert effects == start + (AttemptsOf(queued, ctx.upload) + [Attempted(trackFile, ok)]) by {
          assert before == start + AttemptsOf(queued, ctx.upload);
        }
        if !ok {
          failed := 1;
        }
      } else {
        assert StateIn(states, trackFile) != Some(Queued);
      }
    }
  }

  /** One more listed track extends the queued tracks, the attempts and the failure count by its own. */
  lemma PassStep(tracks: seq<TrackFile>, t: TrackFile, states: map<TrackFile, TrackState>, upload: TrackFile -> bool)
    ensures var queued := QueuedIn(tracks, states);
      var q := StateIn(states, t) == Some(Queued);
      && QueuedIn(tracks + [t], states) == queued + (if q then [t] else [])
      && AttemptsOf(QueuedIn(tracks + [t], states), upload)
         == AttemptsOf(queued, upload) + (if q then [Attempted(t, upload(t))] else [])
      && Failures(QueuedIn(tracks + [t], states), upload)
         == Failures(queued, upload) + (if q && !upload(t) then 1 else 0)
  {
    assert (tracks + [t])[..|tracks|] == tracks;
    var queued := QueuedIn(tracks, states);
    if StateIn(states, t) == Some(Queued) {
      var extended := queued + [t];
      assert QueuedIn(tracks + [t], states) == extended;
      assert extended[..|extended| - 1] == queued && extended[|extended| - 1] == t;
      assert AttemptsOf(extended, upload) == AttemptsOf(queued, upload) + [Attempted(t, upload(t))];
      assert Failures(extended, upload) == Failures(queued, upload) + (if upload(t) then 0 else 1);
    } else {
      assert QueuedIn(tracks + [t], states) == queued + [];
      assert queued + [] == queued;
    }
  }

  /** Whether a tend that is not skipped ends with a failed pass. */
  predicate TendWouldFail(ctx: UploadContext, states: map<TrackFile, TrackState>) {
    ctx.authState == Some(SignedIn) && Failures(PassTracks(ctx, states), ctx.upload) > 0
  }

  /** The effects of one tend, given whether a tender was running before. */
  function TendEffects(running: bool, ctx: UploadContext, states: map<TrackFile, TrackState>): seq<QueueEffect> {
    if running then [SkippedTenderRunning]
    else if ctx.authState != Some(SignedIn) then [SkippedNotSignedIn]
    else [TenderStarted] + AttemptsOf(PassTracks(ctx, states), ctx.upload)
         + (if TendWouldFail(ctx, states) then [PassFailed] else [])
  }

  /** The attempts are the queued tracks in order, each with the oracle's answer. */
  lemma {:induction false} AttemptsOfSpec(queued: seq<TrackFile>, upload: TrackFile -> bool)
    ensures |AttemptsOf(queued, upload)| == |queued|
    ensures forall i :: 0 <= i < |queued| ==> AttemptsOf(queued, upload)[i] == Attempted(queued[i], upload(queued[i]))
  {
    if queued != [] {
      AttemptsOfSpec(queued[..|queued| - 1], upload);
    }
  }

  /** No failures exactly when every queued track uploads. */
  lemma {:induction false} FailuresZeroIff(queued: seq<TrackFile>, upload: TrackFile -> bool)
    ensures Failures(queued, upload) == 0 <==> forall t :: t in queued ==> upload(t)
  {
    if queued != [] {
      var init := queued[..|queued| - 1];
      FailuresZeroIff(init, upload);
      assert queued == init + [queued[|queued| - 1]];
    }
  }

  /** The tracks a pass uploads are listed tracks in state QUEUED. */
  lemma {:induction false} QueuedInMembers(tracks: seq<TrackFile>, states: map<TrackFile, TrackState>, t: TrackFile)
    ensures t in QueuedIn(tracks, states) <==> t in tracks && StateIn(states, t) == Some(Queued)
  {
    if tracks != [] {
      var init := tracks[..|tracks| - 1];
      QueuedInMembers(init, states, t);
      assert tracks == init + [tracks[|tracks| - 1]];
    }
  }

  /** A pass uploads exactly the listed QUEUED tracks, each once when the directory names are distinct. */
  lemma {:induction false} QueuedInOnce(tracks: seq<TrackFile>, states: map<TrackFile, TrackState>, t: TrackFile)
    ensures multiset(QueuedIn(tracks, states))[t]
            == if StateIn(states, t) == Some(Queued) then multiset(tracks)[t] else 0
  {
    if tracks != [] {
      var init := tracks[..|tracks| - 1];
      assert tracks == init + [tracks[|tracks| - 1]];
      QueuedInOnce(init, states, t);
    }
  }

  lemma PassUploadsEachQueuedOnce(ctx: UploadContext, states: map<TrackFile, TrackState>, t: TrackFile)
    requires TrackListing.Distinct(ctx.names)
    ensures multiset(PassTracks(ctx, states))[t]
            == if ctx.logDir.Some? && t.file.dir == ctx.logDir.value && t.file.name in ctx.names
                  && TrackListing.MatchesFilenamePattern(t.file.name) && StateIn(states, t) == Some(Queued)
               then 1 else 0
  {
    QueuedInOnce(TrackListing.ListedTracks(ctx.logDir, ctx.names, states), states, t);
    TrackListing.ListedTracksOnce(ctx.logDir, ctx.names, states, t);
  }
}
