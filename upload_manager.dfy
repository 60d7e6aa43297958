/**
 * UploadManager.java: starts the upload queue, tends it again whenever a signed-in user stops a
 * recording, and keeps the outcome of each upload: the track state, and on success the cloud
 * record of the track.
 */
module UploadManagement {
  import opened JavaLang
  import opened Tracks
  import opened AuthEvents
  import opened Uploads

  /** What the server returned for an uploaded track (only the URL is modelled). */
  datatype CloudData = CloudData(trackUrl: string)

  datatype ManagerEffect =
    | Subscribed(on: bool)          // EventBus register / unregister
    | AutoSync(track: Option<TrackFile>)  // "Logging stopped, autosyncing track ..."

  class UploadManager {
    var completedUploads: map<TrackFile, CloudData>
    var effects: seq<ManagerEffect>
    const queue: UploadQueue
    const registry: TrackStateRegistry

    /** The queue tends the tracks of the same registry the manager updates. */
    ghost predicate Valid()
      reads this
    {
      queue.registry == registry
    }

    constructor (registry: TrackStateRegistry)
      ensures Valid()
      ensures completedUploads == map[] && effects == []
      ensures fresh(queue) && !queue.tenderRunning && queue.effects == [] && queue.registry == registry
      ensures this.registry == registry
    {
      completedUploads := map[];
      effects := [];
      queue := new UploadQueue(registry);
      this.registry := registry;
    }

    /** `start`: subscribe to events, then one initial tend of the queue. */
    method Start(ctx: UploadContext)
      requires Valid()
      modifies this, queue
      ensures completedUploads == old(completedUploads)
      ensures effects == old(effects) + [Subscribed(true)]
      ensures queue.effects == old(queue.effects) + TendEffects(old(queue.tenderRunning), ctx, registry.states)
      ensures queue.tenderRunning <==> old(queue.tenderRunning) || TendWouldFail(ctx, registry.states)
    {
      effects := effects + [Subscribed(true)];
      queue.Start(ctx);
    }

    /** `onLoggingEvent`: a stopped recording of a signed-in user triggers one tend, nothing else does. */
    method OnLoggingEvent(event: LoggingEvent, ctx: UploadContext)
      requires Valid()
      modifies this, queue
      ensures completedUploads == old(completedUploads)
      ensures ctx.authState == Some(SignedIn) && !event.started ==>
        && effects == old(effects) + [AutoSync(event.trackFile)]
        && queue.effects == old(queue.effects) + TendEffects(old(queue.tenderRunning), ctx, registry.states)
        && (queue.tenderRunning <==> old(queue.tenderRunning) || TendWouldFail(ctx, registry.states))
      ensures !(ctx.authState == Some(SignedIn) && !event.started) ==>
        effects == old(effects) && queue.effects == old(queue.effects)
        && queue.tenderRunning == old(queue.tenderRunning)
    {
      if ctx.authState == Some(SignedIn) && !event.started {
        effects := effects + [AutoSync(event.trackFile)];
        queue.TendQueue(ctx);
      }
    }

    /** `onUploadSuccess`: the track is UPLOADED and its cloud record replaces any earlier one. */
    method OnUploadSuccess(trackFile: TrackFile, cloudData: CloudData)
      modifies this, registry
      ensures registry.states == old(registry.states)[trackFile := Uploaded]
      ensures completedUploads == old(completedUploads)[trackFile := cloudData]
      ensures GetCompleted(trackFile) == Some(cloudData)
      ensures forall other :: other != trackFile ==> GetCompleted(other) == old(GetCompleted(other))
      ensures effects == old(effects)
    {
      registry.SetState(trackFile, Uploaded);
      completedUploads := completedUploads[trackFile := cloudData];
    }

    /** `onUploadFailure`: the track is NOT_UPLOADED again; the completed uploads stay as they are. */
    method OnUploadFailure(trackFile: TrackFile)
      modifies registry
      ensures registry.states == old(registry.states)[trackFile := NotUploaded]
      ensures completedUploads == old(completedUploads)
    {
      registry.SetState(trackFile, NotUploaded);
    }

    /** `getCompleted`: the cloud record last stored for the track, or null. */
    function GetCompleted(trackFile: TrackFile): (r: Option<CloudData>)
      reads this
      ensures r.Some? <==> trackFile in completedUploads
      ensures r.Some? ==> r.value == completedUploads[trackFile]
    {
      if trackFile in completedUploads then Some(completedUploads[trackFile]) else None
    }

    /** `stop`: unsubscribe from events. */
    method Stop()
      modifies this
      ensures completedUploads == old(completedUploads)
      ensures effects == old(effects) + [Subscribed(false)]
    {
      effects := effects + [Subscribed(false)];
    }
  }
}
