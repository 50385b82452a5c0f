/**
 * POST of app/api/video-processing/route.ts: run `extractClip` for a clip
 * row, record its storage path, optionally a transcription, mark the clip
 * ready and charge the session user's minutes.  A Prisma `update` of a row
 * that does not exist throws, so a missing clip or subscription row sends
 * the handler into its catch, which marks the clip as failed.
 */
module VideoProcessing {
  import opened Wrappers
  import opened Store
  import opened VideoService
  import opened Plans
  import ClipsRoute

  /** The JSON body.  Times are milliseconds and taken as given. */
  datatype ProcessingBody = ProcessingBody(
    action: Option<string>,
    clipId: Option<string>,
    videoUrl: Option<string>,
    startMs: int,
    endMs: int,
    resolution: Option<string>,
    watermark: Option<bool>,
    subtitlesEnabled: Option<bool>)

  datatype Response = Unauthorized | MissingFields | UnknownAction | Success | InternalError

  function Status(r: Response): int {
    match r
    case Unauthorized => 401
    case MissingFields => 400
    case UnknownAction => 400
    case Success => 200
    case InternalError => 500
  }

  /** The three tables the handler writes. */
  datatype Tables = Tables(
    clips: map<string, Clip>,
    subscriptions: map<string, SubscriptionRecord>,
    transcriptions: seq<Transcription>)

  datatype Outcome = Outcome(response: Response, tables: Tables)

  /** The catch block's `clip.update` to `error`, which itself throws (and changes nothing) without the row. */
  function MarkFailed(t: Tables, clipId: string): (r: Tables)
    ensures r.subscriptions == t.subscriptions && r.transcriptions == t.transcriptions
    ensures r.clips.Keys == t.clips.Keys
    ensures forall k :: k in t.clips && k != clipId ==> r.clips[k] == t.clips[k]
    ensures clipId in t.clips ==> r.clips[clipId] == t.clips[clipId].(status := Error)
  {
    if clipId in t.clips then t.(clips := t.clips[clipId := t.clips[clipId].(status := Error)]) else t
  }

  /**
   * Everything the handler does once `extractClip` has settled, given its
   * storage path (`None` when it rejected), the transcription text
   * (`None` when subtitles are off or the transcription step threw) and
   * the minutes to charge.  Success needs the path, the clip row and the
   * user's subscription row; any failure answers 500 with the clip marked
   * `error`, after whatever writes had already happened.
   */
  function Settle(t: Tables, clipId: string, userId: string, clipPath: Option<string>, transcript: Option<string>, minutes: int)
    : (out: Outcome)
    ensures out.response == Success <==> clipPath.Some? && clipId in t.clips && userId in t.subscriptions
    ensures out.response != Success ==> out.response == InternalError
    ensures out.tables.clips.Keys == t.clips.Keys
    ensures forall k :: k in t.clips && k != clipId ==> out.tables.clips[k] == t.clips[k]
    ensures clipId in t.clips ==>
      out.tables.clips[clipId] == t.clips[clipId].(
        storageUrl := if clipPath.Some? then clipPath else t.clips[clipId].storageUrl,
        status := if out.response == Success then Ready else Error)
    ensures out.tables.subscriptions ==
      if out.response == Success
      then t.subscriptions[userId := t.subscriptions[userId].(minutesUsed := t.subscriptions[userId].minutesUsed + minutes)]
      else t.subscriptions
    ensures out.tables.transcriptions ==
      t.transcriptions + if clipPath.Some? && clipId in t.clips && transcript.Some? then [Transcription(clipId, transcript.value)] else []
  {
    if clipPath.None? || clipId !in t.clips then Outcome(InternalError, MarkFailed(t, clipId))
    else
      var stored := t.clips[clipId].(storageUrl := clipPath);
      var transcriptions := if transcript.Some? then t.transcriptions + [Transcription(clipId, transcript.value)] else t.transcriptions;
      var ready := Tables(t.clips[clipId := stored.(status := Ready)], t.subscriptions, transcriptions);
      if userId !in t.subscriptions then Outcome(InternalError, MarkFailed(ready, clipId))
      else
        var rec := t.subscriptions[userId];
        Outcome(Success, ready.(subscriptions := t.subscriptions[userId := rec.(minutesUsed := rec.minutesUsed + minutes)]))
  }

  /**
   * A clip whose file was stored but whose user has no subscription row is
   * first marked ready and then overwritten as failed: it keeps its storage
   * path and its transcription, and nobody is charged.
   */
  lemma ReadyClipRegressesWithoutSubscription(t: Tables, clipId: string, userId: string, path: string, transcript: Option<string>, minutes: int)
    requires clipId in t.clips && userId !in t.subscriptions
    ensures var out := Settle(t, clipId, userId, Some(path), transcript, minutes);
      && out.response == InternalError
      && out.tables.clips[clipId].status == Error && out.tables.clips[clipId].storageUrl == Some(path)
      && out.tables.subscriptions == t.subscriptions
      && (transcript.Some? ==> Transcription(clipId, transcript.value) in out.tables.transcriptions)
  {
    var out := Settle(t, clipId, userId, Some(path), transcript, minutes);
    if transcript.Some? {
      assert out.tables.transcriptions[|t.transcriptions|] == Transcription(clipId, transcript.value);
    }
  }

  /**
   * Minutes are charged to the session's user, not to the clip's owner, and
   * only together with a `ready` clip.
   */
  lemma ChargedWithReadyClip(t: Tables, clipId: string, userId: string, clipPath: Option<string>, transcript: Option<string>, minutes: int)
    requires minutes != 0
    ensures var out := Settle(t, clipId, userId, clipPath, transcript, minutes);
      out.tables.subscriptions != t.subscriptions ==>
        && clipId in out.tables.clips && out.tables.clips[clipId].status == Ready
        && out.tables.subscriptions.Keys == t.subscriptions.Keys
        && out.tables.subscriptions[userId].minutesUsed == t.subscriptions[userId].minutesUsed + minutes
        && forall u :: u in t.subscriptions && u != userId ==> out.tables.subscriptions[u] == t.subscriptions[u]
  {
  }

  /**
   * Neither route bounds the window from below: a window reversed by a
   * minute or more passes the clip route's checks while the user is within
   * the limit, and its charge is negative, so processing it lowers the
   * minutes used.
   */
  lemma ReversedWindowRefunds(rec: SubscriptionRecord, startMs: int, endMs: int)
    requires endMs <= startMs - ClipsRoute.MsPerMinute && rec.minutesUsed <= MinutesLimit(ClipsRoute.RoutePlan(rec))
    ensures ClipsRoute.Admission(rec, startMs, endMs).Ok?
    ensures ClipsRoute.NeededMinutes(endMs - startMs) < 0
  {
    ClipsRoute.NoLowerBound(rec, startMs, endMs);
  }

  /** The storage path `extractClip` resolves with, given the outcomes of its steps. */
  function ExtractedPath(outputId: string, downloaded: bool, transcode: TranscodeOutcome, uploaded: bool): Option<string> {
    if downloaded && transcode.Finished? && uploaded then Some("clips/" + TempName("output", outputId, "mp4")) else None
  }

  /**
   * The handler.  `transcript` is what the transcription step yields when
   * it is reached (`None` when it throws); the extraction's step outcomes
   * and temporary-file ids are passed through to `extractClip`.
   */
  method ProcessClip(
    db: Database, tmp: TempDir, session: Option<string>, body: ProcessingBody,
    inputId: string, outputId: string, downloaded: bool, transcode: TranscodeOutcome, uploaded: bool,
    transcript: Option<string>)
    returns (resp: Response)
    modifies db`clips, db`subscriptions, db`transcriptions, tmp
    ensures var before := Tables(old(db.clips), old(db.subscriptions), old(db.transcriptions));
      var after := Tables(db.clips, db.subscriptions, db.transcriptions);
      && (!Present(session) ==> resp == Unauthorized && after == before && tmp.files == old(tmp.files))
      && (Present(session) && (!Present(body.action) || !Present(body.clipId) || !Present(body.videoUrl)) ==>
            resp == MissingFields && after == before && tmp.files == old(tmp.files))
      && (Present(session) && Present(body.action) && Present(body.clipId) && Present(body.videoUrl) ==>
            if body.action.value != "extractClip" then
              resp == UnknownAction && after == before && tmp.files == old(tmp.files)
            else
              Outcome(resp, after) == Settle(before, body.clipId.value, session.value,
                ExtractedPath(outputId, downloaded, transcode, uploaded),
                if body.subtitlesEnabled == Some(true) then transcript else None,
                ClipsRoute.NeededMinutes(body.endMs - body.startMs)))
  {
    if !Present(session) {
      return Unauthorized;
    }
    var userId := session.value;
    if !Present(body.action) || !Present(body.clipId) || !Present(body.videoUrl) {
      return MissingFields;
    }
    var clipId := body.clipId.value;
    if body.action.value != "extractClip" {
      return UnknownAction;
    }
    var _, _, extracted := ExtractClip(tmp, body.videoUrl.value, body.startMs, body.endMs,
      body.resolution.GetOr(DefaultResolution), body.watermark == Some(true), "mp4",
      inputId, outputId, downloaded, transcode, uploaded);
    var path := if extracted.Ok? then Some(extracted.value) else None;
    assert path == ExtractedPath(outputId, downloaded, transcode, uploaded);
    resp := RecordClip(db, clipId, userId, path,
      if body.subtitlesEnabled == Some(true) then transcript else None,
      ClipsRoute.NeededMinutes(body.endMs - body.startMs));
  }

  /** The writes after `extractClip` has settled, in the handler's order, each one throwing on a missing row. */
  method RecordClip(db: Database, clipId: string, userId: string, clipPath: Option<string>, transcript: Option<string>, minutes: int)
    returns (resp: Response)
    modifies db`clips, db`subscriptions, db`transcriptions
    ensures Outcome(resp, Tables(db.clips, db.subscriptions, db.transcriptions)) ==
      Settle(Tables(old(db.clips), old(db.subscriptions), old(db.transcriptions)), clipId, userId, clipPath, transcript, minutes)
  {
    ghost var before := Tables(db.clips, db.subscriptions, db.transcriptions);
    if clipPath.None? || clipId !in db.clips {
      // extractClip rejected, or the storage-path update found no row
      MarkClipFailed(db, clipId);
      return InternalError;
    }
    var stored := db.clips[clipId].(storageUrl := clipPath);
    db.clips := db.clips[clipId := stored];
    if transcript.Some? {
      db.transcriptions := db.transcriptions + [Transcription(clipId, transcript.value)];
    }
    db.clips := db.clips[clipId := stored.(status := Ready)];
    ghost var ready := Tables(before.clips[clipId := stored.(status := Ready)], before.subscriptions, db.transcriptions);
    assert db.clips == ready.clips;
    if userId !in db.subscriptions {
      // the minutes update found no row
      MarkClipFailed(db, clipId);
      assert Settle(before, clipId, userId, clipPath, transcript, minutes) == Outcome(InternalError, MarkFailed(ready, clipId));
      return InternalError;
    }
    var rec := db.subscriptions[userId];
    db.subscriptions := db.subscriptions[userId := rec.(minutesUsed := rec.minutesUsed + minutes)];
    assert Settle(before, clipId, userId, clipPath, transcript, minutes)
      == Outcome(Success, ready.(subscriptions := db.subscriptions));
    resp := Success;
  }

  /** The catch block's update of the clip to `error`. */
  method MarkClipFailed(db: Database, clipId: string)
    modifies db`clips
    ensures Tables(db.clips, db.subscriptions, db.transcriptions) ==
      MarkFailed(Tables(old(db.clips), db.subscriptions, db.transcriptions), clipId)
  {
    if clipId in db.clips {
      db.clips := db.clips[clipId := db.clips[clipId].(status := Error)];
    }
  }
}
