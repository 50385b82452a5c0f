/**
 * POST of app/api/clips/route.ts: admit a clip request against the
 * caller's plan and minutes, create the `processing` clip row and hand the
 * job to the processing route.  Times are integer milliseconds; the route's
 * 60-second ceiling is 60000 ms and `Math.ceil(duration / 60)` minutes is
 * `CeilDiv(durationMs, 60000)`.
 */
module ClipsRoute {
  import opened Wrappers
  import opened Text
  import opened JsMath
  import opened Plans
  import opened Store
  import opened Subscription

  /** `maxClipDuration`, in milliseconds. */
  const MaxClipMs: int := 60000
  const MsPerMinute: int := 60000

  /** The JSON body; an absent field is `None`. */
  datatype ClipRequest = ClipRequest(
    videoId: Option<string>,
    title: Option<string>,
    startMs: Option<int>,
    endMs: Option<int>,
    resolution: Option<string>,
    subtitlesEnabled: Option<bool>)

  datatype Rejection =
    | Unauthorized
    | MissingFields
    | TooLong
    | NotEnoughMinutes(used: int, max: int)
    | VideoNotFound

  function RejectionStatus(r: Rejection): int {
    match r
    case Unauthorized => 401
    case MissingFields => 400
    case TooLong => 403
    case NotEnoughMinutes(_, _) => 403
    case VideoNotFound => 404
  }

  /**
   * The route's own plan: FREE without a price id, PRO when the id contains
   * `pro`, CREATOR for any other id.  Neither the period end nor the
   * configured price ids are looked at.
   */
  function RoutePlan(rec: SubscriptionRecord): (p: PlanId)
    ensures p == Free <==> !Present(rec.stripePriceId)
    ensures p == Pro <==> Present(rec.stripePriceId) && Includes(rec.stripePriceId.value, "pro")
  {
    if !Present(rec.stripePriceId) then Free
    else if Includes(rec.stripePriceId.value, "pro") then Pro
    else Creator
  }

  /**
   * The route grants a paid plan to a subscription that `getUserPlan`
   * treats as expired, and a price id containing `pro` counts as PRO
   * whatever the configured PRO id is.
   */
  lemma RoutePlanDisagreesWithUserPlan(rec: SubscriptionRecord, now: int, env: PriceIds)
    requires Present(rec.stripePriceId) && !WithinGrace(rec.periodEndMs, now)
    ensures RoutePlan(rec) != Free && UserPlanOf(rec, now, env) == Free
    ensures Includes(rec.stripePriceId.value, "pro") ==> RoutePlan(rec) == Pro
  {
  }

  /** `Math.ceil(clipDuration / 60)`. */
  function NeededMinutes(durationMs: int): int {
    CeilDiv(durationMs, MsPerMinute)
  }

  /**
   * The duration and minutes checks: too long above 60 s, otherwise
   * rejected exactly when the minutes used plus the minutes needed exceed
   * the plan's limit.  An admitted request carries the watermark flag,
   * which is set exactly on the FREE plan.
   */
  function Admission(rec: SubscriptionRecord, startMs: int, endMs: int): (r: Result<bool, Rejection>)
    ensures endMs - startMs > MaxClipMs ==> r == Err(TooLong)
    ensures endMs - startMs <= MaxClipMs ==>
      (r.Ok? <==> rec.minutesUsed + NeededMinutes(endMs - startMs) <= MinutesLimit(RoutePlan(rec)))
    ensures r.Err? && endMs - startMs <= MaxClipMs ==>
      r.error == NotEnoughMinutes(rec.minutesUsed, MinutesLimit(RoutePlan(rec)))
    ensures r.Ok? ==> (r.value <==> RoutePlan(rec) == Free)
  {
    var plan := RoutePlan(rec);
    var duration := endMs - startMs;
    if duration > MaxClipMs then Err(TooLong)
    else
      var needed := NeededMinutes(duration);
      var used := rec.minutesUsed;
      var max := MinutesLimit(plan);
      if used + needed > max then Err(NotEnoughMinutes(used, max))
      else Ok(plan == Free)
  }

  /** Exactly 60 s is accepted and costs one minute, and landing exactly on the limit is accepted. */
  lemma BoundariesAccepted(rec: SubscriptionRecord, startMs: int)
    requires rec.minutesUsed + 1 == MinutesLimit(RoutePlan(rec))
    ensures NeededMinutes(MaxClipMs) == 1
    ensures Admission(rec, startMs, startMs + MaxClipMs).Ok?
  {
  }

  /** Every admitted clip of positive length costs exactly one minute, since none is longer than 60 s. */
  lemma AdmittedClipCostsOneMinute(rec: SubscriptionRecord, startMs: int, endMs: int)
    requires startMs < endMs && Admission(rec, startMs, endMs).Ok?
    ensures NeededMinutes(endMs - startMs) == 1
  {
  }

  /**
   * There is no lower bound: an empty or reversed window is admitted while
   * the minutes used are within the limit, and it needs zero or fewer
   * minutes.
   */
  lemma NoLowerBound(rec: SubscriptionRecord, startMs: int, endMs: int)
    requires endMs <= startMs && rec.minutesUsed <= MinutesLimit(RoutePlan(rec))
    ensures NeededMinutes(endMs - startMs) <= 0
    ensures Admission(rec, startMs, endMs).Ok?
  {
  }

  /** What an admitted request goes on with. */
  datatype Admitted = Admitted(userId: string, videoId: string, startMs: int, endMs: int, watermark: bool, video: Video)

  /**
   * Every check of the handler, in its order, over the subscription table
   * as `getUserSubscription` leaves it: 401, 400, the two 403s, then 404
   * for a video that is missing or belongs to someone else.
   */
  function Decide(session: Option<string>, req: ClipRequest, subs: map<string, SubscriptionRecord>, videos: map<string, Video>)
    : (r: Result<Admitted, Rejection>)
    ensures !Present(session) ==> r == Err(Unauthorized)
    ensures Present(session) && (!Present(req.videoId) || req.startMs.None? || req.endMs.None?) ==> r == Err(MissingFields)
    ensures r.Ok? ==>
      && Present(session) && Present(req.videoId) && req.startMs.Some? && req.endMs.Some?
      && req.videoId.value in videos && videos[req.videoId.value].userId == session.value
      && var rec := FindOrCreate(subs, session.value)[session.value];
      && r.value == Admitted(session.value, req.videoId.value, req.startMs.value, req.endMs.value,
                             RoutePlan(rec) == Free, videos[req.videoId.value])
      && Admission(rec, req.startMs.value, req.endMs.value) == Ok(RoutePlan(rec) == Free)
    ensures r == Err(VideoNotFound) ==>
      req.videoId.Some? && (req.videoId.value !in videos || videos[req.videoId.value].userId != session.value)
    ensures Present(session) && Present(req.videoId) && req.startMs.Some? && req.endMs.Some? ==>
      var rec := FindOrCreate(subs, session.value)[session.value];
      var a := Admission(rec, req.startMs.value, req.endMs.value);
      && (a.Err? ==> r == Err(a.error))
      && (a.Ok? ==>
            if req.videoId.value in videos && videos[req.videoId.value].userId == session.value
            then r.Ok? else r == Err(VideoNotFound))
  {
    if !Present(session) then Err(Unauthorized)
    else if !Present(req.videoId) || req.startMs.None? || req.endMs.None? then Err(MissingFields)
    else
      var userId := session.value;
      var rec := FindOrCreate(subs, userId)[userId];
      match Admission(rec, req.startMs.value, req.endMs.value)
      case Err(e) => Err(e)
      case Ok(watermark) =>
        match FindUnique(videos, req.videoId.value)
        case None => Err(VideoNotFound)
        case Some(video) =>
          if video.userId != userId then Err(VideoNotFound)
          else Ok(Admitted(userId, req.videoId.value, req.startMs.value, req.endMs.value, watermark, video))
  }

  /** The clip row created for an admitted request: `processing`, titled, with the client's resolution. */
  function NewClip(a: Admitted, title: Option<string>, resolution: Option<string>): (c: Clip)
    ensures c.userId == a.userId && c.videoId == a.videoId && c.startMs == a.startMs && c.endMs == a.endMs
    ensures c.durationMs == a.endMs - a.startMs && c.status == Processing && c.storageUrl == None
    ensures Present(title) ==> c.title == title.value
    ensures !Present(title) ==> c.title == "Clip from " + a.video.filename
    ensures resolution.Some? ==> c.resolution == resolution.value
    ensures resolution.None? ==> c.resolution == "720p"
  {
    Clip(a.userId, a.videoId,
      if Present(title) then title.value else "Clip from " + a.video.filename,
      a.startMs, a.endMs, a.endMs - a.startMs, Processing,
      resolution.GetOr("720p"), None)
  }

  /** The body posted to the processing route. */
  datatype ProcessingRequest = ProcessingRequest(
    action: string, clipId: string, videoUrl: string, startMs: int, endMs: int,
    resolution: string, watermark: bool, subtitlesEnabled: bool, userId: string)

  /** What the processing request reports: OK, a non-OK status, or a thrown error. */
  datatype FetchOutcome = FetchOk | FetchNotOk | FetchThrew

  datatype Response = Rejected(reason: Rejection) | Created(clip: Clip) | InternalError

  function Status(r: Response): int {
    match r
    case Rejected(reason) => RejectionStatus(reason)
    case Created(_) => 200
    case InternalError => 500
  }

  /**
   * The handler.  Rejections change nothing but the subscription table
   * (which `getUserSubscription` fills in before the plan is known); an
   * admitted request adds the `processing` row under the new id before the
   * processing request is sent, and a failed request leaves it there and
   * answers 500.
   */
  method PostClip(db: Database, session: Option<string>, req: ClipRequest, newClipId: string, fetch: FetchOutcome)
    returns (resp: Response, sent: Option<ProcessingRequest>)
    requires newClipId !in db.clips
    modifies db`subscriptions, db`clips
    ensures var d := Decide(session, req, old(db.subscriptions), db.videos);
      && var complete := Present(session) && Present(req.videoId) && req.startMs.Some? && req.endMs.Some?;
      && (complete ==> db.subscriptions == FindOrCreate(old(db.subscriptions), session.value))
      && (!complete ==> db.subscriptions == old(db.subscriptions))
      && (d.Err? ==> resp == Rejected(d.error) && sent == None && db.clips == old(db.clips))
      && (d.Ok? ==>
            && db.clips == old(db.clips)[newClipId := NewClip(d.value, req.title, req.resolution)]
            && sent == Some(ProcessingRequest("extractClip", newClipId, d.value.video.storageUrl,
                 d.value.startMs, d.value.endMs, req.resolution.GetOr("720p"), d.value.watermark,
                 req.subtitlesEnabled.GetOr(false), d.value.userId))
            && resp == if fetch == FetchOk then Created(NewClip(d.value, req.title, req.resolution)) else InternalError)
  {
    sent := None;
    if !Present(session) {
      return Rejected(Unauthorized), None;
    }
    var userId := session.value;
    if !Present(req.videoId) || req.startMs.None? || req.endMs.None? {
      return Rejected(MissingFields), None;
    }
    var videoId, startMs, endMs := req.videoId.value, req.startMs.value, req.endMs.value;
    var resolution := req.resolution.GetOr("720p");
    var subtitlesEnabled := req.subtitlesEnabled.GetOr(false);
    var found := GetUserSubscription(db, session, None);
    var rec := found.value;
    var admission := Admission(rec, startMs, endMs);
    if admission.Err? {
      return Rejected(admission.error), None;
    }
    var watermark := admission.value;
    var video := FindUnique(db.videos, videoId);
    if video.None? || video.value.userId != userId {
      return Rejected(VideoNotFound), None;
    }
    var a := Admitted(userId, videoId, startMs, endMs, watermark, video.value);
    var clip := NewClip(a, req.title, req.resolution);
    db.clips := db.clips[newClipId := clip];
    sent := Some(ProcessingRequest("extractClip", newClipId, video.value.storageUrl,
      startMs, endMs, resolution, watermark, subtitlesEnabled, userId));
    if fetch != FetchOk {
      // `!response.ok` throws, and so does the fetch itself; the catch answers 500.
      return InternalError, sent;
    }
    resp := Created(clip);
  }
}
