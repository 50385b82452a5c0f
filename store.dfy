/**
 * The database tables the clip pipeline reads and writes (subscriptions,
 * videos, clips and clip transcriptions), as maps keyed like their unique
 * columns.  Row identifiers the database would generate are passed in.
 */
module Store {
  import opened Wrappers

  /** `findUnique`: the row under a key, if there is one. */
  function FindUnique<K, V>(table: map<K, V>, key: K): (r: Option<V>)
    ensures r.Some? <==> key in table
    ensures r.Some? ==> r.value == table[key]
  {
    if key in table then Some(table[key]) else None
  }

  /** A `userSubscription` row; the period end is in milliseconds since the epoch. */
  datatype SubscriptionRecord = SubscriptionRecord(
    userId: string,
    stripePriceId: Option<string>,
    periodEndMs: Option<int>,
    minutesUsed: int,
    minutesLimit: int)

  datatype Video = Video(userId: string, filename: string, storageUrl: string)

  datatype ClipStatus = Processing | Ready | Error

  /** A `clip` row; times in milliseconds. */
  datatype Clip = Clip(
    userId: string,
    videoId: string,
    title: string,
    startMs: int,
    endMs: int,
    durationMs: int,
    status: ClipStatus,
    resolution: string,
    storageUrl: Option<string>)

  datatype Transcription = Transcription(clipId: string, text: string)

  class Database {
    /** `userSubscription`, keyed by its unique `userId`. */
    var subscriptions: map<string, SubscriptionRecord>
    var videos: map<string, Video>
    var clips: map<string, Clip>
    var transcriptions: seq<Transcription>

    constructor(subscriptions: map<string, SubscriptionRecord>, videos: map<string, Video>, clips: map<string, Clip>)
      ensures this.subscriptions == subscriptions && this.videos == videos && this.clips == clips
      ensures transcriptions == []
    {
      this.subscriptions := subscriptions;
      this.videos := videos;
      this.clips := clips;
      transcriptions := [];
    }
  }
}
