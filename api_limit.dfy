/**
 * lib/api-limit.ts: a per-user usage counter with a free-tier threshold.
 * The user id the cookie resolves to is a parameter (`None` when there is
 * no session).
 */
module ApiLimit {
  import opened Wrappers
  import opened Plans

  /** `MAX_FREE_COUNTS`. */
  const MaxFreeCounts: int := 5

  /** The count stored for a user, 0 without a row. */
  function CountIn(counts: map<string, int>, userId: string): int {
    if userId in counts then counts[userId] else 0
  }

  /** The table after one increment for `userId`. */
  function Bump(counts: map<string, int>, userId: string): (r: map<string, int>)
    ensures r.Keys == counts.Keys + {userId}
    ensures CountIn(r, userId) == CountIn(counts, userId) + 1
    ensures forall u :: u in counts && u != userId ==> r[u] == counts[u]
  {
    counts[userId := CountIn(counts, userId) + 1]
  }

  /** `k` increments in a row for the same user. */
  function BumpTimes(counts: map<string, int>, userId: string, k: nat): map<string, int> {
    if k == 0 then counts else Bump(BumpTimes(counts, userId, k - 1), userId)
  }

  /** `k` increments raise that user's count by exactly `k` and touch no other row. */
  lemma {:induction false} BumpTimesCounts(counts: map<string, int>, userId: string, k: nat)
    ensures CountIn(BumpTimes(counts, userId, k), userId) == CountIn(counts, userId) + k
    ensures forall u :: u != userId ==> CountIn(BumpTimes(counts, userId, k), u) == CountIn(counts, u)
  {
    if k > 0 {
      BumpTimesCounts(counts, userId, k - 1);
    }
  }

  class ApiLimitTable {
    /** `userApiLimit`, keyed by its unique `userId`. */
    var counts: map<string, int>

    constructor(counts: map<string, int>)
      ensures this.counts == counts
    {
      this.counts := counts;
    }

    /**
     * `checkApiLimit`: false without a user; true without a row or below
     * `MAX_FREE_COUNTS`.  With a user it passes exactly while the count
     * `getApiLimitCount` reports is below the threshold; without one it
     * fails although that count reads 0.
     */
    predicate Check(userId: Option<string>)
      reads this
      ensures Check(userId) <==> Present(userId) && Count(userId) < MaxFreeCounts
    {
      Present(userId) && (userId.value !in counts || counts[userId.value] < MaxFreeCounts)
    }

    /** `getApiLimitCount`: 0 without a user or a row, otherwise the stored count. */
    function Count(userId: Option<string>): (n: int)
      reads this
      ensures !Present(userId) ==> n == 0
      ensures Present(userId) ==> n == CountIn(counts, userId.value)
    {
      if !Present(userId) then 0
      else if userId.value !in counts then 0
      else counts[userId.value]
    }

    /** `incrementApiLimit`: nothing without a user; otherwise create the row at 1 or add one to it. */
    method Increment(userId: Option<string>)
      modifies this
      ensures !Present(userId) ==> counts == old(counts)
      ensures Present(userId) ==> counts == Bump(old(counts), userId.value)
    {
      if !Present(userId) {
        return;
      }
      if userId.value in counts {
        counts := counts[userId.value := counts[userId.value] + 1];
      } else {
        counts := counts[userId.value := 1];
      }
    }
  }

  /**
   * A user without a row reads `k` after `k` increments and passes the
   * check exactly for the first `MAX_FREE_COUNTS` calls.
   */
  lemma FreeCallsFromNoRow(counts: map<string, int>, userId: string, k: nat)
    requires userId !in counts
    ensures CountIn(BumpTimes(counts, userId, k), userId) == k
    ensures var after := BumpTimes(counts, userId, k);
      (userId !in after || after[userId] < MaxFreeCounts) <==> k < MaxFreeCounts
  {
    BumpTimesCounts(counts, userId, k);
    if k > 0 {
      assert userId in BumpTimes(counts, userId, k);
    }
  }
}
