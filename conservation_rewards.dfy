/**
 * The conservation rewards panel: a fixed table of four tiers with
 * ascending point thresholds, the user's current tier, the next tier to
 * reach and the points still missing, and the "earned" mark on each tier.
 */
module ConservationRewards {
  import opened Outcomes

  /** An entry of `rewardTiers`. */
  datatype RewardTier = RewardTier(name: string, points: int, badge: string, color: string)

  const RewardTiers: seq<RewardTier> := [
    RewardTier("कांस्य रक्षक", 500, "🥉", "text-yellow-600"),
    RewardTier("रजत रक्षक", 1500, "🥈", "text-gray-400"),
    RewardTier("स्वर्ण रक्षक", 3000, "🥇", "text-yellow-400"),
    RewardTier("हीरा रक्षक", 5000, "💎", "text-blue-400")
  ]

  /** The hard-coded `userPoints`. */
  const UserPoints := 2450

  /** The thresholds strictly increase along the table. */
  lemma ThresholdsIncrease(i: int, j: int)
    requires 0 <= i < j < |RewardTiers|
    ensures RewardTiers[i].points < RewardTiers[j].points
  {
  }

  /** The `find` predicate for the current tier: the tier's band contains the points. */
  predicate InBand(points: int, i: nat)
    requires i < |RewardTiers|
  {
    points >= RewardTiers[i].points
    && (i == |RewardTiers| - 1 || points < RewardTiers[i + 1].points)
  }

  /** The first index at or after `from` whose band contains the points. */
  function FindBand(points: int, from: nat): (r: Option<nat>)
    requires from <= |RewardTiers|
    ensures r.Some? ==> from <= r.value < |RewardTiers| && InBand(points, r.value)
                        && forall k :: from <= k < r.value ==> !InBand(points, k)
    ensures r.None? ==> forall k :: from <= k < |RewardTiers| ==> !InBand(points, k)
    decreases |RewardTiers| - from
  {
    if from == |RewardTiers| then None
    else if InBand(points, from) then Some(from)
    else FindBand(points, from + 1)
  }

  /** `currentTier`: the tier found by the band search, or the first tier when none is found. */
  function CurrentTierIndex(points: int): (i: nat)
    ensures i < |RewardTiers|
    ensures points >= RewardTiers[0].points ==> InBand(points, i)
    ensures points < RewardTiers[0].points ==> i == 0
  {
    match FindBand(points, 0)
    case Some(i) => i
    case None =>
      0
  }

  /** At most one tier's band contains a given number of points. */
  lemma BandsDisjoint(points: int, i: nat, j: nat)
    requires i < |RewardTiers| && j < |RewardTiers|
    requires InBand(points, i) && InBand(points, j)
    ensures i == j
  {
  }

  /** The current tier is the unique tier whose band contains the points, once the first threshold is reached. */
  lemma CurrentTierUnique(points: int, j: nat)
    requires j < |RewardTiers| && InBand(points, j)
    ensures CurrentTierIndex(points) == j
  {
    BandsDisjoint(points, CurrentTierIndex(points), j);
  }

  /** `nextTier`: the first tier whose threshold is above the points, if any. */
  function NextTierIndex(points: int): (r: Option<nat>)
    ensures r.Some? ==> r.value < |RewardTiers| && RewardTiers[r.value].points > points
                        && forall k :: 0 <= k < r.value ==> RewardTiers[k].points <= points
    ensures r.None? <==> points >= RewardTiers[|RewardTiers| - 1].points
  {
    NextFrom(points, 0)
  }

  /** The first index at or after `from` whose threshold is above the points. */
  function NextFrom(points: int, from: nat): (r: Option<nat>)
    requires from <= |RewardTiers|
    ensures r.Some? ==> from <= r.value < |RewardTiers| && RewardTiers[r.value].points > points
                        && forall k :: from <= k < r.value ==> RewardTiers[k].points <= points
    ensures r.None? ==> forall k :: from <= k < |RewardTiers| ==> RewardTiers[k].points <= points
    decreases |RewardTiers| - from
  {
    if from == |RewardTiers| then None
    else if RewardTiers[from].points > points then Some(from)
    else NextFrom(points, from + 1)
  }

  /** `nextTier.points - userPoints`, shown only when there is a next tier. */
  function RemainingPoints(points: int): (r: Option<int>)
    ensures r.Some? <==> NextTierIndex(points).Some?
    ensures r.Some? ==> r.value > 0 && points + r.value == RewardTiers[NextTierIndex(points).value].points
  {
    match NextTierIndex(points)
    case Some(j) => Some(RewardTiers[j].points - points)
    case None => None
  }

  /** A tier is marked earned iff the points reach its threshold. */
  predicate Earned(points: int, i: nat)
    requires i < |RewardTiers|
  {
    points >= RewardTiers[i].points
  }

  /** The earned tiers are a prefix of the table. */
  lemma EarnedIsPrefix(points: int, i: nat, j: nat)
    requires j <= i < |RewardTiers|
    requires Earned(points, i)
    ensures Earned(points, j)
  {
    if j < i {
      ThresholdsIncrease(j, i);
    }
  }

  /** From the first threshold on, the tiers marked earned are exactly those up to the current one. */
  lemma {:induction false} EarnedUpToCurrent(points: int, i: nat)
    requires points >= RewardTiers[0].points && i < |RewardTiers|
    ensures Earned(points, i) <==> i <= CurrentTierIndex(points)
  {
    var c := CurrentTierIndex(points);
    if i <= c {
      EarnedIsPrefix(points, c, i);
    } else if c + 1 < i {
      ThresholdsIncrease(c + 1, i);
    }
  }

  /** Once the first threshold is reached, the next tier directly follows the current one. */
  lemma NextFollowsCurrent(points: int)
    requires points >= RewardTiers[0].points
    ensures var next := NextTierIndex(points);
            next.Some? ==> next.value == CurrentTierIndex(points) + 1
    ensures NextTierIndex(points).None? ==> CurrentTierIndex(points) == |RewardTiers| - 1
  {
    var c := CurrentTierIndex(points);
    var next := NextTierIndex(points);
    if next.Some? {
      var j := next.value;
      if j <= c {
        EarnedIsPrefix(points, c, j);
      }
    }
  }

  /**
   * Below the first threshold the current tier falls back to bronze, which
   * is also the next tier and is not marked earned.
   */
  lemma BelowFirstThreshold(points: int)
    requires points < RewardTiers[0].points
    ensures CurrentTierIndex(points) == 0 && !Earned(points, 0)
    ensures NextTierIndex(points) == Some(0)
  {
  }

  /** The hard-coded 2450 points: silver now, gold next, 550 to go. */
  lemma UserPointsExample()
    ensures CurrentTierIndex(UserPoints) == 1 && RewardTiers[1].points == 1500
    ensures NextTierIndex(UserPoints) == Some(2) && RewardTiers[2].points == 3000
    ensures RemainingPoints(UserPoints) == Some(550)
  {
    CurrentTierUnique(UserPoints, 1);
  }
}
