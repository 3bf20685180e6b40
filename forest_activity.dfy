/**
 * The mock forest-activity service: a store of simulated activities that is
 * seeded once with 50 entries, grows by 1 to 3 entries per real-time update,
 * and reports per-type and per-severity counts.
 *
 * Every `Math.random()` value the service draws is a parameter here. The
 * coordinate jitter, the timestamps and the `Date.now()` suffix of the ids
 * are not modelled: an activity keeps the table row it was placed at and the
 * counter part of its id.
 */
module ForestActivity {
  import opened JsMath

  datatype ActivityType =
    | Poaching
    | AnimalMovement
    | IllegalLogging
    | VehicleIntrusion
    | FireDetection
    | ConservationPatrol

  datatype Severity = Low | Medium | High

  /** A row of `forestLocations`. */
  datatype ForestLocation = ForestLocation(name: string, lat: real, lng: real)

  /** `${source}_${counter}_${Date.now()}`, without the time part. */
  datatype ActivityId = ActivityId(source: string, counter: nat)

  /**
   * `ActivityData`. `site` is the location row: its name is the activity's
   * `location`, its coordinates the base of `latitude` and `longitude`.
   */
  datatype Activity = Activity(
    id: ActivityId,
    kind: ActivityType,
    site: ForestLocation,
    severity: Severity,
    description: string,
    confidence: int)

  const ForestLocations: seq<ForestLocation> := [
    ForestLocation("Sundarbans, West Bengal", 21.9497, 88.4297),
    ForestLocation("Jim Corbett, Uttarakhand", 29.5951, 78.7718),
    ForestLocation("Kaziranga, Assam", 26.5774, 93.1717),
    ForestLocation("Bandipur, Karnataka", 11.6854, 76.6847),
    ForestLocation("Ranthambore, Rajasthan", 26.0173, 76.5026),
    ForestLocation("Periyar, Kerala", 9.5009, 77.2378),
    ForestLocation("Gir Forest, Gujarat", 21.1249, 70.7947),
    ForestLocation("Tadoba, Maharashtra", 20.2133, 79.3270),
    ForestLocation("Bandhavgarh, Madhya Pradesh", 23.7117, 81.0318),
    ForestLocation("Nagarhole, Karnataka", 12.0262, 76.1090),
    ForestLocation("Mudumalai, Tamil Nadu", 11.5744, 76.5390),
    ForestLocation("Silent Valley, Kerala", 11.0933, 76.4497),
    ForestLocation("Simlipal, Odisha", 21.8631, 86.2269),
    ForestLocation("Pench, Madhya Pradesh", 21.6425, 79.2955),
    ForestLocation("Sariska, Rajasthan", 27.3048, 76.3908)
  ]

  const ActivityTypes: seq<ActivityType> :=
    [Poaching, AnimalMovement, IllegalLogging, VehicleIntrusion, FireDetection, ConservationPatrol]

  const SeverityLevels: seq<Severity> := [Low, Medium, High]

  /** `activityDescriptions[type]`. */
  function Descriptions(kind: ActivityType): (phrases: seq<string>)
    ensures |phrases| == 3
  {
    match kind
    case Poaching => [
      "Suspicious human activity detected near wildlife corridor",
      "Unauthorized weapons detected by thermal imaging",
      "Unusual movement patterns suggesting hunting activity"]
    case AnimalMovement => [
      "Tiger family moving through protected zone",
      "Elephant herd migration detected",
      "Leopard spotted in new territory"]
    case IllegalLogging => [
      "Chainsaw sounds detected in restricted area",
      "Unauthorized tree cutting activity",
      "Illegal timber transport vehicles spotted"]
    case VehicleIntrusion => [
      "Unauthorized vehicle entered protected zone",
      "Motorcycle activity in core area",
      "Suspicious vehicle movement at night"]
    case FireDetection => [
      "Smoke detected in forest area",
      "Temperature anomaly suggesting fire",
      "Potential wildfire risk identified"]
    case ConservationPatrol => [
      "Ranger patrol completed successfully",
      "Camera trap maintenance completed",
      "Wildlife monitoring checkpoint active"]
  }

  const InitialCount := 50
  const MaxUpdates := 3

  /**
   * An activity the tables could have produced: a listed location row, a
   * phrase of its own type and a confidence of 70 to 99.
   */
  predicate WellFormed(a: Activity) {
    a.site in ForestLocations
    && a.description in Descriptions(a.kind)
    && 70 <= a.confidence <= 99
  }

  /** The draws of `generateRandomActivity`, in call order (the two jitter draws left out). */
  datatype SeedDraws = SeedDraws(location: real, kind: real, severity: real, description: real, confidence: real)

  predicate ValidSeedDraws(d: SeedDraws) {
    IsUnit(d.location) && IsUnit(d.kind) && IsUnit(d.severity)
    && IsUnit(d.description) && IsUnit(d.confidence)
  }

  /** Draws a `Math.random()` sequence can produce. */
  type SeedDraw = d: SeedDraws | ValidSeedDraws(d) witness SeedDraws(0.0, 0.0, 0.0, 0.0, 0.0)

  /** The draws of one iteration of `getRealtimeUpdates`, in call order (jitter left out). */
  datatype LiveDraws = LiveDraws(bias: real, kind: real, location: real, severity: real,
                                 description: real, confidence: real)

  predicate ValidLiveDraws(d: LiveDraws) {
    IsUnit(d.bias) && IsUnit(d.kind) && IsUnit(d.location) && IsUnit(d.severity)
    && IsUnit(d.description) && IsUnit(d.confidence)
  }

  /** Draws a `Math.random()` sequence can produce. */
  type LiveDraw = d: LiveDraws | ValidLiveDraws(d) witness LiveDraws(0.0, 0.0, 0.0, 0.0, 0.0, 0.0)

  /** The activity `generateRandomActivity` builds with the given counter: every table picked uniformly. */
  function SeedActivity(counter: nat, d: SeedDraw): (a: Activity)
    ensures WellFormed(a)
    ensures a.id == ActivityId("activity", counter)
  {
    var kind := Pick(ActivityTypes, d.kind);
    Activity(ActivityId("activity", counter), kind, Pick(ForestLocations, d.location),
             Pick(SeverityLevels, d.severity), Pick(Descriptions(kind), d.description),
             RandomConfidence(d.confidence))
  }

  /**
   * The real-time type choice: below 0.3 an animal movement, below 0.5 a
   * patrol, otherwise a second draw picks any of the six types.
   */
  function LiveKind(bias: real, kind: real): (t: ActivityType)
    requires IsUnit(bias) && IsUnit(kind)
    ensures bias < 0.3 ==> t == AnimalMovement
    ensures 0.3 <= bias < 0.5 ==> t == ConservationPatrol
    ensures bias >= 0.5 ==> t == ActivityTypes[ScaledIndex(kind, 6)]
  {
    if bias < 0.3 then AnimalMovement
    else if bias < 0.5 then ConservationPatrol
    else Pick(ActivityTypes, kind)
  }

  /** Poaching and fire detection are never low: high above 0.7, medium otherwise. */
  function LiveSeverity(kind: ActivityType, r: real): (s: Severity)
    requires IsUnit(r)
    ensures kind == Poaching || kind == FireDetection ==> s != Low && (s == High <==> r > 0.7)
    ensures kind != Poaching && kind != FireDetection ==> s == SeverityLevels[ScaledIndex(r, 3)]
  {
    if kind == Poaching || kind == FireDetection then
      if r > 0.7 then High else Medium
    else
      Pick(SeverityLevels, r)
  }

  /** The activity one iteration of `getRealtimeUpdates` builds with the given counter. */
  function LiveActivity(counter: nat, d: LiveDraw): (a: Activity)
    ensures WellFormed(a)
    ensures a.id == ActivityId("realtime", counter)
    ensures a.kind == LiveKind(d.bias, d.kind) && a.severity == LiveSeverity(a.kind, d.severity)
  {
    var kind := LiveKind(d.bias, d.kind);
    Activity(ActivityId("realtime", counter), kind, Pick(ForestLocations, d.location),
             LiveSeverity(kind, d.severity), Pick(Descriptions(kind), d.description),
             RandomConfidence(d.confidence))
  }

  /**
   * `acts` are the activities `make` builds from the first `n` draws of
   * `ds`, in draw order, with counters start + 1, start + 2, ...
   */
  ghost predicate BuiltFrom<D>(acts: seq<Activity>, start: nat, ds: seq<D>, n: nat, make: (nat, D) -> Activity)
    requires n <= |ds|
  {
    |acts| == n && forall k :: 0 <= k < n ==> acts[k] == make(start + 1 + k, ds[k])
  }

  /** The activity built from the next draw extends the batch by one. */
  lemma BuiltFromSnoc<D>(acts: seq<Activity>, start: nat, ds: seq<D>, n: nat, make: (nat, D) -> Activity, a: Activity)
    requires n < |ds|
    requires BuiltFrom(acts, start, ds, n, make)
    requires a == make(start + 1 + n, ds[n])
    ensures BuiltFrom(acts + [a], start, ds, n + 1, make)
  {
    var r := acts + [a];
    assert forall k :: 0 <= k < n ==> r[k] == acts[k];
    assert r[n] == a;
  }

  /** Appending to the new part of a store appends to the store. */
  lemma AppendBoth<T>(base: seq<T>, news: seq<T>, x: T)
    ensures base + (news + [x]) == (base + news) + [x]
  {
  }

  /** `Math.floor(Math.random() * 3) + 1`. */
  function UpdateCount(r: real): (n: nat)
    requires IsUnit(r)
    ensures 1 <= n <= MaxUpdates
  {
    ScaledIndex(r, 3) + 1
  }

  /** Counters strictly increase along the store and none exceeds `last`. */
  ghost predicate CountersBelow(acts: seq<Activity>, last: nat) {
    (forall i :: 0 <= i < |acts| ==> 0 < acts[i].id.counter <= last)
    && (forall i, j :: 0 <= i < j < |acts| ==> acts[i].id.counter < acts[j].id.counter)
  }

  /**
   * The store's invariant: every activity is well formed and its counter was
   * handed out before `last`, in order.
   */
  ghost predicate StoreInvariant(acts: seq<Activity>, last: nat) {
    (forall i :: 0 <= i < |acts| ==> WellFormed(acts[i]))
    && CountersBelow(acts, last)
  }

  /** Appending a well-formed activity that carries the next counter keeps the invariant. */
  lemma StoreInvariantAppend(acts: seq<Activity>, last: nat, a: Activity)
    requires StoreInvariant(acts, last)
    requires WellFormed(a) && a.id.counter == last + 1
    ensures StoreInvariant(acts + [a], last + 1)
  {
    var r := acts + [a];
    forall i | 0 <= i < |r|
      ensures WellFormed(r[i]) && 0 < r[i].id.counter <= last + 1
    {
      if i < |acts| {
        assert r[i] == acts[i];
      }
    }
    forall i, j | 0 <= i < j < |r|
      ensures r[i].id.counter < r[j].id.counter
    {
      assert r[i] == acts[i];
      if j < |acts| {
        assert r[j] == acts[j];
      }
    }
  }

  /** Strictly increasing counters make the ids pairwise distinct. */
  lemma DistinctIds(acts: seq<Activity>, last: nat, i: int, j: int)
    requires CountersBelow(acts, last)
    requires 0 <= i < |acts| && 0 <= j < |acts| && i != j
    ensures acts[i].id != acts[j].id
  {
    if i > j {
      DistinctIds(acts, last, j, i);
    }
  }

  /** `activities.filter(a => a.type === kind).length`. */
  function CountKind(acts: seq<Activity>, kind: ActivityType): (n: nat)
    ensures n <= |acts|
  {
    if acts == [] then 0
    else (if acts[0].kind == kind then 1 else 0) + CountKind(acts[1..], kind)
  }

  /** `activities.filter(a => a.severity === severity).length`. */
  function CountSeverity(acts: seq<Activity>, severity: Severity): (n: nat)
    ensures n <= |acts|
  {
    if acts == [] then 0
    else (if acts[0].severity == severity then 1 else 0) + CountSeverity(acts[1..], severity)
  }

  /** The object `getActivityStats` resolves to. */
  datatype ActivityStats = ActivityStats(total: nat, byType: map<ActivityType, nat>, bySeverity: map<Severity, nat>)

  /** The `reduce` over the type and severity tables. */
  function StatsOf(acts: seq<Activity>): (s: ActivityStats)
    ensures s.total == |acts|
    ensures s.byType.Keys == set t | t in ActivityTypes
    ensures s.bySeverity.Keys == set v | v in SeverityLevels
  {
    ActivityStats(|acts|,
                  map t | t in ActivityTypes :: CountKind(acts, t),
                  map v | v in SeverityLevels :: CountSeverity(acts, v))
  }

  /** Every activity has exactly one of the six types. */
  lemma {:induction false} KindCountsSum(acts: seq<Activity>)
    ensures CountKind(acts, Poaching) + CountKind(acts, AnimalMovement)
          + CountKind(acts, IllegalLogging) + CountKind(acts, VehicleIntrusion)
          + CountKind(acts, FireDetection) + CountKind(acts, ConservationPatrol) == |acts|
  {
    if acts != [] {
      KindCountsSum(acts[1..]);
    }
  }

  /** Every activity has exactly one of the three severities. */
  lemma {:induction false} SeverityCountsSum(acts: seq<Activity>)
    ensures CountSeverity(acts, Low) + CountSeverity(acts, Medium) + CountSeverity(acts, High) == |acts|
  {
    if acts != [] {
      SeverityCountsSum(acts[1..]);
    }
  }

  /** In the stats, the per-type counts and the per-severity counts each add up to the total. */
  lemma StatsPartitionTotal(acts: seq<Activity>)
    ensures var s := StatsOf(acts);
            s.byType[Poaching] + s.byType[AnimalMovement] + s.byType[IllegalLogging]
            + s.byType[VehicleIntrusion] + s.byType[FireDetection] + s.byType[ConservationPatrol] == s.total
    ensures var s := StatsOf(acts);
            s.bySeverity[Low] + s.bySeverity[Medium] + s.bySeverity[High] == s.total
  {
    KindCountsSum(acts);
    SeverityCountsSum(acts);
  }

  /** `MockForestActivityService`. */
  class MockForestActivityService {
    var activities: seq<Activity>
    var lastActivityId: nat

    /** Every stored activity is well formed and its counter was handed out by this instance, in order. */
    ghost predicate Valid()
      reads this
    {
      StoreInvariant(activities, lastActivityId)
    }

    constructor ()
      ensures Valid() && activities == [] && lastActivityId == 0
    {
      activities := [];
      lastActivityId := 0;
    }

    /** `generateRandomActivity`: takes the next counter; the store is not touched. */
    method GenerateRandomActivity(d: SeedDraw) returns (a: Activity)
      modifies this`lastActivityId
      ensures lastActivityId == old(lastActivityId) + 1
      ensures a == SeedActivity(lastActivityId, d)
    {
      lastActivityId := lastActivityId + 1;
      var kind := Pick(ActivityTypes, d.kind);
      a := Activity(ActivityId("activity", lastActivityId), kind, Pick(ForestLocations, d.location),
                    Pick(SeverityLevels, d.severity), Pick(Descriptions(kind), d.description),
                    RandomConfidence(d.confidence));
    }

    /**
     * The part of `getActivities` before its 500 ms delay: an empty store is
     * seeded with 50 activities, a non-empty one is left alone.
     */
    method SeedIfEmpty(draws: seq<SeedDraw>)
      requires Valid()
      requires |draws| == InitialCount
      modifies this`activities, this`lastActivityId
      ensures Valid()
      ensures old(activities) == [] ==>
                BuiltFrom(activities, old(lastActivityId), draws, InitialCount, SeedActivity)
                && lastActivityId == old(lastActivityId) + InitialCount
      ensures old(activities) != [] ==>
                activities == old(activities) && lastActivityId == old(lastActivityId)
    {
      if |activities| == 0 {
        ghost var start := lastActivityId;
        for i := 0 to InitialCount
          invariant lastActivityId == start + i
          invariant BuiltFrom(activities, start, draws, i, SeedActivity)
          invariant Valid()
        {
          var a := GenerateRandomActivity(draws[i]);
          BuiltFromSnoc(activities, start, draws, i, SeedActivity, a);
          StoreInvariantAppend(activities, lastActivityId - 1, a);
          activities := activities + [a];
        }
      }
    }

    /** The part of `getActivities` after its delay: a copy of the store as it is then. */
    method Snapshot() returns (snapshot: seq<Activity>)
      ensures snapshot == activities
    {
      snapshot := activities;
    }

    /**
     * `getActivities` when no other call runs during its delay: the seeding
     * step, then the copy of the store it left.
     */
    method GetActivities(draws: seq<SeedDraw>) returns (snapshot: seq<Activity>)
      requires Valid()
      requires |draws| == InitialCount
      modifies this`activities, this`lastActivityId
      ensures Valid()
      ensures old(activities) == [] ==>
                BuiltFrom(activities, old(lastActivityId), draws, InitialCount, SeedActivity)
                && lastActivityId == old(lastActivityId) + InitialCount
      ensures old(activities) != [] ==>
                activities == old(activities) && lastActivityId == old(lastActivityId)
      ensures snapshot == activities
    {
      SeedIfEmpty(draws);
      snapshot := Snapshot();
    }

    /**
     * The body of one `getRealtimeUpdates` iteration up to the pushes: the
     * biased type, a location row, the biased severity, a phrase of the type
     * and a confidence, under the next counter.
     */
    method MakeRealtimeActivity(d: LiveDraw) returns (activity: Activity)
      modifies this`lastActivityId
      ensures lastActivityId == old(lastActivityId) + 1
      ensures activity == LiveActivity(lastActivityId, d)
    {
      var kind := LiveKind(d.bias, d.kind);
      var location := Pick(ForestLocations, d.location);
      var severity := LiveSeverity(kind, d.severity);
      var description := Pick(Descriptions(kind), d.description);
      lastActivityId := lastActivityId + 1;
      activity := Activity(ActivityId("realtime", lastActivityId), kind, location,
                           severity, description, RandomConfidence(d.confidence));
    }

    /**
     * `getRealtimeUpdates`: between one and three new activities, each
     * appended to the store as it is made, and exactly those returned.
     */
    method GetRealtimeUpdates(countDraw: real, draws: seq<LiveDraw>) returns (newActivities: seq<Activity>)
      requires Valid() && IsUnit(countDraw)
      requires UpdateCount(countDraw) <= |draws|
      modifies this`activities, this`lastActivityId
      ensures Valid()
      ensures |newActivities| == UpdateCount(countDraw) && 1 <= |newActivities| <= MaxUpdates
      ensures BuiltFrom(newActivities, old(lastActivityId), draws, |newActivities|, LiveActivity)
      ensures activities == old(activities) + newActivities
      ensures lastActivityId == old(lastActivityId) + |newActivities|
    {
      var updateCount := UpdateCount(countDraw);
      newActivities := [];
      ghost var start := lastActivityId;
      ghost var base := activities;
      for i := 0 to updateCount
        invariant lastActivityId == start + i
        invariant BuiltFrom(newActivities, start, draws, i, LiveActivity)
        invariant activities == base + newActivities
        invariant Valid()
      {
        var activity := MakeRealtimeActivity(draws[i]);
        BuiltFromSnoc(newActivities, start, draws, i, LiveActivity, activity);
        StoreInvariantAppend(activities, lastActivityId - 1, activity);
        AppendBoth(base, newActivities, activity);
        newActivities := newActivities + [activity];
        activities := activities + [activity];
      }
    }

    /** `getActivityStats`: the stats of the store after `getActivities` has seeded it if empty. */
    method GetActivityStats(draws: seq<SeedDraw>) returns (stats: ActivityStats)
      requires Valid()
      requires |draws| == InitialCount
      modifies this`activities, this`lastActivityId
      ensures Valid()
      ensures old(activities) == [] ==>
                BuiltFrom(activities, old(lastActivityId), draws, InitialCount, SeedActivity)
                && lastActivityId == old(lastActivityId) + InitialCount
      ensures old(activities) != [] ==>
                activities == old(activities) && lastActivityId == old(lastActivityId)
      ensures stats == StatsOf(activities)
    {
      var snapshot := GetActivities(draws);
      stats := StatsOf(snapshot);
    }
  }

  /**
   * `getActivityStats` with a `getRealtimeUpdates` call running during the
   * 500 ms delay of its `getActivities`: the copy it counts is the seeded
   * store followed by the 1 to 3 activities that call pushed, so the stats
   * include them.
   */
  method StatsWithUpdateDuringDelay(svc: MockForestActivityService, draws: seq<SeedDraw>,
                                    countDraw: real, liveDraws: seq<LiveDraw>)
    returns (news: seq<Activity>, stats: ActivityStats)
    requires svc.Valid() && svc.activities == []
    requires |draws| == InitialCount
    requires IsUnit(countDraw) && UpdateCount(countDraw) <= |liveDraws|
    modifies svc
    ensures svc.Valid()
    ensures |news| == UpdateCount(countDraw)
    ensures svc.lastActivityId == old(svc.lastActivityId) + InitialCount + |news|
    ensures |svc.activities| == InitialCount + |news|
    ensures BuiltFrom(svc.activities[..InitialCount], old(svc.lastActivityId), draws, InitialCount, SeedActivity)
    ensures svc.activities[InitialCount..] == news
    ensures BuiltFrom(news, old(svc.lastActivityId) + InitialCount, liveDraws, |news|, LiveActivity)
    ensures stats == StatsOf(svc.activities) && InitialCount < stats.total <= InitialCount + MaxUpdates
  {
    svc.SeedIfEmpty(draws);
    ghost var seeded := svc.activities;
    news := svc.GetRealtimeUpdates(countDraw, liveDraws);
    assert svc.activities[..InitialCount] == seeded;
    var snapshot := svc.Snapshot();
    stats := StatsOf(snapshot);
  }
}
