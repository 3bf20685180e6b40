/**
 * The live forest-activity heatmap panel: the list of activities it shows,
 * newest first and capped at 100, the five counters above the map and the
 * activity-type filter.
 *
 * `generateMockForestActivity` is an abstract generator here: each call
 * either yields its activities or throws, and the panel's reaction to both
 * outcomes is modelled.
 */
module ActivityHeatmap {
  import opened Outcomes
  import opened ForestActivity
  import opened BoundedFeed

  /** The `stats` state. */
  datatype HeatmapStats = HeatmapStats(total: nat, poaching: nat, movement: nat, threats: nat, activeAlerts: nat)

  /** `selectedActivityType`: `'all'` or one activity type. */
  datatype TypeFilter = All | OnlyType(kind: ActivityType)

  /** The number of activities kept from the previous list on each tick. */
  const KeepPrevious := 99

  /** `data.filter(a => a.severity === 'high' || a.severity === 'medium').length`. */
  function CountThreats(acts: seq<Activity>): (n: nat)
    ensures n <= |acts|
  {
    if acts == [] then 0
    else (if acts[0].severity == High || acts[0].severity == Medium then 1 else 0) + CountThreats(acts[1..])
  }

  /** The threats are exactly the high and the medium activities. */
  lemma {:induction false} ThreatsAreHighOrMedium(acts: seq<Activity>)
    ensures CountThreats(acts) == CountSeverity(acts, High) + CountSeverity(acts, Medium)
  {
    if acts != [] {
      ThreatsAreHighOrMedium(acts[1..]);
    }
  }

  /** Poaching and animal movement are different types, so together they never exceed the list. */
  lemma {:induction false} PoachingAndMovementWithinTotal(acts: seq<Activity>)
    ensures CountKind(acts, Poaching) + CountKind(acts, AnimalMovement) <= |acts|
  {
    if acts != [] {
      PoachingAndMovementWithinTotal(acts[1..]);
    }
  }

  /** `updateStats`: the five counters of a list. */
  function UpdateStats(data: seq<Activity>): (s: HeatmapStats)
    ensures s.total == |data|
    ensures s.poaching == CountKind(data, Poaching) && s.movement == CountKind(data, AnimalMovement)
    ensures s.threats == CountSeverity(data, High) + CountSeverity(data, Medium)
    ensures s.activeAlerts == CountSeverity(data, High)
    ensures s.activeAlerts <= s.threats <= s.total
    ensures s.poaching + s.movement <= s.total
  {
    ThreatsAreHighOrMedium(data);
    PoachingAndMovementWithinTotal(data);
    HeatmapStats(|data|, CountKind(data, Poaching), CountKind(data, AnimalMovement),
                 CountThreats(data), CountSeverity(data, High))
  }

  /** `xs` is `ys` with some elements left out and the rest in their order. */
  predicate IsSubsequence<T(==)>(xs: seq<T>, ys: seq<T>)
    decreases |ys|
  {
    if xs == [] then true
    else if ys == [] then false
    else if xs[0] == ys[0] then IsSubsequence(xs[1..], ys[1..])
    else IsSubsequence(xs, ys[1..])
  }

  /** `activities.filter(activity => activity.type === kind)`. */
  function KeepKind(acts: seq<Activity>, kind: ActivityType): (r: seq<Activity>)
    ensures forall i :: 0 <= i < |r| ==> r[i].kind == kind
  {
    if acts == [] then []
    else if acts[0].kind == kind then [acts[0]] + KeepKind(acts[1..], kind)
    else KeepKind(acts[1..], kind)
  }

  /**
   * The filter keeps the order of the list and drops no activity of the
   * selected type: it keeps as many as the type's count.
   */
  lemma {:induction false} KeepKindIsOrderedSelection(acts: seq<Activity>, kind: ActivityType)
    ensures IsSubsequence(KeepKind(acts, kind), acts)
    ensures |KeepKind(acts, kind)| == CountKind(acts, kind)
  {
    if acts != [] {
      KeepKindIsOrderedSelection(acts[1..], kind);
      var rest := KeepKind(acts[1..], kind);
      if acts[0].kind == kind {
        assert ([acts[0]] + rest)[1..] == rest;
      } else if rest != [] {
        assert rest[0].kind == kind;
      }
    }
  }

  /** An activity is shown under a type filter iff it is in the list and has that type. */
  lemma {:induction false} KeepKindMembership(acts: seq<Activity>, kind: ActivityType, a: Activity)
    ensures a in KeepKind(acts, kind) <==> a in acts && a.kind == kind
  {
    if acts != [] {
      KeepKindMembership(acts[1..], kind, a);
      assert acts == [acts[0]] + acts[1..];
    }
  }

  /** `filteredActivities`: the list unchanged for `'all'`, the selection of one type otherwise. */
  function Filtered(acts: seq<Activity>, filter: TypeFilter): (r: seq<Activity>)
    ensures filter == All ==> r == acts
    ensures filter.OnlyType? ==> IsSubsequence(r, acts) && |r| == CountKind(acts, filter.kind)
    ensures filter.OnlyType? ==> forall i :: 0 <= i < |r| ==> r[i].kind == filter.kind
    ensures forall a :: a in r <==> a in acts && (filter.OnlyType? ==> a.kind == filter.kind)
  {
    match filter
    case All => acts
    case OnlyType(kind) =>
      KeepKindIsOrderedSelection(acts, kind);
      forall a ensures a in KeepKind(acts, kind) <==> a in acts && a.kind == kind {
        KeepKindMembership(acts, kind, a);
      }
      KeepKind(acts, kind)
  }

  /** The `ForestActivityHeatmap` component's state. */
  class ForestActivityHeatmap {
    var activities: seq<Activity>
    var selectedActivityType: TypeFilter
    var isRealTimeEnabled: bool
    var stats: HeatmapStats

    /** The counters are those of the list shown. */
    ghost predicate Valid()
      reads this
    {
      stats == UpdateStats(activities)
    }

    constructor ()
      ensures Valid()
      ensures activities == [] && selectedActivityType == All && isRealTimeEnabled
      ensures stats == HeatmapStats(0, 0, 0, 0, 0)
    {
      activities := [];
      selectedActivityType := All;
      isRealTimeEnabled := true;
      stats := HeatmapStats(0, 0, 0, 0, 0);
    }

    /**
     * The mount effect: the list becomes what the generator gave for 50
     * activities and the counters are computed from exactly that list; a
     * generator that throws leaves the state alone.
     */
    method LoadInitialData(generated: Option<seq<Activity>>)
      requires Valid()
      modifies this`activities, this`stats
      ensures Valid()
      ensures generated.Some? ==> activities == generated.value
      ensures generated.None? ==> activities == old(activities) && stats == old(stats)
    {
      if generated.Some? {
        activities := generated.value;
        stats := UpdateStats(activities);
      }
    }

    /**
     * One interval tick: with real-time on and a generated activity, it is
     * put first and at most 99 previous activities are kept, in order.
     * With real-time off no interval runs, so nothing changes.
     */
    method Tick(generated: Option<Activity>) returns (applied: bool)
      requires Valid()
      modifies this`activities, this`stats
      ensures Valid()
      ensures applied <==> isRealTimeEnabled && generated.Some?
      ensures applied ==> activities == PrependKeep(generated.value, old(activities), KeepPrevious)
      ensures applied ==> |activities| == Min(|old(activities)| + 1, 100) && activities[0] == generated.value
      ensures !applied ==> activities == old(activities) && stats == old(stats)
    {
      applied := isRealTimeEnabled && generated.Some?;
      if applied {
        activities := PrependKeep(generated.value, activities, KeepPrevious);
        stats := UpdateStats(activities);
      }
    }

    /** `onActivityTypeChange`: only the filter changes. */
    method SetSelectedActivityType(filter: TypeFilter)
      modifies this`selectedActivityType
      ensures selectedActivityType == filter
    {
      selectedActivityType := filter;
    }

    /** `onRealTimeToggle`: only the real-time flag changes. */
    method SetRealTimeEnabled(enabled: bool)
      modifies this`isRealTimeEnabled
      ensures isRealTimeEnabled == enabled
    {
      isRealTimeEnabled := enabled;
    }
  }
}
