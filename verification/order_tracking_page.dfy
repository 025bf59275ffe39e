/** The tracking page (pages/OrderTracking.tsx): a status advanced by timers
    from mount, the four-step tracker, and the route parameter. */
module OrderTrackingPage {
  import opened Base
  import opened Types

  /** A timer that, `delay` milliseconds after the previous one fired (or after
      mount, for the first), sets the status to `status`. */
  datatype Timer = Timer(delay: nat, status: nat)

  /** The timer chain of the page's effect: Shipped after 5 s, then Out for
      Delivery 8 s later. Nothing schedules Delivered. */
  const Schedule := [Timer(5000, 1), Timer(8000, 2)]

  const StepLabels := ["Ordered", "Shipped", "Out for Delivery", "Delivered"]
  const DeliveredStatus := 3
  const RoutePrefix := "/order-tracking/"

  /** The status `elapsed` milliseconds into a timer chain that starts at `current`. */
  function StatusAfter(schedule: seq<Timer>, current: nat, elapsed: nat): nat
    decreases |schedule|
  {
    if |schedule| == 0 || elapsed < schedule[0].delay then current
    else StatusAfter(schedule[1..], schedule[0].status, elapsed - schedule[0].delay)
  }

  /** A chain whose timers never lower the status. */
  predicate Rising(schedule: seq<Timer>, current: nat)
    decreases |schedule|
  {
    |schedule| == 0 || (current <= schedule[0].status && Rising(schedule[1..], schedule[0].status))
  }

  lemma {:induction false} StatusAfterAtLeastStart(schedule: seq<Timer>, current: nat, t: nat)
    requires Rising(schedule, current)
    ensures current <= StatusAfter(schedule, current, t)
    decreases |schedule|
  {
    if |schedule| > 0 && t >= schedule[0].delay {
      StatusAfterAtLeastStart(schedule[1..], schedule[0].status, t - schedule[0].delay);
    }
  }

  /** Along a rising chain the status never decreases as time passes. */
  lemma {:induction false} StatusAfterMonotone(schedule: seq<Timer>, current: nat, t1: nat, t2: nat)
    requires Rising(schedule, current) && t1 <= t2
    ensures StatusAfter(schedule, current, t1) <= StatusAfter(schedule, current, t2)
    decreases |schedule|
  {
    if |schedule| > 0 && t2 >= schedule[0].delay {
      var d := schedule[0].delay;
      if t1 >= d {
        StatusAfterMonotone(schedule[1..], schedule[0].status, t1 - d, t2 - d);
      } else {
        StatusAfterAtLeastStart(schedule[1..], schedule[0].status, t2 - d);
      }
    }
  }

  /** `activeStatus` at `elapsed` milliseconds after mount: 0 at first, 1 from
      5 s, 2 from 13 s, and never 3 (Delivered). */
  function StatusAt(elapsed: nat): (r: nat)
    ensures r == 0 <==> elapsed < 5000
    ensures r == 1 <==> 5000 <= elapsed < 13000
    ensures r == 2 <==> 13000 <= elapsed
    ensures r != DeliveredStatus
  {
    StatusAfter(Schedule, 0, elapsed)
  }

  /** The shown status never goes backwards. */
  lemma StatusNeverFalls(t1: nat, t2: nat)
    requires t1 <= t2
    ensures StatusAt(t1) <= StatusAt(t2)
  {
    StatusAfterMonotone(Schedule, 0, t1, t2);
  }

  datatype StepFlag = StepFlag(completed: bool, active: bool)

  /** `isCompleted` and `isActive` for the steps from `lo` up to `hi`. */
  function FlagsFrom(lo: nat, hi: nat, status: int): (r: seq<StepFlag>)
    requires lo <= hi
    ensures |r| == hi - lo
    ensures forall k :: 0 <= k < |r| ==> r[k] == StepFlag(lo + k <= status, lo + k == status)
    decreases hi - lo
  {
    if lo == hi then [] else [StepFlag(lo <= status, lo == status)] + FlagsFrom(lo + 1, hi, status)
  }

  /** The flags of the four tracker steps. */
  function Flags(status: int): seq<StepFlag> {
    FlagsFrom(0, |StepLabels|, status)
  }

  function CountActive(flags: seq<StepFlag>): nat {
    if |flags| == 0 then 0 else (if flags[0].active then 1 else 0) + CountActive(flags[1..])
  }

  function CountCompleted(flags: seq<StepFlag>): nat {
    if |flags| == 0 then 0 else (if flags[0].completed then 1 else 0) + CountCompleted(flags[1..])
  }

  lemma {:induction false} CountsFrom(lo: nat, hi: nat, status: int)
    requires lo <= hi
    ensures CountActive(FlagsFrom(lo, hi, status)) == (if lo <= status < hi then 1 else 0)
    ensures CountCompleted(FlagsFrom(lo, hi, status)) ==
              (if status < lo then 0 else if status < hi then status - lo + 1 else hi - lo)
    decreases hi - lo
  {
    if lo < hi {
      CountsFrom(lo + 1, hi, status);
      assert FlagsFrom(lo, hi, status)[1..] == FlagsFrom(lo + 1, hi, status);
    }
  }

  /** For a status on the tracker exactly one step is active, the one at that
      index, and the steps up to it are completed. */
  lemma OneActiveStep(status: int)
    requires 0 <= status < |StepLabels|
    ensures CountActive(Flags(status)) == 1 && Flags(status)[status].active
    ensures CountCompleted(Flags(status)) == status + 1
  {
    CountsFrom(0, |StepLabels|, status);
  }

  /** The `:orderId` parameter of a tracking route. */
  function RouteParam(path: string): (r: Option<string>)
    ensures r.Some? ==> path == RoutePrefix + r.value && r.value != "" && '/' !in r.value
  {
    var n := |RoutePrefix|;
    if |path| > n && path[..n] == RoutePrefix && '/' !in path[n..] then
      assert path == RoutePrefix + path[n..];
      Some(path[n..])
    else None
  }

  /** The route built from an id hands the same id back, when the id is a single
      non-empty path segment. */
  lemma RouteParamOfRoute(id: string)
    requires id != "" && '/' !in id
    ensures RouteParam(RoutePrefix + id) == Some(id)
  {
    var path := RoutePrefix + id;
    assert path[..|RoutePrefix|] == RoutePrefix && path[|RoutePrefix|..] == id;
  }

  datatype TrackingView = Placeholder | Tracker(orderId: string, order: TrackedOrder, flags: seq<StepFlag>)

  /** Without order state in the navigation the placeholder is shown; otherwise
      the tracker for the route id at the current status. */
  function Render(routeId: string, state: Option<TrackedOrder>, elapsed: nat): (v: TrackingView)
    ensures v.Placeholder? <==> state.None?
    ensures v.Tracker? ==> v.orderId == routeId && v.order == state.value
    ensures v.Tracker? ==> |v.flags| == |StepLabels| && !v.flags[DeliveredStatus].completed
    ensures v.Tracker? ==> v.flags == Flags(StatusAt(elapsed))
    ensures v.Tracker? ==> forall k :: 0 <= k < |v.flags| ==>
              (v.flags[k].completed <==> k <= StatusAt(elapsed)) && (v.flags[k].active <==> k == StatusAt(elapsed))
  {
    match state
    case None => Placeholder
    case Some(order) => Tracker(routeId, order, Flags(StatusAt(elapsed)))
  }
}
