/**
 * The once-a-minute scheduler tick: it truncates the clock to the minute, asks
 * the cron library for the next fire time of each cron trigger counted from one
 * minute earlier, queues one event for each trigger due now, and sends them in
 * one batch.
 *
 * Times are integer milliseconds since the epoch. The cron library and the ISO
 * date formatter are parameters.
 */
module Scheduler {
  import opened Wrappers
  import opened Json
  import opened ExecCommon

  const MinuteMs := 60000
  const ExecuteEventName := "workflows/execute.workflow"

  /** A stored cron trigger node. */
  datatype CronTrigger = CronTrigger(id: string, workflowId: string, data: Value)

  /** A queued `workflows/execute.workflow` event. */
  datatype QueuedEvent = QueuedEvent(name: string, workflowId: string, initialData: Context)

  /** `CronExpressionParser.parse(expr, { currentDate }).next()`: the next fire time after
      `currentDate`, or the message of the error it throws. */
  type NextRun = (string, int) -> Result<int, string>

  /** `now.setSeconds(0, 0)`: the start of the current minute. */
  function StartOfMinute(ms: int): (r: int)
    ensures r % MinuteMs == 0
    ensures r <= ms < r + MinuteMs
  {
    ms - ms % MinuteMs
  }

  /** A trigger is due when it has a cron expression whose next fire time after one minute ago is now. */
  predicate Due(t: CronTrigger, now: int, next: NextRun) {
    var cron := Field(t.data, "cron");
    cron != "" && next(cron, now - MinuteMs) == Ok(now)
  }

  function EventFor(t: CronTrigger, now: int, iso: int -> string): QueuedEvent {
    QueuedEvent(ExecuteEventName, t.workflowId, map["triggerTime" := Str(iso(now))])
  }

  /** The events queued for `triggers`, in trigger order. */
  function EventsFor(triggers: seq<CronTrigger>, now: int, next: NextRun, iso: int -> string): (r: seq<QueuedEvent>)
    ensures |r| <= |triggers|
    ensures forall i | 0 <= i < |r| :: r[i].name == ExecuteEventName && r[i].initialData == map["triggerTime" := Str(iso(now))]
  {
    if triggers == [] then []
    else
      var t := triggers[|triggers| - 1];
      EventsFor(triggers[..|triggers| - 1], now, next, iso) + (if Due(t, now, next) then [EventFor(t, now, iso)] else [])
  }

  /** The tick: the batches sent (none, or one holding every queued event) and `triggered`. */
  method Tick(triggers: seq<CronTrigger>, clock: int, next: NextRun, iso: int -> string)
    returns (batches: seq<seq<QueuedEvent>>, triggered: nat)
    ensures var events := EventsFor(triggers, StartOfMinute(clock), next, iso);
      && triggered == |events|
      && (events == [] ==> batches == [])
      && (events != [] ==> batches == [events])
  {
    var now := StartOfMinute(clock);
    var eventsToFire: seq<QueuedEvent> := [];
    var i := 0;
    while i < |triggers|
      invariant 0 <= i <= |triggers|
      invariant eventsToFire == EventsFor(triggers[..i], now, next, iso)
    {
      var trigger := triggers[i];
      assert triggers[..i + 1][..i] == triggers[..i];
      var cron := Field(trigger.data, "cron");
      if cron == "" {
        i := i + 1;
        continue;
      }
      var oneMinuteAgo := now - MinuteMs;
      var nextRun := next(cron, oneMinuteAgo);
      match nextRun {
        case Err(_) =>
          // the error is logged and the loop goes on
        case Ok(t) =>
          if t == now {
            eventsToFire := eventsToFire + [EventFor(trigger, now, iso)];
          }
      }
      i := i + 1;
    }
    assert triggers[..i] == triggers;
    batches := [];
    if |eventsToFire| > 0 {
      batches := [eventsToFire];
    }
    triggered := |eventsToFire|;
  }

  lemma {:induction false} EventsConcat(a: seq<CronTrigger>, b: seq<CronTrigger>, now: int, next: NextRun, iso: int -> string)
    ensures EventsFor(a + b, now, next, iso) == EventsFor(a, now, next, iso) + EventsFor(b, now, next, iso)
    decreases |b|
  {
    if b == [] {
      assert a + b == a;
    } else {
      var b' := b[..|b| - 1];
      assert (a + b)[..|a + b| - 1] == a + b';
      EventsConcat(a, b', now, next, iso);
    }
  }

  /** The number of due triggers, counted from the front. */
  function DueCount(triggers: seq<CronTrigger>, now: int, next: NextRun): nat {
    if triggers == [] then 0
    else (if Due(triggers[0], now, next) then 1 else 0) + DueCount(triggers[1..], now, next)
  }

  /** At most one event per trigger, and exactly one per due trigger, each for that trigger's
      workflow and carrying the tick's time: wherever a trigger sits in the list, its own
      contribution is its event if it is due and nothing otherwise. */
  lemma {:induction false} EventsExactlyDue(triggers: seq<CronTrigger>, now: int, next: NextRun, iso: int -> string)
    ensures var events := EventsFor(triggers, now, next, iso);
      && |events| <= |triggers|
      && (forall a, t, b | triggers == a + [t] + b ::
            events == EventsFor(a, now, next, iso) + (if Due(t, now, next) then [EventFor(t, now, iso)] else [])
                      + EventsFor(b, now, next, iso))
      && (forall e | e in events ::
            e.name == ExecuteEventName && e.initialData == map["triggerTime" := Str(iso(now))]
            && exists t | t in triggers :: Due(t, now, next) && e.workflowId == t.workflowId)
      && (forall t | t in triggers && Due(t, now, next) :: EventFor(t, now, iso) in events)
  {
    if triggers != [] {
      var p := triggers[..|triggers| - 1];
      var last := triggers[|triggers| - 1];
      EventsExactlyDue(p, now, next, iso);
      assert triggers == p + [last];
      var events := EventsFor(triggers, now, next, iso);
      forall e | e in events
        ensures exists t | t in triggers :: Due(t, now, next) && e.workflowId == t.workflowId
      {
        if e in EventsFor(p, now, next, iso) {
          var t :| t in p && Due(t, now, next) && e.workflowId == t.workflowId;
          assert t in triggers;
        } else {
          assert last in triggers;
        }
      }
    }
    EventsPerTrigger(triggers, now, next, iso);
  }

  /** Wherever a trigger sits, it contributes its own event if due and nothing otherwise. */
  lemma EventsPerTrigger(triggers: seq<CronTrigger>, now: int, next: NextRun, iso: int -> string)
    ensures forall a, t, b | triggers == a + [t] + b ::
      EventsFor(triggers, now, next, iso) == EventsFor(a, now, next, iso)
        + (if Due(t, now, next) then [EventFor(t, now, iso)] else []) + EventsFor(b, now, next, iso)
  {
    forall a, t, b | triggers == a + [t] + b
      ensures EventsFor(triggers, now, next, iso) == EventsFor(a, now, next, iso)
        + (if Due(t, now, next) then [EventFor(t, now, iso)] else []) + EventsFor(b, now, next, iso)
    {
      EventsConcat(a + [t], b, now, next, iso);
      EventsConcat(a, [t], now, next, iso);
      assert [t][..0] == [];
    }
  }

  /** The tick's `triggered` count is the number of due triggers. */
  lemma {:induction false} EventCount(triggers: seq<CronTrigger>, now: int, next: NextRun, iso: int -> string)
    ensures |EventsFor(triggers, now, next, iso)| == DueCount(triggers, now, next)
    decreases |triggers|
  {
    if triggers != [] {
      var t := triggers[0];
      assert triggers == [t] + triggers[1..];
      EventsConcat([t], triggers[1..], now, next, iso);
      assert [t][..0] == [];
      EventCount(triggers[1..], now, next, iso);
    }
  }

  /** A trigger with no cron expression, or whose expression fails to parse, queues nothing and
      does not affect the events of the others. */
  lemma TriggerIsolated(a: seq<CronTrigger>, t: CronTrigger, b: seq<CronTrigger>, now: int, next: NextRun, iso: int -> string)
    requires Field(t.data, "cron") == "" || next(Field(t.data, "cron"), now - MinuteMs).Err?
    ensures EventsFor(a + [t] + b, now, next, iso) == EventsFor(a + b, now, next, iso)
  {
    EventsConcat(a + [t], b, now, next, iso);
    EventsConcat(a, [t], now, next, iso);
    EventsConcat(a, b, now, next, iso);
    assert [t][..0] == [];
  }

  /** The clock is truncated to a whole minute, and truncation is idempotent. */
  lemma StartOfMinuteIdempotent(ms: int)
    ensures StartOfMinute(StartOfMinute(ms)) == StartOfMinute(ms)
  {
  }
}
