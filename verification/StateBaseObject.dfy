/**
 The StateBase helpers (pkg/model/state.go): an object that a SystemEvolver mutates in place, on the copy
 that it returns.  Applying an event to the object is what SystemBase says about its value.  The lists are
 searched from the front: a subscription by full equality, a schedule by its id, and at most one element
 is removed.  An event that SystemBase leaves to the user's Evolve does not touch the object at all, and a
 copy shares nothing with the state it was made from.
 */
module StateBaseObject {
  import opened Wrappers
  import opened WorkflowModel

  class MutableBase {
    var subscriptions: seq<Sub>
    var externals: seq<string>
    var lifecycle: Lifecycle
    var schedules: seq<Schedule>

    /** Copy: a new object with the same contents. */
    constructor Copy(b: StateBase)
      ensures View() == b
    {
      subscriptions, externals, lifecycle, schedules := b.subscriptions, b.externals, b.lifecycle, b.schedules;
    }

    ghost function View(): StateBase
      reads this
    {
      StateBase(subscriptions, externals, lifecycle, schedules)
    }

    method SetCanceled()
      modifies this
      ensures View() == old(View()).(lifecycle := Cancelled, schedules := [])
    {
      lifecycle, schedules := Cancelled, [];
    }

    method RemoveSubscription(sub: Sub)
      modifies this`subscriptions
      ensures subscriptions == RemoveFirst(old(subscriptions), sub)
    {
      for i := 0 to |subscriptions|
        invariant subscriptions == old(subscriptions) && sub !in subscriptions[..i]
      {
        assert subscriptions[..i + 1] == subscriptions[..i] + [subscriptions[i]];
        if subscriptions[i] == sub {
          RemoveFirstAt(subscriptions, sub, i);
          subscriptions := subscriptions[..i] + subscriptions[i + 1..];
          return;
        }
      }
      RemoveFirstNone(subscriptions, sub);
    }

    method RemoveExternalSubscription(topic: string)
      modifies this`externals
      ensures externals == RemoveFirst(old(externals), topic)
    {
      for i := 0 to |externals|
        invariant externals == old(externals) && topic !in externals[..i]
      {
        assert externals[..i + 1] == externals[..i] + [externals[i]];
        if externals[i] == topic {
          RemoveFirstAt(externals, topic, i);
          externals := externals[..i] + externals[i + 1..];
          return;
        }
      }
      RemoveFirstNone(externals, topic);
    }

    method FindScheduleIndex(id: Id) returns (index: int)
      ensures index == FindSchedule(schedules, id)
    {
      for i := 0 to |schedules|
        invariant forall j :: 0 <= j < i ==> schedules[j].id != id
      {
        if schedules[i].id == id { return i; }
      }
      index := -1;
    }

    method Upsert(schedule: Schedule)
      modifies this`schedules
      ensures schedules == UpsertSchedule(old(schedules), schedule)
    {
      var i := FindScheduleIndex(schedule.id);
      schedules := if i >= 0 then schedules[i := schedule] else schedules + [schedule];
    }

    method Remove(id: Id)
      modifies this`schedules
      ensures schedules == RemoveSchedule(old(schedules), id)
    {
      var i := FindScheduleIndex(id);
      if i >= 0 { schedules := schedules[..i] + schedules[i + 1..]; }
    }

    /** The Apply method that EvolveSystem picks for the event; false when it picks none. */
    method Apply(e: Event) returns (handled: bool)
      modifies this
      ensures old(SystemBase(View(), e)) == if handled then Some(View()) else None
      ensures !handled ==> View() == old(View())
    {
      handled := true;
      match e {
        case SystemPause(_) => lifecycle := Paused;
        case SystemResume => lifecycle := Active;
        case SystemCancel(_) => SetCanceled();
        case SubscriptionAdded(sub) => subscriptions := subscriptions + [sub];
        case SubscriptionRemoved(sub) => RemoveSubscription(sub);
        case ExternalSubscriptionAdded(t) => externals := externals + [t];
        case ExternalSubscriptionRemoved(t) => RemoveExternalSubscription(t);
        case ScheduleAdded(s) => Upsert(s);
        case ScheduleRemoved(id) => Remove(id);
        case CancelSchedule(id) => Remove(id);
        case Delay(_, _, _, cron, _) =>
          if cron != "" {
            Upsert(CronSchedule(e));
          } else {
            handled := false;
          }
        case _ => handled := false;
      }
    }
  }

  lemma {:induction false} RemoveFirstAt<T>(xs: seq<T>, x: T, i: nat)
    requires i < |xs| && xs[i] == x && x !in xs[..i]
    ensures RemoveFirst(xs, x) == xs[..i] + xs[i + 1..]
    decreases i
  {
    if i > 0 {
      assert xs[0] in xs[..i] && xs[1..][..i - 1] == xs[..i][1..];
      RemoveFirstAt(xs[1..], x, i - 1);
      assert xs[..i] == [xs[0]] + xs[1..][..i - 1];
    }
  }

  lemma {:induction false} RemoveFirstNone<T>(xs: seq<T>, x: T)
    requires x !in xs
    ensures RemoveFirst(xs, x) == xs
  {
    if xs != [] {
      RemoveFirstNone(xs[1..], x);
      assert xs == [xs[0]] + xs[1..];
    }
  }
}
