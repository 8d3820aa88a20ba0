// FindingEventBroadcaster of apps/api/src/aegis_api/application/stream.py: bounded queues, shared
// with their readers, that drop the oldest event when a reader falls behind.
module Broadcast {
  import opened Prelude

  const MAX_SIZE: nat := 100

  predicate Suffix<E(==)>(items: seq<E>, of: seq<E>) {
    |items| <= |of| && items == of[|of| - |items|..]
  }

  // The newest MAX_SIZE events of a queue that has just received one.
  function Bounded<E>(items: seq<E>): (r: seq<E>)
    ensures |r| == Min(|items|, 100) && r == items[|items| - |r|..]
  {
    if |items| <= MAX_SIZE then items else items[|items| - MAX_SIZE..]
  }

  lemma BoundedSuffix<E>(items: seq<E>, sent: seq<E>, event: E)
    requires Suffix(items, sent)
    ensures Suffix(Bounded(items + [event]), sent + [event])
  {
    var longer := sent + [event];
    assert items + [event] == longer[|sent| - |items|..];
  }

  // asyncio.Queue(maxsize=100), used only through its non-blocking calls.
  class Queue<E(==)> {
    var items: seq<E>
    // Whose events it was handed out for, and how many of them had been published by then.
    ghost const organization: int
    ghost const since: nat

    constructor (ghost organization: int, ghost since: nat)
      ensures items == [] && this.organization == organization && this.since == since
    {
      items := [];
      this.organization := organization;
      this.since := since;
    }

    method PutNowait(event: E) returns (full: bool)
      modifies this`items
      ensures full <==> |old(items)| >= MAX_SIZE
      ensures items == if full then old(items) else old(items) + [event]
    {
      full := |items| >= MAX_SIZE;
      if !full {
        items := items + [event];
      }
    }

    method GetNowait() returns (event: Option<E>)
      modifies this`items
      ensures event == if |old(items)| == 0 then None else Some(old(items)[0])
      ensures items == if |old(items)| == 0 then [] else old(items)[1..]
    {
      if |items| == 0 {
        return None;
      }
      event := Some(items[0]);
      items := items[1..];
    }

    // What publish does to one reader: put, and on a full queue drop the oldest and put again.
    // Nothing catches a second QueueFull, so it must not happen.
    method Deliver(event: E) returns (raised: bool)
      requires |items| <= MAX_SIZE
      modifies this`items
      ensures !raised && items == Bounded(old(items) + [event])
      ensures items == (if |old(items)| < 100 then old(items) else old(items)[1..]) + [event]
    {
      raised := false;
      var full := PutNowait(event);
      if full {
        var dropped := GetNowait();
        raised := PutNowait(event);
      }
    }
  }

  // The queues listening to an organization; the source's default dictionary gives the empty set.
  function Readers<Q>(subscribers: map<int, set<Q>>, organization: int): set<Q> {
    if organization in subscribers then subscribers[organization] else {}
  }

  // Everything ever published for an organization.
  function History<E>(published: map<int, seq<E>>, organization: int): seq<E> {
    if organization in published then published[organization] else []
  }

  // What a reader can count on: the latest of its tenant's events since it subscribed, in order,
  // without a gap.
  predicate Follows<E(==)>(items: seq<E>, history: seq<E>, since: nat) {
    |items| <= MAX_SIZE && since <= |history| && Suffix(items, history[since..])
  }

  lemma PublishedFollows<E>(items: seq<E>, history: seq<E>, since: nat, event: E)
    requires Follows(items, history, since)
    ensures Follows(Bounded(items + [event]), history + [event], since)
  {
    BoundedSuffix(items, history[since..], event);
    assert (history + [event])[since..] == history[since..] + [event];
  }

  lemma NewFollows<E>(history: seq<E>)
    ensures Follows([], history, |history|)
  {
  }

  lemma ConsumedFollows<E>(items: seq<E>, history: seq<E>, since: nat)
    requires Follows(items, history, since) && |items| > 0
    ensures Follows(items[1..], history, since)
  {
  }

  class Broadcaster<E(==)> {
    var subscribers: map<int, set<Queue<E>>>
    ghost var queues: set<Queue<E>>
    ghost var published: map<int, seq<E>>

    ghost predicate Valid()
      reads this, queues
    {
      && (forall o :: o in subscribers ==> subscribers[o] != {})
      && (forall o :: o in subscribers ==> subscribers[o] <= queues)
      && (forall o, q :: o in subscribers && q in subscribers[o] ==> q.organization == o)
      && (forall o, q :: o in subscribers && q in subscribers[o] ==>
            Follows(q.items, History(published, o), q.since))
    }

    constructor ()
      ensures Valid() && subscribers == map[] && queues == {} && published == map[]
    {
      subscribers, queues, published := map[], {}, map[];
    }

    method Subscribe(organization: int) returns (queue: Queue<E>)
      requires Valid()
      modifies this`subscribers, this`queues
      ensures Valid() && fresh(queue) && queues == old(queues) + {queue}
      ensures queue.items == [] && queue.organization == organization
      ensures queue.since == |History(published, organization)|
      ensures subscribers == old(subscribers)[organization :=
                Readers(old(subscribers), organization) + {queue}]
    {
      queue := new Queue(organization, |History(published, organization)|);
      var existing := Readers(subscribers, organization);
      subscribers := subscribers[organization := existing + {queue}];
      queues := queues + {queue};
      NewFollows(History(published, organization));
      forall o, q | o in subscribers && q in subscribers[o]
        ensures q in queues && q.organization == o && Follows(q.items, History(published, o), q.since)
      {
        if q != queue {
          assert o in old(subscribers) && q in old(subscribers)[o];
        }
      }
    }

    // The default dictionary makes an empty set for an unknown organization, and takes it away.
    method Unsubscribe(organization: int, queue: Queue<E>)
      requires Valid()
      modifies this`subscribers
      ensures Valid()
      ensures forall o :: Readers(subscribers, o)
                       == Readers(old(subscribers), o) - (if o == organization then {queue} else {})
    {
      var remaining := Readers(subscribers, organization) - {queue};
      subscribers := subscribers[organization := remaining];
      if remaining == {} {
        subscribers := subscribers - {organization};
      }
    }

    // The event joins its tenant's history and no other's; exactly that tenant's readers receive it,
    // and no queue overflows.
    method Publish(organization: int, event: E)
      requires Valid()
      modifies this`published, Readers(subscribers, organization)
      ensures Valid()
      ensures published == old(published)[organization := History(old(published), organization) + [event]]
      ensures forall q :: q in Readers(subscribers, organization) ==> q.items == Bounded(old(q.items) + [event])
    {
      var readers := Readers(subscribers, organization);
      ghost var history := History(published, organization);
      assert forall o, q :: o in subscribers && q in subscribers[o] && q in readers ==> q.organization == organization;
      FanOut(readers, event);
      published := published[organization := history + [event]];
      forall o, q | o in subscribers && q in subscribers[o] ensures Follows(q.items, History(published, o), q.since) {
        assert old(Follows(q.items, History(published, o), q.since));
        if o == organization {
          PublishedFollows(old(q.items), history, q.since, event);
          assert q.items == Bounded(old(q.items) + [event]);
        } else {
          assert q !in readers && History(published, o) == History(old(published), o);
        }
      }
    }

    // A reader taking an event, through the queue it was handed.
    method Consume(queue: Queue<E>) returns (event: Option<E>)
      requires Valid() && queue in queues
      modifies queue`items
      ensures Valid()
      ensures event == if |old(queue.items)| == 0 then None else Some(old(queue.items)[0])
      ensures queue.items == if |old(queue.items)| == 0 then [] else old(queue.items)[1..]
    {
      event := queue.GetNowait();
      forall o, q | o in subscribers && q in subscribers[o] ensures Follows(q.items, History(published, o), q.since) {
        if q == queue && |old(q.items)| > 0 {
          ConsumedFollows(old(q.items), History(published, o), q.since);
        }
      }
    }
  }

  // The loop of publish over a copy of the subscriber set, in whatever order it yields them.
  method FanOut<E>(readers: set<Queue<E>>, event: E)
    requires forall q :: q in readers ==> |q.items| <= MAX_SIZE
    modifies readers
    ensures forall q :: q in readers ==> q.items == Bounded(old(q.items) + [event])
  {
    var todo := readers;
    while todo != {}
      invariant todo <= readers
      invariant forall q :: q in todo ==> q.items == old(q.items)
      invariant forall q :: q in readers - todo ==> q.items == Bounded(old(q.items) + [event])
      decreases |todo|
    {
      var queue :| queue in todo;
      var raised := queue.Deliver(event);
      assert !raised;
      todo := todo - {queue};
    }
  }
}
