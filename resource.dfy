/** A capacity-limited server pool as the simulation uses `simpy.Resource`:
    `request` takes a free server or joins a first-come-first-served wait
    list; `release` frees the server and hands it to the longest waiter. */
module Resource {
  import opened Seqs
  import opened Wrappers

  /** `users` hold a server; `queue` wait for one, oldest first. Holders
      and waiters are named by a number (the tray id for the lauk pool). */
  datatype Resource = Resource(capacity: nat, users: seq<nat>, queue: seq<nat>)
  {
    /** No more holders than servers; nobody waits while a server is free;
        nobody holds or waits twice. */
    ghost predicate Valid() {
      && |users| <= capacity
      && (queue != [] ==> |users| == capacity)
      && Distinct(users) && Distinct(queue)
      && (forall x :: x in users ==> x !in queue)
    }
  }

  /** A fresh pool of `capacity` idle servers. */
  function Create(capacity: nat): (r: Resource)
    ensures r.Valid() && r.capacity == capacity
    ensures r.users == [] && r.queue == []
  {
    Resource(capacity, [], [])
  }

  /** `request()` by `who`: granted at once exactly when a server is free,
      otherwise `who` joins the end of the wait list. */
  function Request(r: Resource, who: nat): (res: (Resource, bool))
    requires r.Valid() && who !in r.users && who !in r.queue
    ensures res.0.Valid() && res.0.capacity == r.capacity
    ensures res.1 <==> |r.users| < r.capacity
    ensures res.1 ==> res.0.users == r.users + [who] && res.0.queue == r.queue
    ensures !res.1 ==> res.0.users == r.users && res.0.queue == r.queue + [who]
  {
    if |r.users| < r.capacity then
      DistinctAppend(r.users, who);
      (r.(users := r.users + [who]), true)
    else
      DistinctAppend(r.queue, who);
      (r.(queue := r.queue + [who]), false)
  }

  /** `release()` by the holder `who`: its server goes to the head of the
      wait list when someone waits (returned as the newly granted holder),
      and is left free otherwise. */
  function Release(r: Resource, who: nat): (res: (Resource, Option<nat>))
    requires r.Valid() && who in r.users
    ensures res.0.Valid() && res.0.capacity == r.capacity
    ensures forall x :: x in res.0.users <==> (x in r.users && x != who) || res.1 == Some(x)
    ensures r.queue == [] ==> res.1 == None && res.0.queue == []
    ensures r.queue != [] ==> res.1 == Some(r.queue[0]) && res.0.queue == r.queue[1..]
    ensures forall x :: x in res.0.queue <==> x in r.queue && res.1 != Some(x)
    ensures |res.0.users| == |r.users| - (if r.queue == [] then 1 else 0)
  {
    var rest := Without(r.users, who);
    if r.queue == [] then
      (r.(users := rest), None)
    else
      assert r.queue[0] !in rest;
      DistinctAppend(rest, r.queue[0]);
      assert forall x :: x in r.queue[1..] ==> x in r.queue && x != r.queue[0];
      (Resource(r.capacity, rest + [r.queue[0]], r.queue[1..]), Some(r.queue[0]))
  }
}
