/** The pending resumptions of the simulation environment: an event list
    kept in time order, where resumptions due at the same instant run in
    the order they were scheduled. */
module Scheduler {

  /** The processes of one run: the tray generator, one `proses_ompreng`
      per tray id, the single transport loop and the single finish loop. */
  datatype Pid = Generator | Ompreng(oid: nat) | Angkut | Nasi

  /** A resumption of process `who` due at virtual time `time`. */
  datatype Event = Event(time: real, who: Pid)

  /** The resumptions are in order of due time. */
  ghost predicate Sorted(q: seq<Event>) {
    |q| <= 1 || (q[0].time <= q[1].time && Sorted(q[1..]))
  }

  /** How many resumptions of `p` are pending in `q`. */
  function Pending(q: seq<Event>, p: Pid): nat {
    if q == [] then 0 else (if q[0].who == p then 1 else 0) + Pending(q[1..], p)
  }

  /** Where a resumption due at `t` goes: after the leading resumptions
      due no later than `t`, so before the first one due later. */
  function Slot(q: seq<Event>, t: real): (k: nat)
    ensures k <= |q|
    ensures forall j :: 0 <= j < k ==> q[j].time <= t
    ensures k < |q| ==> t < q[k].time
  {
    if q == [] || t < q[0].time then 0 else 1 + Slot(q[1..], t)
  }

  /** No pending resumption of the time-ordered list `q` is due before `t`. */
  predicate NotBefore(q: seq<Event>, t: real) {
    q == [] || t <= q[0].time
  }

  /** Schedules `e` at its slot, so the list stays in time order and
      resumptions due at the same instant keep their scheduling order. */
  function Schedule(q: seq<Event>, e: Event): (r: seq<Event>)
    requires Sorted(q)
    ensures Sorted(r)
    ensures |r| == |q| + 1
    ensures forall t :: NotBefore(q, t) && t <= e.time ==> NotBefore(r, t)
    ensures forall p :: Pending(r, p) == Pending(q, p) + (if p == e.who then 1 else 0)
  {
    if q == [] || e.time < q[0].time then
      assert ([e] + q)[1..] == q;
      [e] + q
    else
      var r' := Schedule(q[1..], e);
      assert ([q[0]] + r')[1..] == r';
      [q[0]] + r'
  }

  /** `Schedule` puts `e` at its slot: after every resumption due no later
      than `e` (those scheduled earlier at the same instant included) and
      before every later one, keeping the order of the others. */
  lemma {:induction false} ScheduleAtSlot(q: seq<Event>, e: Event)
    requires Sorted(q)
    ensures var k := Slot(q, e.time); Schedule(q, e) == q[..k] + [e] + q[k..]
  {
    if q != [] && q[0].time <= e.time {
      var t := q[1..];
      ScheduleAtSlot(t, e);
      var k := Slot(q, e.time);
      assert k == 1 + Slot(t, e.time);
      assert Schedule(q, e) == [q[0]] + Schedule(t, e);
      assert [q[0]] + t[..k - 1] == q[..k];
      assert t[k - 1..] == q[k..];
    } else {
      assert Slot(q, e.time) == 0;
    }
  }

  /** Running the earliest resumption removes exactly it, and the clock,
      set to its time, is not after any remaining one. */
  lemma PopHead(q: seq<Event>)
    requires Sorted(q) && q != []
    ensures Sorted(q[1..]) && NotBefore(q[1..], q[0].time)
    ensures forall p :: Pending(q[1..], p) == Pending(q, p) - (if p == q[0].who then 1 else 0)
  {
  }
}
