/** `proses_angkut`: while fewer than `TOTAL_OMPRENG` rows are recorded,
    poll `antrian_lauk` every half time unit while it is empty, otherwise
    take a batch of `min(kapasitas, len(antrian_lauk.items))` trays (the
    load drawn anew for every trip), hold a transport server for one drawn
    duration, add it to `busy_angkut`, and put every tray of the batch,
    stamped with `selesai_angkut`, into `antrian_nasi`. Its two
    resumptions are `AngkutLoop` (the top of the loop) and `AngkutDeliver`
    (the end of a trip). */
module AngkutStage {
  import opened Wrappers
  import opened Seqs
  import opened Config
  import opened Resource
  import opened Scheduler
  import opened Ompreng
  import opened Pipeline

  /** The top of the loop: return, poll, or load a batch and set off. The
      batch size and the trip duration are draw number `angkutDrawn`. */
  function AngkutLoop(c: Config, d: Draws, s: Sim): (r: Sim)
    requires Sorted(s.events) && s.angkut.AngkutIdle?
    requires s.petugasAngkut.Valid() && LOOP_HOLDER !in s.petugasAngkut.users && LOOP_HOLDER !in s.petugasAngkut.queue
    requires s.antrianLauk != [] && s.completed < c.TotalOmpreng() ==>
      s.angkutDrawn < |d.kapasitas| && s.angkutDrawn < |d.angkut|
    ensures r.now == s.now
  {
    if s.completed >= c.TotalOmpreng() then
      s.(angkut := AngkutStopped)
    else if s.antrianLauk == [] then
      s.(events := Schedule(s.events, Event(s.now + POLL, Angkut)))
    else
      var k := s.angkutDrawn;
      var m := BatchSize(d.kapasitas[k], |s.antrianLauk|);
      var req := Request(s.petugasAngkut, LOOP_HOLDER);
      s.(antrianLauk := s.antrianLauk[m..], petugasAngkut := req.0,
         angkut := AngkutBusy(s.antrianLauk[..m], k), angkutDrawn := k + 1,
         events := Schedule(s.events, Event(s.now + d.angkut[k], Angkut)))
  }

  /** The end of a trip: release the server, add the trip's duration to
      `busy_angkut`, stamp the batch with the current time and put it into
      `antrian_nasi`, then go back to the top of the loop at once. */
  function AngkutDeliver(d: Draws, s: Sim): (r: Sim)
    requires Sorted(s.events) && s.angkut.AngkutBusy? && s.angkut.draw < |d.angkut|
    requires s.petugasAngkut.Valid() && LOOP_HOLDER in s.petugasAngkut.users
    ensures r.now == s.now
  {
    var rel := Release(s.petugasAngkut, LOOP_HOLDER);
    s.(petugasAngkut := rel.0, busyAngkut := s.busyAngkut + d.angkut[s.angkut.draw],
       antrianNasi := s.antrianNasi + Stamped(s.angkut.batch, s.now), angkut := AngkutIdle,
       events := Schedule(s.events, Event(s.now, Angkut)))
  }

  /** A trip's draw exists: there are never more trips than trays. */
  lemma AngkutDrawAvailable(c: Config, d: Draws, s: Sim)
    requires Inv(c, d, s, Some(Angkut)) && s.angkut.AngkutIdle? && s.antrianLauk != []
    ensures s.angkutDrawn < |d.kapasitas| && s.angkutDrawn < |d.angkut|
  {
    TraysBound(c, s);
  }

  // ---------- AngkutLoop keeps the invariant ----------

  ghost predicate LoopReady(c: Config, d: Draws, s: Sim) {
    && c.Valid() && d.Fits(c) && Sorted(s.events) && s.angkut.AngkutIdle?
    && s.petugasAngkut.Valid() && s.petugasAngkut.users == [] && s.petugasAngkut.queue == []
    && s.petugasAngkut.capacity == c.petugasAngkut
    && (s.antrianLauk != [] && s.completed < c.TotalOmpreng() ==>
          s.angkutDrawn < |d.kapasitas| && s.angkutDrawn < |d.angkut|)
  }

  /** A trip takes the oldest trays of `antrian_lauk`, in order, and leaves
      the rest queued: at least one tray and no more than the drawn load,
      the whole store when it holds fewer trays than that. */
  lemma LoadTakesOldest(c: Config, d: Draws, s: Sim)
    requires LoopReady(c, d, s) && s.antrianLauk != [] && s.completed < c.TotalOmpreng()
    ensures var r := AngkutLoop(c, d, s);
      && r.angkut.AngkutBusy?
      && r.angkut.batch + r.antrianLauk == s.antrianLauk
      && 1 <= |r.angkut.batch| <= d.kapasitas[s.angkutDrawn]
      && (|r.angkut.batch| == d.kapasitas[s.angkutDrawn] || r.antrianLauk == [])
  {
    DrawsInRange(c, d, s.angkutDrawn);
    var r := AngkutLoop(c, d, s);
    assert r.angkut.batch + r.antrianLauk == s.antrianLauk;
  }

  /** With `antrian_lauk` empty and trays still to finish, the loop only
      waits 0.5 time units: nothing but the pending resumptions changes,
      and its own resumption goes in at its slot, `now + 0.5`. */
  lemma AngkutPollWaits(c: Config, d: Draws, s: Sim)
    requires LoopReady(c, d, s) && s.antrianLauk == [] && s.completed < c.TotalOmpreng()
    ensures var r := AngkutLoop(c, d, s);
      && r == s.(events := r.events)
      && exists k :: 0 <= k <= |s.events| && r.events == s.events[..k] + [Event(s.now + POLL, Angkut)] + s.events[k..]
  {
    var e := Event(s.now + POLL, Angkut);
    ScheduleAtSlot(s.events, e);
    var k := Slot(s.events, e.time);
    assert AngkutLoop(c, d, s).events == s.events[..k] + [e] + s.events[k..];
  }

  lemma LoopClock(c: Config, d: Draws, s: Sim)
    requires LoopReady(c, d, s) && ClockOk(s, Some(Angkut))
    ensures ClockOk(AngkutLoop(c, d, s), None)
  {
    var r := AngkutLoop(c, d, s);
    if s.completed < c.TotalOmpreng() && s.antrianLauk != [] {
      DrawsInRange(c, d, s.angkutDrawn);
    }
    forall p ensures Pending(r.events, p) == if r.Active(p) then 1 else 0 {
      assert r.Active(p) == s.Active(p) || p == Angkut;
    }
  }

  lemma LoopPools(c: Config, d: Draws, s: Sim)
    requires LoopReady(c, d, s) && PoolsOk(c, s)
    ensures PoolsOk(c, AngkutLoop(c, d, s))
  {
  }

  lemma LoopLauk(c: Config, d: Draws, s: Sim)
    requires LoopReady(c, d, s) && ProcessesOk(c, s) && LaukDrawsOk(d, s)
    ensures ProcessesOk(c, AngkutLoop(c, d, s)) && LaukDrawsOk(d, AngkutLoop(c, d, s))
  {
  }

  /** Loading a batch moves trays from `antrian_lauk` into the transport
      without reordering them. */
  lemma LoopTrays(c: Config, d: Draws, s: Sim)
    requires LoopReady(c, d, s)
    ensures var r := AngkutLoop(c, d, s);
      r.Trays() == s.Trays() && r.putLog == s.putLog && r.ompreng == s.ompreng
  {
    var r := AngkutLoop(c, d, s);
    if s.completed < c.TotalOmpreng() && s.antrianLauk != [] {
      var pre := s.trace + s.NasiHeld() + s.antrianNasi;
      assert r.angkut.batch + r.antrianLauk == s.antrianLauk;
      assert r.Trays() == pre + r.angkut.batch + r.antrianLauk;
    }
  }

  lemma LoopFlow(c: Config, d: Draws, s: Sim)
    requires LoopReady(c, d, s) && FlowOk(s)
    ensures FlowOk(AngkutLoop(c, d, s))
  {
    LoopTrays(c, d, s);
    FlowSameTrays(s, AngkutLoop(c, d, s));
  }

  lemma LoopStamps(c: Config, d: Draws, s: Sim)
    requires LoopReady(c, d, s) && StampsOk(s)
    ensures StampsOk(AngkutLoop(c, d, s))
  {
    var r := AngkutLoop(c, d, s);
    if s.completed < c.TotalOmpreng() && s.antrianLauk != [] {
      assert r.angkut.batch + r.antrianLauk == s.antrianLauk;
      forall it | it in r.angkut.batch ensures it.LaukDone(r.now) {
        assert it in s.antrianLauk;
      }
      forall it | it in r.antrianLauk ensures it.LaukDone(r.now) {
        assert it in s.antrianLauk;
      }
    }
  }

  lemma LoopCounters(c: Config, d: Draws, s: Sim)
    requires LoopReady(c, d, s) && CountersOk(c, d, s)
    ensures CountersOk(c, d, AngkutLoop(c, d, s))
  {
    if s.completed < c.TotalOmpreng() && s.antrianLauk != [] {
      DrawsInRange(c, d, s.angkutDrawn);
    }
  }

  /** The top of the transport loop keeps the invariant. */
  lemma AngkutLoopKeeps(c: Config, d: Draws, s: Sim)
    requires Inv(c, d, s, Some(Angkut)) && s.angkut.AngkutIdle?
    ensures s.antrianLauk != [] && s.completed < c.TotalOmpreng() ==>
      s.angkutDrawn < |d.kapasitas| && s.angkutDrawn < |d.angkut|
    ensures s.petugasAngkut.users == [] && s.petugasAngkut.queue == []
    ensures Inv(c, d, AngkutLoop(c, d, s), None)
  {
    if s.antrianLauk != [] {
      AngkutDrawAvailable(c, d, s);
    }
    assert LoopReady(c, d, s);
    LoopClock(c, d, s);
    LoopPools(c, d, s);
    LoopLauk(c, d, s);
    LoopFlow(c, d, s);
    LoopStamps(c, d, s);
    LoopCounters(c, d, s);
  }

  // ---------- AngkutDeliver keeps the invariant ----------

  ghost predicate DeliverReady(c: Config, d: Draws, s: Sim) {
    && Sorted(s.events) && s.angkut.AngkutBusy? && s.angkut.draw < |d.angkut|
    && 0.0 <= d.angkut[s.angkut.draw]
    && s.petugasAngkut.Valid() && s.petugasAngkut.users == [LOOP_HOLDER]
  }

  lemma DeliverClock(c: Config, d: Draws, s: Sim)
    requires DeliverReady(c, d, s) && ClockOk(s, Some(Angkut))
    ensures ClockOk(AngkutDeliver(d, s), None)
  {
    var r := AngkutDeliver(d, s);
    forall p ensures Pending(r.events, p) == if r.Active(p) then 1 else 0 {
      assert r.Active(p) == s.Active(p);
    }
  }

  lemma DeliverPools(c: Config, d: Draws, s: Sim)
    requires DeliverReady(c, d, s) && PoolsOk(c, s)
    ensures PoolsOk(c, AngkutDeliver(d, s))
  {
    var r := AngkutDeliver(d, s);
    assert r.petugasAngkut.users == [];
  }

  lemma DeliverLauk(c: Config, d: Draws, s: Sim)
    requires DeliverReady(c, d, s) && ProcessesOk(c, s) && LaukDrawsOk(d, s)
    ensures ProcessesOk(c, AngkutDeliver(d, s)) && LaukDrawsOk(d, AngkutDeliver(d, s))
  {
  }

  lemma DeliverFlow(c: Config, d: Draws, s: Sim)
    requires DeliverReady(c, d, s) && FlowOk(s)
    ensures FlowOk(AngkutDeliver(d, s))
  {
    var r := AngkutDeliver(d, s);
    var pre := s.trace + s.NasiHeld() + s.antrianNasi;
    assert s.Trays() == pre + s.angkut.batch + s.antrianLauk;
    assert r.Trays() == pre + Stamped(s.angkut.batch, s.now) + s.antrianLauk;
    ItemIdsConcat(pre + s.angkut.batch, s.antrianLauk);
    ItemIdsConcat(pre, s.angkut.batch);
    ItemIdsConcat(pre + Stamped(s.angkut.batch, s.now), s.antrianLauk);
    ItemIdsConcat(pre, Stamped(s.angkut.batch, s.now));
  }

  lemma DeliverOutputs(c: Config, d: Draws, s: Sim)
    requires DeliverReady(c, d, s) && StampsOk(s) && CountersOk(c, d, s)
    ensures StampsOk(AngkutDeliver(d, s)) && CountersOk(c, d, AngkutDeliver(d, s))
  {
    var r := AngkutDeliver(d, s);
    var k := s.angkut.draw;
    forall it | it in r.antrianNasi ensures it.Transported(r.now) {
      if it !in s.antrianNasi {
        var i :| 0 <= i < |Stamped(s.angkut.batch, s.now)| && Stamped(s.angkut.batch, s.now)[i] == it;
        assert s.angkut.batch[i] in s.angkut.batch;
      }
    }
    SumPrefixStep(d.angkut, k);
    assert r.AngkutTrips() == k + 1;
  }

  /** The end of a trip keeps the invariant. */
  lemma AngkutDeliverKeeps(c: Config, d: Draws, s: Sim)
    requires Inv(c, d, s, Some(Angkut)) && s.angkut.AngkutBusy?
    ensures s.angkut.draw < |d.angkut| && LOOP_HOLDER in s.petugasAngkut.users
    ensures Inv(c, d, AngkutDeliver(d, s), None)
  {
    TraysBound(c, s);
    DrawsInRange(c, d, s.angkut.draw);
    assert DeliverReady(c, d, s);
    DeliverClock(c, d, s);
    DeliverPools(c, d, s);
    DeliverLauk(c, d, s);
    DeliverFlow(c, d, s);
    DeliverOutputs(c, d, s);
  }
}
