/** `proses_nasi`: while fewer than `TOTAL_OMPRENG` rows are recorded,
    poll `antrian_nasi` every half time unit while it is empty, otherwise
    take its oldest tray, hold a nasi server for one drawn duration, add
    it to `busy_nasi`, append the tray's row to `data` and count it in
    `completed`. Its resumptions are `NasiLoop` (the top of the loop) and
    `NasiFinish` (the end of a service, which records the row and runs
    on to the top of the loop without suspending). */
module NasiStage {
  import opened Wrappers
  import opened Seqs
  import opened Config
  import opened Resource
  import opened Scheduler
  import opened Ompreng
  import opened Pipeline

  /** The top of the loop: return, poll, or take the oldest tray and serve
      it for nasi duration number `completed`. */
  function NasiLoop(c: Config, d: Draws, s: Sim): (r: Sim)
    requires Sorted(s.events) && s.nasi.NasiIdle?
    requires s.petugasNasi.Valid() && LOOP_HOLDER !in s.petugasNasi.users && LOOP_HOLDER !in s.petugasNasi.queue
    requires s.completed < c.TotalOmpreng() ==> s.completed < |d.nasi|
    ensures r.now == s.now
  {
    if s.completed >= c.TotalOmpreng() then
      s.(nasi := NasiStopped)
    else if s.antrianNasi == [] then
      s.(events := Schedule(s.events, Event(s.now + POLL, Nasi)))
    else
      var req := Request(s.petugasNasi, LOOP_HOLDER);
      s.(antrianNasi := s.antrianNasi[1..], petugasNasi := req.0,
         nasi := NasiBusy(s.antrianNasi[0], s.now),
         events := Schedule(s.events, Event(s.now + d.nasi[s.completed], Nasi)))
  }

  /** The row `proses_nasi` appends for the tray it served. */
  function Row(item: Item, mulaiNasi: real, selesai: real): Record {
    Record(item.id, item.mulaiLauk, item.selesaiLauk, mulaiNasi, selesai, selesai - item.datang)
  }

  /** The end of a service: release the server, add the duration to
      `busy_nasi`, and append the tray's row. */
  function NasiRecord(d: Draws, s: Sim): (r: Sim)
    requires s.nasi.NasiBusy? && s.completed < |d.nasi|
    requires s.petugasNasi.Valid() && LOOP_HOLDER in s.petugasNasi.users
    ensures r.now == s.now
  {
    var rel := Release(s.petugasNasi, LOOP_HOLDER);
    s.(petugasNasi := rel.0, busyNasi := s.busyNasi + d.nasi[s.completed],
       data := s.data + [Row(s.nasi.item, s.nasi.mulaiNasi, s.now)],
       trace := s.trace + [s.nasi.item], completed := s.completed + 1, nasi := NasiIdle)
  }

  /** A completed row copies the tray's lauk stamps, and its total time is
      the time from the tray's arrival to the end of its nasi service. */
  lemma RowCompletes(item: Item, mulaiNasi: real, selesai: real)
    requires item.Transported(mulaiNasi) && mulaiNasi <= selesai
    ensures Row(item, mulaiNasi, selesai).Completes(item)
    ensures Row(item, mulaiNasi, selesai).totalWaktu >= 0.0
  {
  }

  // ---------- NasiLoop keeps the invariant ----------

  ghost predicate LoopReady(c: Config, d: Draws, s: Sim) {
    && c.Valid() && d.Fits(c) && Sorted(s.events) && s.nasi.NasiIdle?
    && s.petugasNasi.Valid() && s.petugasNasi.users == [] && s.petugasNasi.queue == []
    && s.petugasNasi.capacity == c.petugasNasi
    && (s.completed < c.TotalOmpreng() ==> s.completed < |d.nasi|)
  }

  /** With `antrian_nasi` empty and trays still to finish, the loop only
      waits 0.5 time units: nothing but the pending resumptions changes,
      and its own resumption goes in at its slot, `now + 0.5`. */
  lemma NasiPollWaits(c: Config, d: Draws, s: Sim)
    requires LoopReady(c, d, s) && s.antrianNasi == [] && s.completed < c.TotalOmpreng()
    ensures var r := NasiLoop(c, d, s);
      && r == s.(events := r.events)
      && exists k :: 0 <= k <= |s.events| && r.events == s.events[..k] + [Event(s.now + POLL, Nasi)] + s.events[k..]
  {
    var e := Event(s.now + POLL, Nasi);
    ScheduleAtSlot(s.events, e);
    var k := Slot(s.events, e.time);
    assert NasiLoop(c, d, s).events == s.events[..k] + [e] + s.events[k..];
  }

  lemma LoopClock(c: Config, d: Draws, s: Sim)
    requires LoopReady(c, d, s) && ClockOk(s, Some(Nasi))
    ensures ClockOk(NasiLoop(c, d, s), None)
  {
    var r := NasiLoop(c, d, s);
    if s.completed < c.TotalOmpreng() && s.antrianNasi != [] {
      DrawsInRange(c, d, s.completed);
    }
    forall p ensures Pending(r.events, p) == if r.Active(p) then 1 else 0 {
      assert r.Active(p) == s.Active(p) || p == Nasi;
    }
  }

  lemma LoopPools(c: Config, d: Draws, s: Sim)
    requires LoopReady(c, d, s) && PoolsOk(c, s)
    ensures PoolsOk(c, NasiLoop(c, d, s))
  {
  }

  lemma LoopLauk(c: Config, d: Draws, s: Sim)
    requires LoopReady(c, d, s) && ProcessesOk(c, s) && LaukDrawsOk(d, s)
    ensures ProcessesOk(c, NasiLoop(c, d, s)) && LaukDrawsOk(d, NasiLoop(c, d, s))
  {
  }

  /** Taking the oldest tray of `antrian_nasi` into service reorders
      nothing. */
  lemma TakeKeepsTrays(s: Sim, r: Sim)
    requires s.nasi.NasiIdle? && s.antrianNasi != [] && r.nasi.NasiBusy?
    requires r.nasi.item == s.antrianNasi[0] && r.antrianNasi == s.antrianNasi[1..]
    requires r.trace == s.trace && r.angkut == s.angkut && r.antrianLauk == s.antrianLauk
    ensures r.Trays() == s.Trays()
  {
    var q := s.antrianNasi;
    assert [q[0]] + q[1..] == q;
    calc {
      r.Trays();
      s.trace + [q[0]] + q[1..] + s.AngkutHeld() + s.antrianLauk;
      s.trace + ([q[0]] + q[1..]) + s.AngkutHeld() + s.antrianLauk;
      s.Trays();
    }
  }

  lemma LoopTrays(c: Config, d: Draws, s: Sim)
    requires LoopReady(c, d, s)
    ensures var r := NasiLoop(c, d, s);
      r.Trays() == s.Trays() && r.putLog == s.putLog && r.ompreng == s.ompreng
  {
    if s.completed < c.TotalOmpreng() && s.antrianNasi != [] {
      TakeKeepsTrays(s, NasiLoop(c, d, s));
    }
  }

  lemma LoopFlow(c: Config, d: Draws, s: Sim)
    requires LoopReady(c, d, s) && FlowOk(s)
    ensures FlowOk(NasiLoop(c, d, s))
  {
    LoopTrays(c, d, s);
    FlowSameTrays(s, NasiLoop(c, d, s));
  }

  lemma LoopStamps(c: Config, d: Draws, s: Sim)
    requires LoopReady(c, d, s) && StampsOk(s)
    ensures StampsOk(NasiLoop(c, d, s))
  {
    var r := NasiLoop(c, d, s);
    if s.completed < c.TotalOmpreng() && s.antrianNasi != [] {
      assert s.antrianNasi[0] in s.antrianNasi;
      forall it | it in r.antrianNasi ensures it.Transported(r.now) {
        assert it in s.antrianNasi;
      }
    }
  }

  lemma LoopCounters(c: Config, d: Draws, s: Sim)
    requires LoopReady(c, d, s) && CountersOk(c, d, s)
    ensures CountersOk(c, d, NasiLoop(c, d, s))
  {
  }

  /** The top of the finish loop keeps the invariant. */
  lemma NasiLoopKeeps(c: Config, d: Draws, s: Sim)
    requires Inv(c, d, s, Some(Nasi)) && s.nasi.NasiIdle?
    ensures s.completed < c.TotalOmpreng() ==> s.completed < |d.nasi|
    ensures s.petugasNasi.users == [] && s.petugasNasi.queue == []
    ensures Inv(c, d, NasiLoop(c, d, s), None)
  {
    assert LoopReady(c, d, s);
    LoopClock(c, d, s);
    LoopPools(c, d, s);
    LoopLauk(c, d, s);
    LoopFlow(c, d, s);
    LoopStamps(c, d, s);
    LoopCounters(c, d, s);
  }

  // ---------- NasiRecord keeps the invariant ----------

  ghost predicate RecordReady(c: Config, d: Draws, s: Sim) {
    && s.nasi.NasiBusy? && s.completed < c.TotalOmpreng() && s.completed < |d.nasi|
    && s.petugasNasi.Valid() && s.petugasNasi.users == [LOOP_HOLDER]
  }

  lemma RecordClock(c: Config, d: Draws, s: Sim)
    requires RecordReady(c, d, s) && ClockOk(s, Some(Nasi))
    ensures ClockOk(NasiRecord(d, s), Some(Nasi))
  {
    var r := NasiRecord(d, s);
    forall p ensures r.Active(p) == s.Active(p) {}
  }

  lemma RecordPools(c: Config, d: Draws, s: Sim)
    requires RecordReady(c, d, s) && PoolsOk(c, s)
    ensures PoolsOk(c, NasiRecord(d, s))
  {
    var r := NasiRecord(d, s);
    assert r.petugasNasi.users == [];
  }

  lemma RecordLauk(c: Config, d: Draws, s: Sim)
    requires RecordReady(c, d, s) && ProcessesOk(c, s) && LaukDrawsOk(d, s)
    ensures ProcessesOk(c, NasiRecord(d, s)) && LaukDrawsOk(d, NasiRecord(d, s))
  {
  }

  lemma RecordFlow(c: Config, d: Draws, s: Sim)
    requires RecordReady(c, d, s) && FlowOk(s)
    ensures FlowOk(NasiRecord(d, s))
  {
    var r := NasiRecord(d, s);
    assert r.Trays() == s.Trays();
    FlowSameTrays(s, r);
  }

  lemma RecordOutputs(c: Config, d: Draws, s: Sim)
    requires RecordReady(c, d, s) && StampsOk(s) && CountersOk(c, d, s)
    ensures StampsOk(NasiRecord(d, s)) && CountersOk(c, d, NasiRecord(d, s))
  {
    var r := NasiRecord(d, s);
    RowCompletes(s.nasi.item, s.nasi.mulaiNasi, s.now);
    SumPrefixStep(d.nasi, |s.data|);
    ChronologicalAppend(s.data, Row(s.nasi.item, s.nasi.mulaiNasi, s.now));
    forall i | 0 <= i < |r.data| ensures r.data[i].Completes(r.trace[i]) && r.data[i].selesaiNasi <= r.now {
      if i < |s.data| {
        assert r.data[i] == s.data[i] && r.trace[i] == s.trace[i];
      }
    }
  }

  /** Recording a row keeps the invariant while the loop runs on. */
  lemma NasiRecordKeeps(c: Config, d: Draws, s: Sim)
    requires Inv(c, d, s, Some(Nasi)) && s.nasi.NasiBusy?
    ensures s.completed < |d.nasi| && LOOP_HOLDER in s.petugasNasi.users
    ensures Inv(c, d, NasiRecord(d, s), Some(Nasi)) && NasiRecord(d, s).nasi.NasiIdle?
  {
    assert RecordReady(c, d, s);
    RecordClock(c, d, s);
    RecordPools(c, d, s);
    RecordLauk(c, d, s);
    RecordFlow(c, d, s);
    RecordOutputs(c, d, s);
  }
}
