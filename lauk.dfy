/** `proses_ompreng(oid)`: a tray arrives, takes a lauk server (waiting
    first-come-first-served when all are busy), holds it for one drawn
    duration, then adds that duration to `busy_lauk` and puts the tray into
    `antrian_lauk`. Its three resumptions are `Arrive`, `StartLauk` and
    `FinishLauk`. */
module LaukStage {
  import opened Wrappers
  import opened Seqs
  import opened Config
  import opened Resource
  import opened Scheduler
  import opened Ompreng
  import opened Pipeline

  /** A tray that `generate` started and that has not yet run. */
  ghost predicate ArriveReady(s: Sim, o: nat) {
    && Sorted(s.events) && o < |s.ompreng| && s.ompreng[o].Spawned?
    && s.petugasLauk.Valid() && o !in s.petugasLauk.users && o !in s.petugasLauk.queue
  }

  /** First resumption: `datang` is the current time and the tray requests
      a lauk server; when one is free the request succeeds at once and the
      process resumes at the same instant, otherwise it waits in the queue. */
  function Arrive(s: Sim, o: nat): (r: Sim)
    requires ArriveReady(s, o)
    ensures r.now == s.now
  {
    var req := Request(s.petugasLauk, o);
    if req.1 then
      s.(petugasLauk := req.0, ompreng := s.ompreng[o := Granted(s.now)],
         events := Schedule(s.events, Event(s.now, Ompreng(o))))
    else
      s.(petugasLauk := req.0, ompreng := s.ompreng[o := Waiting(s.now)])
  }

  /** Resumption once the server is granted: `mulai_lauk` is the current
      time, the next lauk duration is drawn, and the tray is served for
      that long. */
  function StartLauk(d: Draws, s: Sim, o: nat): (r: Sim)
    requires Sorted(s.events) && o < |s.ompreng| && s.ompreng[o].Granted?
    requires s.laukDrawn < |d.lauk|
    ensures r.now == s.now
  {
    var k := s.laukDrawn;
    s.(ompreng := s.ompreng[o := Serving(s.ompreng[o].datang, s.now, k)],
       laukDrawn := k + 1, laukOrder := s.laukOrder + [o],
       events := Schedule(s.events, Event(s.now + d.lauk[k], Ompreng(o))))
  }

  /** The tray `FinishLauk` puts into `antrian_lauk`. */
  function LaukItem(s: Sim, o: nat): Item
    requires o < |s.ompreng| && s.ompreng[o].Serving?
  {
    Item(o, s.ompreng[o].datang, s.ompreng[o].mulaiLauk, s.now, None)
  }

  /** Resumption when the service is over: the server is released (and
      handed to the longest waiting tray, which resumes at once), the
      duration is added to `busy_lauk`, and the tray is put into
      `antrian_lauk`; the process then ends. */
  function FinishLauk(d: Draws, s: Sim, o: nat): (r: Sim)
    requires Sorted(s.events) && o < |s.ompreng| && s.ompreng[o].Serving?
    requires s.ompreng[o].draw < |d.lauk|
    requires s.petugasLauk.Valid() && o in s.petugasLauk.users
    requires s.petugasLauk.queue != [] ==>
      s.petugasLauk.queue[0] < |s.ompreng| && s.ompreng[s.petugasLauk.queue[0]].Waiting?
    ensures r.now == s.now
  {
    var rel := Release(s.petugasLauk, o);
    var ph := s.ompreng[o := Finished];
    var s1 := s.(petugasLauk := rel.0, busyLauk := s.busyLauk + d.lauk[s.ompreng[o].draw],
                 antrianLauk := s.antrianLauk + [LaukItem(s, o)], ompreng := ph,
                 putLog := s.putLog + [o]);
    if rel.1.Some? then
      var w := rel.1.value;
      s1.(ompreng := ph[w := Granted(ph[w].datang)],
          events := Schedule(s.events, Event(s.now, Ompreng(w))))
    else
      s1
  }

  // ---------- Arrive keeps the invariant ----------

  lemma ArriveClock(c: Config, s: Sim, o: nat)
    requires ClockOk(s, Some(Ompreng(o))) && PoolsOk(c, s)
    requires o < |s.ompreng| && s.ompreng[o].Spawned?
    ensures ClockOk(Arrive(s, o), None)
  {
    var r := Arrive(s, o);
    forall p ensures Pending(r.events, p) == if r.Active(p) then 1 else 0 {
      if p.Ompreng? && p.oid < |s.ompreng| && p.oid != o {
        assert r.ompreng[p.oid] == s.ompreng[p.oid];
      }
    }
  }

  lemma ArrivePools(c: Config, s: Sim, o: nat)
    requires Sorted(s.events) && PoolsOk(c, s) && o < |s.ompreng| && s.ompreng[o].Spawned?
    ensures PoolsOk(c, Arrive(s, o))
  {
    var r := Arrive(s, o);
    forall x: nat | x < |s.ompreng| && x != o ensures r.ompreng[x] == s.ompreng[x] {}
  }

  lemma ArriveDraws(c: Config, d: Draws, s: Sim, o: nat)
    requires ArriveReady(s, o) && LaukDrawsOk(d, s)
    ensures LaukDrawsOk(d, Arrive(s, o))
  {
    var r := Arrive(s, o);
    forall x | 0 <= x < |s.ompreng| && x != o ensures r.ompreng[x] == s.ompreng[x] {}
    forall j | 0 <= j < |s.laukOrder| ensures s.laukOrder[j] != o {}
    DoneSumFrame(d.lauk, s.laukOrder, s.ompreng, r.ompreng);
  }

  lemma ArriveFlow(c: Config, s: Sim, o: nat)
    requires ArriveReady(s, o) && FlowOk(s)
    ensures FlowOk(Arrive(s, o))
  {
    var r := Arrive(s, o);
    forall x: nat ensures IsFinished(r.ompreng, x) == IsFinished(s.ompreng, x) {
      if x < |s.ompreng| && x != o {
        assert r.ompreng[x] == s.ompreng[x];
      }
    }
  }

  lemma ArriveRest(c: Config, d: Draws, s: Sim, o: nat)
    requires ArriveReady(s, o) && ProcessesOk(c, s) && StampsOk(s) && CountersOk(c, d, s)
    ensures ProcessesOk(c, Arrive(s, o)) && StampsOk(Arrive(s, o)) && CountersOk(c, d, Arrive(s, o))
  {
    OutputsFrame(c, d, s, Arrive(s, o));
  }

  /** A tray's first resumption keeps the invariant. */
  lemma ArriveKeeps(c: Config, d: Draws, s: Sim, o: nat)
    requires Inv(c, d, s, Some(Ompreng(o))) && s.ompreng[o].Spawned?
    ensures ArriveReady(s, o)
    ensures Inv(c, d, Arrive(s, o), None)
  {
    assert ArriveReady(s, o);
    ArriveClock(c, s, o);
    ArrivePools(c, s, o);
    ArriveDraws(c, d, s, o);
    ArriveFlow(c, s, o);
    ArriveRest(c, d, s, o);
  }

  // ---------- StartLauk keeps the invariant ----------

  /** The trays that drew a lauk duration are distinct and started, so
      there are never more draws than trays started. */
  lemma LaukDrawsBound(c: Config, d: Draws, s: Sim)
    requires c.Valid() && d.Fits(c) && ProcessesOk(c, s) && LaukDrawsOk(d, s)
    ensures s.laukDrawn <= |s.ompreng| <= |d.lauk|
  {
    DistinctBelow(s.laukOrder, |s.ompreng|);
  }

  /** A granted tray finds a lauk duration left to draw. */
  lemma LaukDrawAvailable(c: Config, d: Draws, s: Sim, o: nat)
    requires c.Valid() && d.Fits(c) && ProcessesOk(c, s) && LaukDrawsOk(d, s)
    requires o < |s.ompreng| && s.ompreng[o].Granted?
    ensures s.laukDrawn < |d.lauk|
  {
    DistinctBelowMissing(s.laukOrder, |s.ompreng|, o);
  }

  ghost predicate StartReady(d: Draws, s: Sim, o: nat) {
    && Sorted(s.events) && o < |s.ompreng| && s.ompreng[o].Granted?
    && s.laukDrawn < |d.lauk| && 0.0 <= d.lauk[s.laukDrawn]
  }

  lemma StartClock(d: Draws, s: Sim, o: nat)
    requires StartReady(d, s, o) && ClockOk(s, Some(Ompreng(o)))
    ensures ClockOk(StartLauk(d, s, o), None)
  {
    var r := StartLauk(d, s, o);
    forall p ensures Pending(r.events, p) == if r.Active(p) then 1 else 0 {
      if p.Ompreng? && p.oid < |s.ompreng| && p.oid != o {
        assert r.ompreng[p.oid] == s.ompreng[p.oid];
      }
    }
  }

  lemma StartProcesses(c: Config, d: Draws, s: Sim, o: nat)
    requires StartReady(d, s, o) && ProcessesOk(c, s)
    ensures ProcessesOk(c, StartLauk(d, s, o))
  {
    var r := StartLauk(d, s, o);
    assert PhaseOk(s.ompreng[o], s.now);
    forall x | 0 <= x < |r.ompreng| ensures PhaseOk(r.ompreng[x], r.now) {
      if x != o {
        assert r.ompreng[x] == s.ompreng[x];
      }
    }
  }

  lemma StartPools(c: Config, d: Draws, s: Sim, o: nat)
    requires StartReady(d, s, o) && PoolsOk(c, s)
    ensures PoolsOk(c, StartLauk(d, s, o))
  {
    var r := StartLauk(d, s, o);
    forall x: nat | x < |s.ompreng| && x != o ensures r.ompreng[x] == s.ompreng[x] {}
  }

  lemma StartDraws(d: Draws, s: Sim, o: nat)
    requires StartReady(d, s, o) && LaukDrawsOk(d, s)
    ensures LaukDrawsOk(d, StartLauk(d, s, o))
  {
    var r := StartLauk(d, s, o);
    forall x | 0 <= x < |s.ompreng| && x != o ensures r.ompreng[x] == s.ompreng[x] {}
    forall j | 0 <= j < |s.laukOrder| ensures s.laukOrder[j] != o {}
    DistinctAppend(s.laukOrder, o);
    forall j | 0 <= j < |s.laukOrder| ensures r.laukOrder[j] == s.laukOrder[j] {}
    DoneSumFrame(d.lauk, s.laukOrder, s.ompreng, r.ompreng);
    DoneSumStart(d.lauk, s.laukOrder, r.ompreng, o);
  }

  lemma StartFlow(d: Draws, s: Sim, o: nat)
    requires StartReady(d, s, o) && FlowOk(s)
    ensures FlowOk(StartLauk(d, s, o))
  {
    var r := StartLauk(d, s, o);
    forall x: nat ensures IsFinished(r.ompreng, x) == IsFinished(s.ompreng, x) {
      if x < |s.ompreng| && x != o {
        assert r.ompreng[x] == s.ompreng[x];
      }
    }
  }

  /** A granted tray's resumption keeps the invariant. */
  lemma StartLaukKeeps(c: Config, d: Draws, s: Sim, o: nat)
    requires Inv(c, d, s, Some(Ompreng(o))) && s.ompreng[o].Granted?
    ensures s.laukDrawn < |d.lauk|
    ensures Inv(c, d, StartLauk(d, s, o), None)
  {
    LaukDrawAvailable(c, d, s, o);
    DrawsInRange(c, d, s.laukDrawn);
    assert StartReady(d, s, o);
    StartClock(d, s, o);
    StartProcesses(c, d, s, o);
    StartPools(c, d, s, o);
    StartDraws(d, s, o);
    StartFlow(d, s, o);
    OutputsFrame(c, d, s, StartLauk(d, s, o));
  }

  // ---------- FinishLauk keeps the invariant ----------

  ghost predicate FinishReady(d: Draws, s: Sim, o: nat) {
    && Sorted(s.events) && o < |s.ompreng| && s.ompreng[o].Serving?
    && s.ompreng[o].draw < |d.lauk|
    && s.petugasLauk.Valid() && o in s.petugasLauk.users
    && (s.petugasLauk.queue != [] ==>
          s.petugasLauk.queue[0] < |s.ompreng| && s.ompreng[s.petugasLauk.queue[0]].Waiting?)
  }

  /** The tray granted the released server, if any: the head of the wait
      list. */
  function Successor(s: Sim): Option<nat> {
    if s.petugasLauk.queue == [] then None else Some(s.petugasLauk.queue[0])
  }

  /** The phases `FinishLauk` leaves: `o` finished and the successor granted. */
  lemma FinishPhases(d: Draws, s: Sim, o: nat)
    requires FinishReady(d, s, o)
    ensures var r := FinishLauk(d, s, o);
      && |r.ompreng| == |s.ompreng| && r.ompreng[o] == Finished
      && (Successor(s).Some? ==> (Successor(s).value != o
            && r.ompreng[Successor(s).value] == Granted(s.ompreng[Successor(s).value].datang)))
      && (forall x :: 0 <= x < |s.ompreng| && x != o && Some(x) != Successor(s) ==> r.ompreng[x] == s.ompreng[x])
  {
  }

  lemma FinishClock(d: Draws, s: Sim, o: nat)
    requires FinishReady(d, s, o) && ClockOk(s, Some(Ompreng(o)))
    ensures ClockOk(FinishLauk(d, s, o), None)
  {
    var r := FinishLauk(d, s, o);
    FinishPhases(d, s, o);
    forall p ensures Pending(r.events, p) == if r.Active(p) then 1 else 0 {
      if p.Ompreng? && p.oid < |s.ompreng| && p.oid != o && Some(p.oid) != Successor(s) {
        assert r.ompreng[p.oid] == s.ompreng[p.oid];
      }
    }
  }

  lemma FinishProcesses(c: Config, d: Draws, s: Sim, o: nat)
    requires FinishReady(d, s, o) && ProcessesOk(c, s)
    ensures ProcessesOk(c, FinishLauk(d, s, o))
  {
    var r := FinishLauk(d, s, o);
    FinishPhases(d, s, o);
    forall x | 0 <= x < |r.ompreng| ensures PhaseOk(r.ompreng[x], r.now) {
      if x != o && Some(x) != Successor(s) {
        assert r.ompreng[x] == s.ompreng[x];
      } else if x != o {
        assert PhaseOk(s.ompreng[x], s.now);
      }
    }
  }

  lemma FinishPools(c: Config, d: Draws, s: Sim, o: nat)
    requires FinishReady(d, s, o) && PoolsOk(c, s)
    ensures PoolsOk(c, FinishLauk(d, s, o))
  {
    var r := FinishLauk(d, s, o);
    FinishPhases(d, s, o);
    forall x: nat | x < |s.ompreng| && x != o && Some(x) != Successor(s)
      ensures r.ompreng[x] == s.ompreng[x] {}
  }

  /** The draws part of the invariant survives a tray `o` finishing while
      the tray `w` (if any) leaves the wait list for a server. */
  lemma DrawsOnFinish(d: Draws, s: Sim, r: Sim, o: nat, w: Option<nat>)
    requires LaukDrawsOk(d, s) && o < |s.ompreng| && s.ompreng[o].Serving? && s.ompreng[o].draw < |d.lauk|
    requires r.laukOrder == s.laukOrder && r.laukDrawn == s.laukDrawn
    requires |r.ompreng| == |s.ompreng| && r.ompreng[o] == Finished
    requires r.busyLauk == s.busyLauk + d.lauk[s.ompreng[o].draw]
    requires w.Some? ==> w.value < |s.ompreng| && s.ompreng[w.value].Waiting? && r.ompreng[w.value].Granted?
    requires forall x :: 0 <= x < |s.ompreng| && x != o && Some(x) != w ==> r.ompreng[x] == s.ompreng[x]
    ensures LaukDrawsOk(d, r)
  {
    var ph := s.ompreng[o := Finished];
    DoneSumFinish(d.lauk, s.laukOrder, s.ompreng, o, s.ompreng[o].draw);
    forall j | 0 <= j < |s.laukOrder| ensures IsFinished(ph, s.laukOrder[j]) == IsFinished(r.ompreng, s.laukOrder[j]) {
      assert Some(s.laukOrder[j]) != w;
    }
    DoneSumFrame(d.lauk, s.laukOrder, ph, r.ompreng);
  }

  lemma FinishDraws(d: Draws, s: Sim, o: nat)
    requires FinishReady(d, s, o) && LaukDrawsOk(d, s)
    ensures LaukDrawsOk(d, FinishLauk(d, s, o))
  {
    FinishPhases(d, s, o);
    DrawsOnFinish(d, s, FinishLauk(d, s, o), o, Successor(s));
  }

  /** The flow part of the invariant survives tray `o`, not yet finished,
      finishing and entering `antrian_lauk` as `it`. */
  lemma FlowOnPut(s: Sim, r: Sim, o: nat, it: Item)
    requires FlowOk(s) && it.id == o && !IsFinished(s.ompreng, o)
    requires r.Trays() == s.Trays() + [it] && r.putLog == s.putLog + [o]
    requires forall x: nat :: IsFinished(r.ompreng, x) == (IsFinished(s.ompreng, x) || x == o)
    ensures FlowOk(r)
  {
    assert ItemIds(r.Trays()) == ItemIds(s.Trays()) + [o];
    DistinctAppend(s.putLog, o);
  }

  lemma FinishFlow(d: Draws, s: Sim, o: nat)
    requires FinishReady(d, s, o) && FlowOk(s)
    ensures FlowOk(FinishLauk(d, s, o))
  {
    var r := FinishLauk(d, s, o);
    FinishPhases(d, s, o);
    assert r.Trays() == s.Trays() + [LaukItem(s, o)];
    forall x: nat ensures IsFinished(r.ompreng, x) == (IsFinished(s.ompreng, x) || x == o) {
      if x < |s.ompreng| && x != o && Some(x) != Successor(s) {
        assert r.ompreng[x] == s.ompreng[x];
      }
    }
    FlowOnPut(s, r, o, LaukItem(s, o));
  }

  lemma FinishOutputs(c: Config, d: Draws, s: Sim, o: nat)
    requires FinishReady(d, s, o) && ProcessesOk(c, s) && StampsOk(s) && CountersOk(c, d, s)
    ensures StampsOk(FinishLauk(d, s, o)) && CountersOk(c, d, FinishLauk(d, s, o))
  {
    var r := FinishLauk(d, s, o);
    assert PhaseOk(s.ompreng[o], s.now);
    assert LaukItem(s, o).LaukDone(s.now);
    assert r.antrianLauk == s.antrianLauk + [LaukItem(s, o)];
  }

  /** A served tray's last resumption keeps the invariant. */
  lemma FinishLaukKeeps(c: Config, d: Draws, s: Sim, o: nat)
    requires Inv(c, d, s, Some(Ompreng(o))) && s.ompreng[o].Serving?
    ensures FinishReady(d, s, o)
    ensures Inv(c, d, FinishLauk(d, s, o), None)
  {
    LaukDrawsBound(c, d, s);
    if s.petugasLauk.queue != [] {
      assert s.petugasLauk.queue[0] in s.petugasLauk.queue;
    }
    assert FinishReady(d, s, o);
    FinishClock(d, s, o);
    FinishProcesses(c, d, s, o);
    FinishPools(c, d, s, o);
    FinishDraws(d, s, o);
    FinishFlow(d, s, o);
    FinishOutputs(c, d, s, o);
  }
}
