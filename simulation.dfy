/** The run as a whole: `run` starting the three processes, the `generate`
    process, and the environment taking the earliest pending resumption
    and running that process until it next suspends. */
module Simulation {
  import opened Wrappers
  import opened Seqs
  import opened Config
  import opened Resource
  import opened Scheduler
  import opened Ompreng
  import opened Pipeline
  import opened LaukStage
  import opened AngkutStage
  import opened NasiStage

  /** `run` before `env.run()`: `generate`, `proses_angkut` and
      `proses_nasi` are started, in that order, at the current time. */
  function Start(s: Sim): (r: Sim)
    requires s.events == []
  {
    var q := Schedule(Schedule(Schedule([], Event(s.now, Generator)), Event(s.now, Angkut)), Event(s.now, Nasi));
    s.(generating := true, events := q)
  }

  lemma StartClock(c: Config)
    ensures Start(Initial(c)).events == [Event(0.0, Generator), Event(0.0, Angkut), Event(0.0, Nasi)]
    ensures ClockOk(Start(Initial(c)), None)
  {
    var q1 := Schedule([], Event(0.0, Generator));
    assert q1 == [Event(0.0, Generator)];
    var q2 := Schedule(q1, Event(0.0, Angkut));
    assert q2 == [Event(0.0, Generator)] + Schedule([], Event(0.0, Angkut));
    assert q2 == [Event(0.0, Generator), Event(0.0, Angkut)];
    assert q2[1..] == [Event(0.0, Angkut)];
    var q3 := Schedule(q2, Event(0.0, Nasi));
    assert q3 == [Event(0.0, Generator)] + Schedule([Event(0.0, Angkut)], Event(0.0, Nasi));
  }

  lemma StartPools(c: Config)
    requires c.Valid()
    ensures ProcessesOk(c, Start(Initial(c))) && PoolsOk(c, Start(Initial(c)))
  {
  }

  /** Before any tray exists, no lauk draw is used. */
  lemma NoLaukDrawsYet(d: Draws, s: Sim)
    requires s.ompreng == [] && s.laukOrder == [] && s.laukDrawn == 0 && s.busyLauk == 0.0
    ensures LaukDrawsOk(d, s)
  {
    assert DoneSum(d.lauk, s.laukOrder, s.ompreng) == 0.0;
  }

  /** Before any tray exists, none has entered a store. */
  lemma NoTraysYet(s: Sim)
    requires s.ompreng == [] && s.putLog == [] && s.trace == [] && s.antrianLauk == [] && s.antrianNasi == []
    requires s.angkut.AngkutIdle? && s.nasi.NasiIdle?
    ensures FlowOk(s)
  {
    assert s.Trays() == [];
    assert ItemIds(s.Trays()) == [];
  }

  lemma StartDraws(c: Config, d: Draws)
    ensures LaukDrawsOk(d, Start(Initial(c))) && FlowOk(Start(Initial(c)))
  {
    NoLaukDrawsYet(d, Start(Initial(c)));
    NoTraysYet(Start(Initial(c)));
  }

  lemma StartCounters(c: Config, d: Draws)
    requires c.Valid() && d.Fits(c)
    ensures StampsOk(Start(Initial(c))) && CountersOk(c, d, Start(Initial(c)))
  {
    var s := Start(Initial(c));
    assert s.Trays() == [];
  }

  /** `run` starts exactly one generator, one transport loop and one
      finish loop, each resumed at the current time in the order started,
      and from the state `__init__` leaves that establishes the invariant. */
  lemma StartEstablishes(c: Config, d: Draws)
    requires c.Valid() && d.Fits(c)
    ensures Start(Initial(c)).events == [Event(0.0, Generator), Event(0.0, Angkut), Event(0.0, Nasi)]
    ensures Inv(c, d, Start(Initial(c)), None)
  {
    StartClock(c);
    StartPools(c);
    StartDraws(c, d);
    StartCounters(c, d);
  }

  /** One resumption of `generate`: start `proses_ompreng` for the next id
      and wait zero time, or return once every id has been started. */
  function GenerateStep(c: Config, s: Sim): (r: Sim)
    requires Sorted(s.events)
    ensures r.now == s.now
  {
    if s.genNext < c.TotalOmpreng() then
      var q := Schedule(s.events, Event(s.now, Ompreng(s.genNext)));
      s.(ompreng := s.ompreng + [Spawned], genNext := s.genNext + 1,
         events := Schedule(q, Event(s.now, Generator)))
    else
      s.(generating := false)
  }

  /** `generate` starts the ids in increasing order, one per resumption:
      the next id's process is started (and resumed at once), the earlier
      ones are untouched, and nothing else changes; once every id is
      started it returns. */
  lemma {:induction false} GenerateSpawnsNext(c: Config, s: Sim)
    requires Sorted(s.events) && ProcessesOk(c, s)
    ensures var r := GenerateStep(c, s);
      if s.genNext < c.TotalOmpreng() then
        && |r.ompreng| == r.genNext == s.genNext + 1
        && r.ompreng[..s.genNext] == s.ompreng && r.ompreng[s.genNext].Spawned?
        && Pending(r.events, Ompreng(s.genNext)) == Pending(s.events, Ompreng(s.genNext)) + 1
        && Pending(r.events, Generator) == Pending(s.events, Generator) + 1
        && r == s.(ompreng := r.ompreng, genNext := r.genNext, events := r.events)
      else
        r == s.(generating := false) && |s.ompreng| == c.TotalOmpreng()
  {
    var r := GenerateStep(c, s);
    if s.genNext < c.TotalOmpreng() {
      assert r.ompreng[..s.genNext] == s.ompreng;
    }
  }

  lemma GenerateClock(c: Config, s: Sim)
    requires ClockOk(s, Some(Generator)) && ProcessesOk(c, s)
    ensures ClockOk(GenerateStep(c, s), None)
  {
    var r := GenerateStep(c, s);
    if s.genNext < c.TotalOmpreng() {
      forall p ensures Pending(r.events, p) == if r.Active(p) then 1 else 0 {
        if p.Ompreng? && p.oid < |s.ompreng| {
          assert r.ompreng[p.oid] == s.ompreng[p.oid];
        }
      }
    }
  }

  lemma GeneratePools(c: Config, s: Sim)
    requires Sorted(s.events) && PoolsOk(c, s)
    ensures PoolsOk(c, GenerateStep(c, s))
  {
    var r := GenerateStep(c, s);
    if s.genNext < c.TotalOmpreng() {
      forall o: nat | o < |s.ompreng| ensures r.ompreng[o] == s.ompreng[o] {}
    }
  }

  lemma GenerateDraws(c: Config, d: Draws, s: Sim)
    requires Sorted(s.events) && LaukDrawsOk(d, s)
    ensures LaukDrawsOk(d, GenerateStep(c, s))
  {
    var r := GenerateStep(c, s);
    if s.genNext < c.TotalOmpreng() {
      forall o | 0 <= o < |s.ompreng| ensures r.ompreng[o] == s.ompreng[o] {}
      DoneSumFrame(d.lauk, s.laukOrder, s.ompreng, r.ompreng);
    }
  }

  lemma GenerateFlow(c: Config, s: Sim)
    requires Sorted(s.events) && FlowOk(s)
    ensures FlowOk(GenerateStep(c, s))
  {
    var r := GenerateStep(c, s);
    if s.genNext < c.TotalOmpreng() {
      forall o: nat ensures IsFinished(r.ompreng, o) == IsFinished(s.ompreng, o) {
        if o < |s.ompreng| {
          assert r.ompreng[o] == s.ompreng[o];
        }
      }
    }
  }

  lemma GenerateRest(c: Config, d: Draws, s: Sim)
    requires Sorted(s.events) && ProcessesOk(c, s) && StampsOk(s) && CountersOk(c, d, s)
    ensures ProcessesOk(c, GenerateStep(c, s)) && StampsOk(GenerateStep(c, s)) && CountersOk(c, d, GenerateStep(c, s))
  {
    OutputsFrame(c, d, s, GenerateStep(c, s));
  }

  /** `generate` keeps the invariant. */
  lemma GenerateKeeps(c: Config, d: Draws, s: Sim)
    requires Inv(c, d, s, Some(Generator))
    ensures Inv(c, d, GenerateStep(c, s), None)
  {
    GenerateClock(c, s);
    GeneratePools(c, s);
    GenerateDraws(c, d, s);
    GenerateFlow(c, s);
    GenerateRest(c, d, s);
  }

  // ---------- the environment ----------

  /** The environment takes the earliest pending resumption (the oldest
      among those due at the same time) and advances the clock to it. */
  function Pop(s: Sim): Sim
    requires s.events != []
  {
    s.(now := s.events[0].time, events := s.events[1..])
  }

  /** `r` is `s` with the clock moved forward and the pending resumptions
      replaced. */
  predicate Later(s: Sim, r: Sim) {
    s.now <= r.now && r == s.(now := r.now, events := r.events)
  }

  lemma PopClock(s: Sim)
    requires ClockOk(s, None) && s.events != []
    ensures ClockOk(Pop(s), Some(s.events[0].who)) && Later(s, Pop(s))
  {
    PopHead(s.events);
    assert Pending(s.events, s.events[0].who) >= 1;
  }

  lemma LaterProcesses(c: Config, s: Sim, r: Sim)
    requires ProcessesOk(c, s) && Later(s, r)
    ensures ProcessesOk(c, r)
  {
    forall o | 0 <= o < |r.ompreng| ensures PhaseOk(r.ompreng[o], r.now) {
      assert PhaseOk(s.ompreng[o], s.now);
    }
  }

  lemma LaterStamps(s: Sim, r: Sim)
    requires StampsOk(s) && Later(s, r)
    ensures StampsOk(r)
  {
    forall it | it in r.antrianLauk ensures it.LaukDone(r.now) {
      assert it.LaukDone(s.now);
    }
    forall it | it in r.antrianNasi ensures it.Transported(r.now) {
      assert it.Transported(s.now);
    }
    if r.angkut.AngkutBusy? {
      forall it | it in r.angkut.batch ensures it.LaukDone(r.now) {
        assert it.LaukDone(s.now);
      }
    }
  }

  lemma LaterRest(c: Config, d: Draws, s: Sim, r: Sim)
    requires PoolsOk(c, s) && LaukDrawsOk(d, s) && FlowOk(s) && CountersOk(c, d, s) && Later(s, r)
    ensures PoolsOk(c, r) && LaukDrawsOk(d, r) && FlowOk(r) && CountersOk(c, d, r)
  {
    assert r.Trays() == s.Trays() && r.AngkutTrips() == s.AngkutTrips();
  }

  /** Taking the earliest resumption keeps the invariant, with its process
      now the one running, and never moves the clock backwards. */
  lemma PopKeeps(c: Config, d: Draws, s: Sim)
    requires Inv(c, d, s, None) && s.events != []
    ensures Inv(c, d, Pop(s), Some(s.events[0].who)) && s.now <= Pop(s).now
  {
    PopClock(s);
    LaterProcesses(c, s, Pop(s));
    LaterStamps(s, Pop(s));
    LaterRest(c, d, s, Pop(s));
  }

  /** The process resumed is alive. */
  lemma RunningTray(c: Config, d: Draws, s: Sim, o: nat)
    requires Inv(c, d, s, Some(Ompreng(o)))
    ensures o < |s.ompreng| && s.ompreng[o].Live()
  {
  }

  /** The resumption of tray `o`'s process, by where it is suspended. */
  function ResumeOmpreng(c: Config, d: Draws, s: Sim, o: nat): (r: Sim)
    requires Inv(c, d, s, Some(Ompreng(o)))
    ensures Inv(c, d, r, None) && r.now == s.now
  {
    RunningTray(c, d, s, o);
    match s.ompreng[o]
    case Spawned =>
      ArriveKeeps(c, d, s, o);
      Arrive(s, o)
    case Granted(_) =>
      StartLaukKeeps(c, d, s, o);
      StartLauk(d, s, o)
    case Serving(_, _, _) =>
      FinishLaukKeeps(c, d, s, o);
      FinishLauk(d, s, o)
    case Waiting(_) => assert false; s
    case Finished => assert false; s
  }

  /** The resumption of the transport loop. */
  function ResumeAngkut(c: Config, d: Draws, s: Sim): (r: Sim)
    requires Inv(c, d, s, Some(Angkut))
    ensures Inv(c, d, r, None) && r.now == s.now
  {
    match s.angkut
    case AngkutIdle =>
      AngkutLoopKeeps(c, d, s);
      AngkutLoop(c, d, s)
    case AngkutBusy(_, _) =>
      AngkutDeliverKeeps(c, d, s);
      AngkutDeliver(d, s)
    case AngkutStopped => assert false; s
  }

  /** The resumption of the finish loop; after a service it records the
      row and runs on to the top of the loop. */
  function ResumeNasi(c: Config, d: Draws, s: Sim): (r: Sim)
    requires Inv(c, d, s, Some(Nasi))
    ensures Inv(c, d, r, None) && r.now == s.now
  {
    match s.nasi
    case NasiIdle =>
      NasiLoopKeeps(c, d, s);
      NasiLoop(c, d, s)
    case NasiBusy(_, _) =>
      NasiRecordKeeps(c, d, s);
      var s2 := NasiRecord(d, s);
      NasiLoopKeeps(c, d, s2);
      NasiLoop(c, d, s2)
    case NasiStopped => assert false; s
  }

  /** One step of `env.run()`: the earliest pending resumption runs its
      process until it next suspends or returns. The invariant holds
      again afterwards and the clock has not moved backwards. */
  function Dispatch(c: Config, d: Draws, s: Sim): (r: Sim)
    requires Inv(c, d, s, None) && s.events != []
    ensures Inv(c, d, r, None) && s.now <= r.now
  {
    PopKeeps(c, d, s);
    var s1 := Pop(s);
    match s.events[0].who
    case Generator =>
      GenerateKeeps(c, d, s1);
      GenerateStep(c, s1)
    case Ompreng(o) => ResumeOmpreng(c, d, s1, o)
    case Angkut => ResumeAngkut(c, d, s1)
    case Nasi => ResumeNasi(c, d, s1)
  }
}
