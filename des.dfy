/** The class `PiketOmprengDES`: the configuration and random draws of one
    run, the simulation environment's clock and pending resumptions, the
    three server pools, the two stores, the result list and the counters,
    all updated in place by the process bodies. Each method is proved to
    leave exactly the state the matching step of the run model describes,
    so everything proved about those steps holds of the object. */
module PiketOmprengModel {
  import opened Wrappers
  import opened Seqs
  import opened Config
  import opened Resource
  import opened Scheduler
  import opened Ompreng
  import opened Pipeline
  import opened LaukStage
  import opened AngkutStage
  import opened NasiStage
  import opened Simulation
  import opened Outcome
  import opened Analysis

  /** The simulation environment: its clock, its pending resumptions, the
      suspended frames of the generator and of every process, and the
      positions reached in the four streams of random draws. */
  datatype Env = Env(
    now: real,
    events: seq<Event>,
    generating: bool,
    genNext: nat,
    ompreng: seq<OmprengPhase>,
    angkut: AngkutPhase,
    nasi: NasiPhase,
    laukDrawn: nat,
    angkutDrawn: nat)

  /** The three server pools `petugas_lauk`, `petugas_angkut`, `petugas_nasi`. */
  datatype Pools = Pools(lauk: Resource, angkut: Resource, nasi: Resource)

  /** The accumulators `busy_lauk`, `busy_angkut`, `busy_nasi`. */
  datatype Busy = Busy(lauk: real, angkut: real, nasi: real)

  /** Bookkeeping that the program does not keep: the order in which trays
      began their lauk service and were put into `antrian_lauk`, and the
      trays in the order the nasi server took them. */
  datatype Log = Log(laukOrder: seq<nat>, putLog: seq<nat>, trace: seq<Item>)

  class PiketOmprengDES {
    const config: Config
    const draws: Draws

    var env: Env
    var petugas: Pools
    var antrianLauk: seq<Item>
    var antrianNasi: seq<Item>
    var data: seq<Record>
    var completed: nat
    var busy: Busy
    ghost var log: Log

    /** The object's state as a value of the run model. */
    ghost function State(): Sim
      reads this
    {
      Sim(env.now, env.events, petugas.lauk, petugas.angkut, petugas.nasi, antrianLauk, antrianNasi,
          data, completed, busy.lauk, busy.angkut, busy.nasi, env.generating, env.genNext,
          env.ompreng, env.angkut, env.nasi, env.laukDrawn, env.angkutDrawn,
          log.laukOrder, log.putLog, log.trace)
    }

    /** Between two resumptions the object satisfies the run invariant. */
    ghost predicate Valid()
      reads this
    {
      Inv(config, draws, State(), None)
    }

    /** `__init__`: the environment at time zero, idle pools of the
        configured sizes, empty stores and zero counters. */
    constructor(c: Config, d: Draws)
      ensures config == c && draws == d
      ensures State() == Initial(c)
    {
      config := c;
      draws := d;
      env := Env(0.0, [], false, 0, [], AngkutIdle, NasiIdle, 0, 0);
      petugas := Pools(Create(c.petugasLauk), Create(c.petugasAngkut), Create(c.petugasNasi));
      antrianLauk := [];
      antrianNasi := [];
      data := [];
      completed := 0;
      busy := Busy(0.0, 0.0, 0.0);
      log := Log([], [], []);
    }

    /** The three `env.process` calls of `run`. */
    method StartProcesses()
      requires env.events == []
      modifies this
      ensures State() == Start(old(State()))
    {
      var now := env.now;
      env := env.(events := Schedule(Schedule(Schedule([], Event(now, Generator)), Event(now, Angkut)), Event(now, Nasi)),
                  generating := true);
    }

    /** One resumption of `generate`. */
    method Generate()
      requires Sorted(env.events)
      modifies this
      ensures State() == GenerateStep(config, old(State()))
    {
      var e := env;
      if e.genNext < config.TotalOmpreng() {
        env := e.(ompreng := e.ompreng + [Spawned],
                  events := Schedule(Schedule(e.events, Event(e.now, Ompreng(e.genNext))), Event(e.now, Generator)),
                  genNext := e.genNext + 1);
      } else {
        env := e.(generating := false);
      }
    }

    /** `proses_ompreng(o)` from its start: record `datang` and request a
        lauk server. */
    method LaukArrive(o: nat)
      requires ArriveReady(State(), o)
      modifies this
      ensures State() == Arrive(old(State()), o)
    {
      var e := env;
      var req := Request(petugas.lauk, o);
      petugas := petugas.(lauk := req.0);
      if req.1 {
        env := e.(ompreng := e.ompreng[o := Granted(e.now)], events := Schedule(e.events, Event(e.now, Ompreng(o))));
      } else {
        env := e.(ompreng := e.ompreng[o := Waiting(e.now)]);
      }
    }

    /** `proses_ompreng(o)` once granted: record `mulai_lauk`, draw the
        service time and wait for it. */
    method LaukServe(o: nat)
      requires Sorted(env.events) && o < |env.ompreng| && env.ompreng[o].Granted? && env.laukDrawn < |draws.lauk|
      modifies this
      ensures State() == StartLauk(draws, old(State()), o)
    {
      var e := env;
      var t := draws.lauk[e.laukDrawn];
      env := e.(ompreng := e.ompreng[o := Serving(e.ompreng[o].datang, e.now, e.laukDrawn)],
                events := Schedule(e.events, Event(e.now + t, Ompreng(o))),
                laukDrawn := e.laukDrawn + 1);
      log := log.(laukOrder := log.laukOrder + [o]);
    }

    /** `proses_ompreng(o)` after its service: release the server, add the
        service time to `busy_lauk` and put the tray into `antrian_lauk`. */
    method LaukFinish(o: nat)
      requires FinishReady(draws, State(), o)
      modifies this
      ensures State() == FinishLauk(draws, old(State()), o)
    {
      var e := env;
      var datang, mulaiLauk, k := e.ompreng[o].datang, e.ompreng[o].mulaiLauk, e.ompreng[o].draw;
      var rel := Release(petugas.lauk, o);
      petugas := petugas.(lauk := rel.0);
      busy := busy.(lauk := busy.lauk + draws.lauk[k]);
      antrianLauk := antrianLauk + [Item(o, datang, mulaiLauk, e.now, None)];
      log := log.(putLog := log.putLog + [o]);
      var frames := e.ompreng[o := Finished];
      if rel.1.Some? {
        var w := rel.1.value;
        env := e.(ompreng := frames[w := Granted(frames[w].datang)], events := Schedule(e.events, Event(e.now, Ompreng(w))));
      } else {
        env := e.(ompreng := frames);
      }
    }

    /** The `for` loop of `proses_angkut` that takes `m` trays from
        `antrian_lauk`, one `get` at a time. */
    method TakeBatch(m: nat) returns (batch: seq<Item>)
      requires m <= |antrianLauk|
      modifies this`antrianLauk
      ensures batch == old(antrianLauk)[..m] && antrianLauk == old(antrianLauk)[m..]
    {
      batch := [];
      var i := 0;
      while i < m
        invariant 0 <= i <= m
        invariant batch == old(antrianLauk)[..i] && antrianLauk == old(antrianLauk)[i..]
      {
        batch := batch + [antrianLauk[0]];
        antrianLauk := antrianLauk[1..];
        i := i + 1;
      }
    }

    /** The `for` loop of `proses_angkut` that stamps each tray of the batch
        with the current time and puts it into `antrian_nasi`. */
    method PutBatch(batch: seq<Item>)
      modifies this`antrianNasi
      ensures antrianNasi == old(antrianNasi) + Stamped(batch, env.now)
    {
      var now := env.now;
      var j := 0;
      while j < |batch|
        invariant 0 <= j <= |batch|
        invariant antrianNasi == old(antrianNasi) + Stamped(batch[..j], now)
      {
        var item := batch[j].(selesaiAngkut := Some(now));
        assert Stamped(batch[..j + 1], now) == Stamped(batch[..j], now) + [item];
        antrianNasi := antrianNasi + [item];
        j := j + 1;
      }
      assert batch[..j] == batch;
    }

    /** The top of the `proses_angkut` loop: return, poll, or take a
        batch and set off with it. */
    method AngkutTop()
      requires Sorted(env.events) && env.angkut.AngkutIdle?
      requires petugas.angkut.Valid() && LOOP_HOLDER !in petugas.angkut.users && LOOP_HOLDER !in petugas.angkut.queue
      requires antrianLauk != [] && completed < config.TotalOmpreng() ==>
        env.angkutDrawn < |draws.kapasitas| && env.angkutDrawn < |draws.angkut|
      modifies this
      ensures State() == AngkutLoop(config, draws, old(State()))
    {
      var e := env;
      if completed >= config.TotalOmpreng() {
        env := e.(angkut := AngkutStopped);
      } else if antrianLauk == [] {
        env := e.(events := Schedule(e.events, Event(e.now + POLL, Angkut)));
      } else {
        var k := e.angkutDrawn;
        var batch := TakeBatch(BatchSize(draws.kapasitas[k], |antrianLauk|));
        var req := Request(petugas.angkut, LOOP_HOLDER);
        petugas := petugas.(angkut := req.0);
        env := e.(angkut := AngkutBusy(batch, k), angkutDrawn := k + 1,
                  events := Schedule(e.events, Event(e.now + draws.angkut[k], Angkut)));
      }
    }

    /** The end of a trip: release the server, add the trip time to
        `busy_angkut`, and deliver the batch. */
    method AngkutArrive()
      requires Sorted(env.events) && env.angkut.AngkutBusy? && env.angkut.draw < |draws.angkut|
      requires petugas.angkut.Valid() && LOOP_HOLDER in petugas.angkut.users
      modifies this
      ensures State() == AngkutDeliver(draws, old(State()))
    {
      var e := env;
      var batch, k := e.angkut.batch, e.angkut.draw;
      var rel := Release(petugas.angkut, LOOP_HOLDER);
      petugas := petugas.(angkut := rel.0);
      busy := busy.(angkut := busy.angkut + draws.angkut[k]);
      PutBatch(batch);
      env := e.(angkut := AngkutIdle, events := Schedule(e.events, Event(e.now, Angkut)));
    }

    /** The top of the `proses_nasi` loop: return, poll, or take the oldest
        tray and serve it. */
    method NasiTop()
      requires Sorted(env.events) && env.nasi.NasiIdle?
      requires petugas.nasi.Valid() && LOOP_HOLDER !in petugas.nasi.users && LOOP_HOLDER !in petugas.nasi.queue
      requires completed < config.TotalOmpreng() ==> completed < |draws.nasi|
      modifies this
      ensures State() == NasiLoop(config, draws, old(State()))
    {
      var e := env;
      if completed >= config.TotalOmpreng() {
        env := e.(nasi := NasiStopped);
      } else if antrianNasi == [] {
        env := e.(events := Schedule(e.events, Event(e.now + POLL, Nasi)));
      } else {
        var item := antrianNasi[0];
        antrianNasi := antrianNasi[1..];
        var req := Request(petugas.nasi, LOOP_HOLDER);
        petugas := petugas.(nasi := req.0);
        env := e.(nasi := NasiBusy(item, e.now), events := Schedule(e.events, Event(e.now + draws.nasi[completed], Nasi)));
      }
    }

    /** The end of a nasi service: release the server, add the service time
        to `busy_nasi`, append the tray's row to `data` and count it. */
    method NasiDone()
      requires env.nasi.NasiBusy? && completed < |draws.nasi|
      requires petugas.nasi.Valid() && LOOP_HOLDER in petugas.nasi.users
      modifies this
      ensures State() == NasiRecord(draws, old(State()))
    {
      var e := env;
      var item, mulaiNasi := e.nasi.item, e.nasi.mulaiNasi;
      var rel := Release(petugas.nasi, LOOP_HOLDER);
      petugas := petugas.(nasi := rel.0);
      busy := busy.(nasi := busy.nasi + draws.nasi[completed]);
      data := data + [Row(item, mulaiNasi, e.now)];
      log := log.(trace := log.trace + [item]);
      completed := completed + 1;
      env := e.(nasi := NasiIdle);
    }

    /** `proses_ompreng(o)` resumed where it is suspended. */
    method ProsesOmpreng(o: nat)
      requires Inv(config, draws, State(), Some(Ompreng(o)))
      modifies this
      ensures State() == ResumeOmpreng(config, draws, old(State()), o)
    {
      ghost var s := State();
      RunningTray(config, draws, s, o);
      match env.ompreng[o]
      case Spawned =>
        ArriveKeeps(config, draws, s, o);
        LaukArrive(o);
      case Granted(_) =>
        StartLaukKeeps(config, draws, s, o);
        LaukServe(o);
      case Serving(_, _, _) =>
        FinishLaukKeeps(config, draws, s, o);
        LaukFinish(o);
    }

    /** `proses_angkut` resumed where it is suspended. */
    method ProsesAngkut()
      requires Inv(config, draws, State(), Some(Angkut))
      modifies this
      ensures State() == ResumeAngkut(config, draws, old(State()))
    {
      ghost var s := State();
      match env.angkut
      case AngkutIdle =>
        AngkutLoopKeeps(config, draws, s);
        AngkutTop();
      case AngkutBusy(_, _) =>
        AngkutDeliverKeeps(config, draws, s);
        AngkutArrive();
    }

    /** `proses_nasi` resumed where it is suspended; after a service it
        records the row and runs on to the top of its loop. */
    method ProsesNasi()
      requires Inv(config, draws, State(), Some(Nasi))
      modifies this
      ensures State() == ResumeNasi(config, draws, old(State()))
    {
      ghost var s := State();
      match env.nasi
      case NasiIdle =>
        NasiLoopKeeps(config, draws, s);
        NasiTop();
      case NasiBusy(_, _) =>
        NasiRecordKeeps(config, draws, s);
        NasiDone();
        NasiLoopKeeps(config, draws, NasiRecord(draws, s));
        NasiTop();
    }

    /** The environment takes the earliest pending resumption and moves
        its clock to it. */
    method Advance() returns (who: Pid)
      requires env.events != []
      modifies this
      ensures who == old(env.events[0].who) && State() == Pop(old(State()))
    {
      var ev := env.events[0];
      env := env.(now := ev.time, events := env.events[1..]);
      who := ev.who;
    }

    /** One step of `env.run()`: take the earliest resumption and run its
        process until it next suspends. */
    method Step()
      requires Valid() && env.events != []
      modifies this
      ensures State() == Dispatch(config, draws, old(State())) && Valid()
    {
      ghost var s0 := State();
      PopKeeps(config, draws, s0);
      var who := Advance();
      match who
      case Generator =>
        GenerateKeeps(config, draws, Pop(s0));
        Generate();
      case Ompreng(o) =>
        ProsesOmpreng(o);
      case Angkut =>
        ProsesAngkut();
      case Nasi =>
        ProsesNasi();
    }

    /** `env.run()`, for at most `fuel` resumptions: it returns when no
        resumption is left. */
    method Simulate(fuel: nat) returns (finished: bool)
      requires Valid()
      modifies this
      ensures Valid() && (finished <==> env.events == [])
    {
      var n := fuel;
      while n > 0 && env.events != []
        invariant Valid()
        decreases n
      {
        Step();
        n := n - 1;
      }
      finished := env.events == [];
    }

    /** `run`: start the three processes, let the environment run (for at
        most `fuel` resumptions), and summarise `data`. When no resumption
        is left, every tray has exactly one row, the accumulators are the
        sums of the drawn durations (`Complete`), and the summary counts
        `TOTAL_OMPRENG` rows (failing only when that is zero). */
    method Run(fuel: nat) returns (finished: bool, results: Result<Summary, AnalysisError>)
      requires config.Valid() && draws.Fits(config) && State() == Initial(config)
      modifies this
      ensures Valid()
      ensures finished <==> env.events == []
      ensures results == AnalyzeResults(data)
      ensures finished ==> Complete(config, draws, State())
      ensures finished ==> (results.Success? <==> config.TotalOmpreng() > 0)
      ensures finished && results.Success? ==> results.value.totalOmpreng == config.TotalOmpreng()
    {
      StartEstablishes(config, draws);
      StartProcesses();
      finished := Simulate(fuel);
      if finished {
        AllDone(config, draws, State());
      }
      results := AnalyzeResults(data);
    }
  }
}
