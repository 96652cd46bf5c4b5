/** The state of one run of `PiketOmprengDES`: the simulation clock and its
    pending resumptions, the three server pools, the two stores, the result
    list and counters, and where each process of the run is. */
module Pipeline {
  import opened Wrappers
  import opened Seqs
  import opened Config
  import opened Resource
  import opened Scheduler
  import opened Ompreng

  /** How long an idle consumer loop waits before it looks at its store
      again. */
  const POLL: real := 0.5

  /** The number under which the single transport loop and the single
      finish loop hold a server of their pool. */
  const LOOP_HOLDER: nat := 0

  /** Where `proses_ompreng(oid)` is. */
  datatype OmprengPhase =
    | Spawned                                           // started by `generate`, not yet run
    | Waiting(datang: real)                             // queued for a lauk server
    | Granted(datang: real)                             // holds a server, not yet resumed
    | Serving(datang: real, mulaiLauk: real, draw: nat) // lauk service under way, lasting lauk[draw]
    | Finished                                          // tray put into `antrian_lauk`
  {
    predicate Holding() { Granted? || Serving? }
    /** The process has a resumption pending (or is the one running). */
    predicate Live() { Spawned? || Granted? || Serving? }
  }

  /** Where `proses_angkut` is: at the top of its loop, carrying a batch
      (the trip lasting angkut[draw]), or returned. */
  datatype AngkutPhase = AngkutIdle | AngkutBusy(batch: seq<Item>, draw: nat) | AngkutStopped

  /** Where `proses_nasi` is: at the top of its loop, serving one tray, or
      returned. The duration of a service is nasi[completed]. */
  datatype NasiPhase = NasiIdle | NasiBusy(item: Item, mulaiNasi: real) | NasiStopped

  /** Timestamps a waiting or served tray already carries are in the past. */
  predicate PhaseOk(ph: OmprengPhase, now: real) {
    match ph
    case Waiting(d) => d <= now
    case Granted(d) => d <= now
    case Serving(d, m, _) => d <= m <= now
    case _ => true
  }

  /** One run. `laukOrder`, `putLog` and `trace` are bookkeeping that the
      program does not keep: the trays in the order they drew a lauk
      duration, the tray ids in the order they entered `antrian_lauk`, and
      the trays whose rows are in `data`, as the finish loop took them. */
  datatype Sim = Sim(
    now: real,
    events: seq<Event>,
    petugasLauk: Resource,
    petugasAngkut: Resource,
    petugasNasi: Resource,
    antrianLauk: seq<Item>,
    antrianNasi: seq<Item>,
    data: seq<Record>,
    completed: nat,
    busyLauk: real,
    busyAngkut: real,
    busyNasi: real,
    generating: bool,
    genNext: nat,
    ompreng: seq<OmprengPhase>,
    angkut: AngkutPhase,
    nasi: NasiPhase,
    laukDrawn: nat,
    angkutDrawn: nat,
    laukOrder: seq<nat>,
    putLog: seq<nat>,
    trace: seq<Item>)
  {
    /** Whether process `p` is alive and not waiting in a pool's queue. */
    predicate Active(p: Pid) {
      match p
      case Generator => generating
      case Ompreng(o) => o < |ompreng| && ompreng[o].Live()
      case Angkut => !angkut.AngkutStopped?
      case Nasi => !nasi.NasiStopped?
    }

    function NasiHeld(): seq<Item> {
      if nasi.NasiBusy? then [nasi.item] else []
    }

    function AngkutHeld(): seq<Item> {
      if angkut.AngkutBusy? then angkut.batch else []
    }

    /** Every tray put into `antrian_lauk`, from the most advanced to the
        least: finished, being finished, queued for nasi, in transport,
        queued for transport. */
    function Trays(): seq<Item> {
      trace + NasiHeld() + antrianNasi + AngkutHeld() + antrianLauk
    }

    /** The transport trips that are over. */
    function AngkutTrips(): int {
      if angkut.AngkutBusy? then angkutDrawn - 1 else angkutDrawn
    }
  }

  /** The state `__init__` leaves: idle pools of the configured sizes,
      empty stores, zero counters, no process started. */
  function Initial(c: Config): (s: Sim)
    ensures s.now == 0.0 && s.events == [] && s.data == [] && s.completed == 0
    ensures s.busyLauk == 0.0 && s.busyAngkut == 0.0 && s.busyNasi == 0.0
    ensures s.antrianLauk == [] && s.antrianNasi == []
    ensures s.petugasLauk.capacity == c.petugasLauk && s.petugasLauk.users == [] && s.petugasLauk.queue == []
    ensures s.petugasAngkut.capacity == c.petugasAngkut && s.petugasAngkut.users == [] && s.petugasAngkut.queue == []
    ensures s.petugasNasi.capacity == c.petugasNasi && s.petugasNasi.users == [] && s.petugasNasi.queue == []
    ensures !s.generating && s.ompreng == []
  {
    Sim(0.0, [], Create(c.petugasLauk), Create(c.petugasAngkut), Create(c.petugasNasi),
        [], [], [], 0, 0.0, 0.0, 0.0,
        false, 0, [], AngkutIdle, NasiIdle, 0, 0, [], [], [])
  }

  /** The number of trays in a transport batch: `min(kapasitas, available)`,
      the largest count that exceeds neither the drawn load nor the trays
      queued (and none when the load is not positive). */
  function BatchSize(kapasitas: int, available: nat): (m: nat)
    ensures m <= available
    ensures kapasitas >= 0 ==> m <= kapasitas
    ensures kapasitas >= available ==> m == available
    ensures 0 <= kapasitas <= available ==> m == kapasitas
    ensures kapasitas >= 1 && available >= 1 ==> m >= 1
  {
    if kapasitas <= 0 then 0
    else if kapasitas < available then kapasitas
    else available
  }

  /** A batch with every tray stamped with the same `selesai_angkut`. */
  function Stamped(batch: seq<Item>, t: real): (r: seq<Item>)
    ensures |r| == |batch|
    ensures forall i :: 0 <= i < |batch| ==> r[i] == batch[i].(selesaiAngkut := Some(t))
    ensures ItemIds(r) == ItemIds(batch)
  {
    seq(|batch|, i requires 0 <= i < |batch| => batch[i].(selesaiAngkut := Some(t)))
  }

  /** Whether tray `o` has been put into `antrian_lauk`. */
  predicate IsFinished(phases: seq<OmprengPhase>, o: nat) {
    o < |phases| && phases[o].Finished?
  }

  /** The lauk durations, indexed by draw, of the trays in `order` (the order
      in which trays drew them) whose lauk service is over. */
  function DoneSum(lauk: seq<real>, order: seq<nat>, phases: seq<OmprengPhase>): real {
    if order == [] then 0.0
    else
      var k := |order| - 1;
      DoneSum(lauk, order[..k], phases)
        + (if IsFinished(phases, order[k]) && k < |lauk| then lauk[k] else 0.0)
  }

  /** `DoneSum` only depends on which trays of `order` are finished. */
  lemma {:induction false} DoneSumFrame(lauk: seq<real>, order: seq<nat>, ph: seq<OmprengPhase>, ph': seq<OmprengPhase>)
    requires forall j :: 0 <= j < |order| ==> IsFinished(ph, order[j]) == IsFinished(ph', order[j])
    ensures DoneSum(lauk, order, ph) == DoneSum(lauk, order, ph')
  {
    if order != [] {
      var k := |order| - 1;
      assert forall j :: 0 <= j < k ==> order[..k][j] == order[j];
      DoneSumFrame(lauk, order[..k], ph, ph');
    }
  }

  /** A tray that starts its lauk service adds nothing yet. */
  lemma DoneSumStart(lauk: seq<real>, order: seq<nat>, ph: seq<OmprengPhase>, o: nat)
    requires !IsFinished(ph, o)
    ensures DoneSum(lauk, order + [o], ph) == DoneSum(lauk, order, ph)
  {
    assert (order + [o])[..|order|] == order;
  }

  /** A tray that ends its lauk service adds exactly the duration it drew. */
  lemma {:induction false} DoneSumFinish(lauk: seq<real>, order: seq<nat>, ph: seq<OmprengPhase>, o: nat, k: nat)
    requires Distinct(order) && k < |order| && order[k] == o && k < |lauk|
    requires o < |ph| && !ph[o].Finished?
    ensures DoneSum(lauk, order, ph[o := Finished]) == DoneSum(lauk, order, ph) + lauk[k]
  {
    var ph' := ph[o := Finished];
    var n := |order| - 1;
    var pre := order[..n];
    assert forall j :: 0 <= j < n ==> pre[j] == order[j];
    assert order == pre + [order[n]];
    DistinctAppend(pre, order[n]);
    if k == n {
      forall j | 0 <= j < n
        ensures IsFinished(ph, pre[j]) == IsFinished(ph', pre[j])
      {
        assert pre[j] in pre;
      }
      DoneSumFrame(lauk, pre, ph, ph');
    } else {
      DoneSumFinish(lauk, pre, ph, o, k);
      assert pre[k] in pre;
    }
  }

  /** When every tray of `order` is finished, `DoneSum` is the sum of the
      first `|order|` lauk draws. */
  lemma {:induction false} DoneSumAll(lauk: seq<real>, order: seq<nat>, ph: seq<OmprengPhase>)
    requires |order| <= |lauk|
    requires forall j :: 0 <= j < |order| ==> IsFinished(ph, order[j])
    ensures DoneSum(lauk, order, ph) == Sum(lauk[..|order|])
  {
    if order != [] {
      var k := |order| - 1;
      assert forall j :: 0 <= j < k ==> order[..k][j] == order[j];
      DoneSumAll(lauk, order[..k], ph);
      SumPrefixStep(lauk, k);
    }
  }

  // ---------- the invariant of a run ----------

  /** The clock never runs ahead of a pending resumption, and every active
      process has exactly one resumption pending, except the one running. */
  ghost predicate ClockOk(s: Sim, running: Option<Pid>) {
    && Sorted(s.events)
    && NotBefore(s.events, s.now)
    && (forall p :: Pending(s.events, p) == if s.Active(p) && running != Some(p) then 1 else 0)
    && (running.Some? ==> s.Active(running.value))
  }

  /** `generate` has started the trays `0 .. genNext - 1`, all of them once
      it has returned. */
  predicate ProcessesOk(c: Config, s: Sim) {
    && s.genNext <= c.TotalOmpreng() && |s.ompreng| == s.genNext
    && (!s.generating ==> s.genNext == c.TotalOmpreng())
    && (forall o :: 0 <= o < |s.ompreng| ==> PhaseOk(s.ompreng[o], s.now))
  }

  /** The lauk pool's holders and waiters are exactly the trays holding
      and waiting; the transport and finish pools are held only while
      their loop is in service. */
  ghost predicate PoolsOk(c: Config, s: Sim) {
    && s.petugasLauk.Valid() && s.petugasLauk.capacity == c.petugasLauk
    && (forall o: nat :: o in s.petugasLauk.users <==> o < |s.ompreng| && s.ompreng[o].Holding())
    && (forall o: nat :: o in s.petugasLauk.queue <==> o < |s.ompreng| && s.ompreng[o].Waiting?)
    && s.petugasAngkut.Valid() && s.petugasAngkut.capacity == c.petugasAngkut
    && s.petugasAngkut.queue == []
    && s.petugasAngkut.users == (if s.angkut.AngkutBusy? then [LOOP_HOLDER] else [])
    && s.petugasNasi.Valid() && s.petugasNasi.capacity == c.petugasNasi
    && s.petugasNasi.queue == []
    && s.petugasNasi.users == (if s.nasi.NasiBusy? then [LOOP_HOLDER] else [])
  }

  /** Every lauk draw belongs to one tray in service or finished, and
      `busy_lauk` is the sum of the draws of the finished ones. */
  ghost predicate LaukDrawsOk(d: Draws, s: Sim) {
    && |s.laukOrder| == s.laukDrawn && Distinct(s.laukOrder)
    && (forall j :: 0 <= j < |s.laukOrder| ==>
          s.laukOrder[j] < |s.ompreng| && (s.ompreng[s.laukOrder[j]].Serving? || s.ompreng[s.laukOrder[j]].Finished?))
    && (forall o :: 0 <= o < |s.ompreng| && s.ompreng[o].Serving? ==>
          s.ompreng[o].draw < |s.laukOrder| && s.laukOrder[s.ompreng[o].draw] == o)
    && (forall o :: 0 <= o < |s.ompreng| && s.ompreng[o].Finished? ==> o in s.laukOrder)
    && s.busyLauk == DoneSum(d.lauk, s.laukOrder, s.ompreng)
  }

  /** Trays move through both stores in the order they entered
      `antrian_lauk`, none is lost or duplicated, and the trays that
      entered are exactly those whose lauk process finished. */
  ghost predicate FlowOk(s: Sim) {
    && ItemIds(s.Trays()) == s.putLog
    && Distinct(s.putLog)
    && (forall o :: o in s.putLog <==> IsFinished(s.ompreng, o))
  }

  /** Every tray's timestamps follow the stage order and lie in the past;
      the rows of `data` complete the trays of `trace`, in the order their
      services ended. */
  predicate StampsOk(s: Sim) {
    && (forall it :: it in s.antrianLauk ==> it.LaukDone(s.now))
    && (s.angkut.AngkutBusy? ==> forall it :: it in s.angkut.batch ==> it.LaukDone(s.now))
    && (forall it :: it in s.antrianNasi ==> it.Transported(s.now))
    && (s.nasi.NasiBusy? ==> s.nasi.item.Transported(s.nasi.mulaiNasi) && s.nasi.mulaiNasi <= s.now)
    && |s.trace| == |s.data|
    && (forall i :: 0 <= i < |s.data| ==> s.data[i].Completes(s.trace[i]) && s.data[i].selesaiNasi <= s.now)
    && Chronological(s.data)
  }

  /** `completed` counts the rows of `data` and never passes the total; a
      loop only returns once the total is reached; no more trips are made
      than trays taken; each busy accumulator is the sum of the durations
      of the services that are over. */
  ghost predicate CountersOk(c: Config, d: Draws, s: Sim) {
    && s.completed == |s.data| && s.completed <= c.TotalOmpreng()
    && (s.nasi.NasiBusy? ==> s.completed < c.TotalOmpreng())
    && (s.angkut.AngkutStopped? ==> s.completed >= c.TotalOmpreng())
    && (s.nasi.NasiStopped? ==> s.completed >= c.TotalOmpreng())
    && (s.angkut.AngkutBusy? ==>
          1 <= |s.angkut.batch| <= c.angkutMaxLoad && s.angkut.draw + 1 == s.angkutDrawn)
    && 0 <= s.AngkutTrips()
    && s.angkutDrawn <= |s.trace| + |s.NasiHeld()| + |s.antrianNasi| + |s.AngkutHeld()|
    && s.AngkutTrips() <= |d.angkut| && s.busyAngkut == Sum(d.angkut[..s.AngkutTrips()])
    && |s.data| <= |d.nasi| && s.busyNasi == Sum(d.nasi[..|s.data|])
  }

  /** The invariant of a run while process `running` (if any) executes. */
  ghost predicate Inv(c: Config, d: Draws, s: Sim, running: Option<Pid>) {
    && c.Valid() && d.Fits(c)
    && ClockOk(s, running) && ProcessesOk(c, s) && PoolsOk(c, s)
    && LaukDrawsOk(d, s) && FlowOk(s) && StampsOk(s) && CountersOk(c, d, s)
  }

  /** The fields the tray stamps and the counters depend on are equal. */
  predicate SameOutputs(s: Sim, r: Sim) {
    && r.now == s.now && r.antrianLauk == s.antrianLauk && r.antrianNasi == s.antrianNasi
    && r.angkut == s.angkut && r.nasi == s.nasi && r.data == s.data && r.trace == s.trace
    && r.completed == s.completed && r.busyAngkut == s.busyAngkut && r.busyNasi == s.busyNasi
    && r.angkutDrawn == s.angkutDrawn
  }

  /** A step that leaves the stores, the loops and the results alone keeps
      the stamps and counters part of the invariant. */
  lemma OutputsFrame(c: Config, d: Draws, s: Sim, r: Sim)
    requires StampsOk(s) && CountersOk(c, d, s) && SameOutputs(s, r)
    ensures StampsOk(r) && CountersOk(c, d, r)
  {
    assert r.Trays() == s.Trays() && r.AngkutTrips() == s.AngkutTrips();
  }

  /** Only trays `generate` started have entered `antrian_lauk`, each once,
      so the trays in the pipeline never outnumber `TOTAL_OMPRENG`. */
  lemma TraysBound(c: Config, s: Sim)
    requires ProcessesOk(c, s) && FlowOk(s)
    ensures |s.Trays()| == |s.putLog| <= |s.ompreng| <= c.TotalOmpreng()
  {
    forall i | 0 <= i < |s.putLog| ensures s.putLog[i] < |s.ompreng| {
      assert s.putLog[i] in s.putLog;
    }
    DistinctBelow(s.putLog, |s.ompreng|);
  }

  /** A step that moves trays between stages without reordering them, and
      finishes no tray, keeps the flow part of the invariant. */
  lemma FlowSameTrays(s: Sim, r: Sim)
    requires FlowOk(s) && ItemIds(r.Trays()) == ItemIds(s.Trays())
    requires r.putLog == s.putLog && r.ompreng == s.ompreng
    ensures FlowOk(r)
  {
  }
}
