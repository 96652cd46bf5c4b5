/** What holds of every state of a run, and what holds once the
    environment has no resumption left, which is when `env.run()` returns
    to `run`. */
module Outcome {
  import opened Wrappers
  import opened Seqs
  import opened Config
  import opened Resource
  import opened Scheduler
  import opened Ompreng
  import opened Pipeline
  import opened LaukStage

  /** The number of trays holding a lauk server. */
  function HoldingCount(ph: seq<OmprengPhase>): nat {
    if ph == [] then 0
    else HoldingCount(ph[..|ph| - 1]) + (if ph[|ph| - 1].Holding() then 1 else 0)
  }

  /** A list naming each holding tray once has `HoldingCount` entries. */
  lemma {:induction false} HoldersCounted(ph: seq<OmprengPhase>, u: seq<nat>)
    requires Distinct(u)
    requires forall x: nat :: x in u <==> x < |ph| && ph[x].Holding()
    ensures |u| == HoldingCount(ph)
  {
    if ph != [] {
      var n := |ph| - 1;
      var pre := ph[..n];
      if ph[n].Holding() {
        assert n in u;
        var u' := Without(u, n);
        forall x: nat ensures x in u' <==> x < |pre| && pre[x].Holding() {
          if x < n {
            assert pre[x] == ph[x];
          }
        }
        HoldersCounted(pre, u');
        assert HoldingCount(ph) == HoldingCount(pre) + 1;
        assert |u'| == |u| - 1;
      } else {
        forall x: nat ensures x in u <==> x < |pre| && pre[x].Holding() {
          if x < n {
            assert pre[x] == ph[x];
          }
        }
        HoldersCounted(pre, u);
      }
    } else {
      assert forall i :: 0 <= i < |u| ==> u[i] in u;
    }
  }

  /** At every moment no more trays are being served lauk than there are
      lauk servers, and a tray only waits while every server is taken. */
  lemma LaukServersBound(c: Config, s: Sim)
    requires PoolsOk(c, s)
    ensures HoldingCount(s.ompreng) <= c.petugasLauk
    ensures (exists o :: 0 <= o < |s.ompreng| && s.ompreng[o].Waiting?) ==> HoldingCount(s.ompreng) == c.petugasLauk
  {
    HoldersCounted(s.ompreng, s.petugasLauk.users);
    if exists o :: 0 <= o < |s.ompreng| && s.ompreng[o].Waiting? {
      var o :| 0 <= o < |s.ompreng| && s.ompreng[o].Waiting?;
      assert o in s.petugasLauk.queue;
    }
  }

  /** At every moment at most one transport and at most one finish
      service is under way: each loop is a single process that holds its
      pool's server only during its own service. */
  lemma OneServicePerLoop(c: Config, s: Sim)
    requires PoolsOk(c, s)
    ensures |s.petugasAngkut.users| <= 1 && |s.petugasNasi.users| <= 1
    ensures |s.petugasAngkut.users| == 1 <==> s.angkut.AngkutBusy?
    ensures |s.petugasNasi.users| == 1 <==> s.nasi.NasiBusy?
  {
  }

  /** At every moment the rows of `data` belong to the trays that entered
      `antrian_lauk` first, in the order they entered: both stores and both
      loops are first-in-first-out. */
  lemma DataInPutOrder(s: Sim)
    requires FlowOk(s) && StampsOk(s)
    ensures |s.data| <= |s.putLog| && RecordIds(s.data) == s.putLog[..|s.data|]
  {
    var rest := s.NasiHeld() + s.antrianNasi + s.AngkutHeld() + s.antrianLauk;
    assert s.Trays() == s.trace + rest;
    ItemIdsConcat(s.trace, rest);
    forall i | 0 <= i < |s.data| ensures RecordIds(s.data)[i] == s.putLog[i] {
      assert s.data[i].Completes(s.trace[i]);
    }
  }

  /** With nothing pending, every process has returned and no tray waits
      for or holds a lauk server. */
  lemma NothingPending(s: Sim)
    requires ClockOk(s, None) && s.events == []
    ensures !s.generating && s.angkut.AngkutStopped? && s.nasi.NasiStopped?
    ensures forall o :: 0 <= o < |s.ompreng| ==> !s.ompreng[o].Live()
  {
    assert Pending(s.events, Generator) == 0;
    assert Pending(s.events, Angkut) == 0;
    assert Pending(s.events, Nasi) == 0;
    forall o | 0 <= o < |s.ompreng| ensures !s.ompreng[o].Live() {
      assert Pending(s.events, Ompreng(o)) == 0;
    }
  }

  /** Once both loops have returned, every row is recorded and both
      stores are empty. */
  lemma LoopsReturned(c: Config, d: Draws, s: Sim)
    requires ProcessesOk(c, s) && FlowOk(s) && StampsOk(s) && CountersOk(c, d, s)
    requires !s.generating && s.angkut.AngkutStopped? && s.nasi.NasiStopped?
    ensures |s.ompreng| == c.TotalOmpreng() && s.completed == c.TotalOmpreng() == |s.data|
    ensures |s.putLog| == c.TotalOmpreng() && s.antrianLauk == [] && s.antrianNasi == []
    ensures s.Trays() == s.trace && s.AngkutTrips() == s.angkutDrawn
  {
    TraysBound(c, s);
    assert s.Trays() == s.trace + (s.NasiHeld() + s.antrianNasi + s.AngkutHeld() + s.antrianLauk);
  }

  /** When as many distinct trays as were started have entered
      `antrian_lauk`, all of them have. */
  lemma AllPut(c: Config, s: Sim)
    requires FlowOk(s) && |s.ompreng| == c.TotalOmpreng() == |s.putLog|
    ensures forall o :: 0 <= o < c.TotalOmpreng() ==> o in s.putLog && s.ompreng[o].Finished?
  {
    forall i | 0 <= i < |s.putLog| ensures s.putLog[i] < c.TotalOmpreng() {
      assert s.putLog[i] in s.putLog;
    }
    forall o | 0 <= o < c.TotalOmpreng() ensures o in s.putLog && s.ompreng[o].Finished? {
      if o !in s.putLog {
        DistinctBelowMissing(s.putLog, c.TotalOmpreng(), o);
      }
      assert IsFinished(s.ompreng, o);
    }
  }

  /** With every tray finished, each drew exactly one lauk duration. */
  lemma AllLaukOrdered(s: Sim)
    requires Distinct(s.laukOrder)
    requires forall j :: 0 <= j < |s.laukOrder| ==> s.laukOrder[j] < |s.ompreng|
    requires forall o :: 0 <= o < |s.ompreng| ==> o in s.laukOrder
    ensures |s.laukOrder| == |s.ompreng|
  {
    forall o: nat | o < |s.ompreng| ensures o in s.laukOrder {}
    DistinctBelow(s.laukOrder, |s.ompreng|);
  }

  /** With every tray finished, each drew one lauk duration, so `busy_lauk`
      is the sum of the first `TOTAL_OMPRENG` lauk draws. */
  lemma AllLaukDrawn(c: Config, d: Draws, s: Sim)
    requires d.Fits(c) && LaukDrawsOk(d, s)
    requires |s.ompreng| == c.TotalOmpreng()
    requires forall o :: 0 <= o < c.TotalOmpreng() ==> s.ompreng[o].Finished?
    ensures s.laukDrawn == c.TotalOmpreng()
    ensures s.busyLauk == Sum(d.lauk[..c.TotalOmpreng()])
  {
    AllLaukOrdered(s);
    forall j | 0 <= j < |s.laukOrder| ensures IsFinished(s.ompreng, s.laukOrder[j]) {}
    DoneSumAll(d.lauk, s.laukOrder, s.ompreng);
  }

  /** What a run has produced when `env.run()` returns: every tray
      `0 .. TOTAL_OMPRENG - 1` has exactly one row, the rows are in the
      order the trays entered `antrian_lauk` and in the order their
      services ended, every row's total time covers its lauk-to-nasi span,
      and each busy accumulator is the sum of the durations drawn for its
      stage. */
  ghost predicate Complete(c: Config, d: Draws, s: Sim) {
    && s.completed == c.TotalOmpreng() == |s.data|
    && s.antrianLauk == [] && s.antrianNasi == []
    && RecordIds(s.data) == s.putLog && Distinct(RecordIds(s.data))
    && (forall o :: o in RecordIds(s.data) <==> 0 <= o < c.TotalOmpreng())
    && Chronological(s.data)
    && (forall i :: 0 <= i < |s.data| ==>
          0.0 <= s.data[i].selesaiNasi - s.data[i].mulaiLauk <= s.data[i].totalWaktu)
    && c.TotalOmpreng() <= |d.lauk| && s.busyLauk == Sum(d.lauk[..c.TotalOmpreng()])
    && c.TotalOmpreng() <= |d.nasi| && s.busyNasi == Sum(d.nasi[..c.TotalOmpreng()])
    && s.angkutDrawn <= c.TotalOmpreng() && s.angkutDrawn <= |d.angkut|
    && s.busyAngkut == Sum(d.angkut[..s.angkutDrawn])
  }

  /** Once no resumption is pending the run is complete. */
  lemma AllDone(c: Config, d: Draws, s: Sim)
    requires Inv(c, d, s, None) && s.events == []
    ensures Complete(c, d, s)
  {
    NothingPending(s);
    LoopsReturned(c, d, s);
    AllPut(c, s);
    AllLaukDrawn(c, d, s);
    DataInPutOrder(s);
    forall o ensures o in RecordIds(s.data) <==> 0 <= o < c.TotalOmpreng() {
      if o in s.putLog {
        assert IsFinished(s.ompreng, o);
      }
    }
    forall i | 0 <= i < |s.data| ensures 0.0 <= s.data[i].selesaiNasi - s.data[i].mulaiLauk <= s.data[i].totalWaktu {
      CompletedRowOrdered(s.data[i], s.trace[i]);
    }
  }
}
