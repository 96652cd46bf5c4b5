/** The simulation's configuration record and the random draws it would
    make, supplied here as explicit streams. */
module Config {

  /** The `Config` dataclass: table layout, staff per stage, service-time
      ranges (seconds) and the transport load range. */
  datatype Config = Config(
    numMeja: nat,
    mahasiswaPerMeja: nat,
    petugasLauk: nat,
    petugasAngkut: nat,
    petugasNasi: nat,
    laukMinTime: real,
    laukMaxTime: real,
    angkutMinTime: real,
    angkutMaxTime: real,
    angkutMinLoad: int,
    angkutMaxLoad: int,
    nasiMinTime: real,
    nasiMaxTime: real)
  {
    /** The `TOTAL_OMPRENG` property: one tray per student per table. */
    function TotalOmpreng(): nat {
      numMeja * mahasiswaPerMeja
    }

    /** What a run needs of its configuration: every stage has at least one
        server (a resource of capacity 0 is refused), no service time is
        negative, and the transport load range is a non-empty range of
        positive integers (the integer draw needs `min <= max`). */
    predicate Valid() {
      && petugasLauk >= 1 && petugasAngkut >= 1 && petugasNasi >= 1
      && laukMinTime >= 0.0 && laukMaxTime >= 0.0
      && angkutMinTime >= 0.0 && angkutMaxTime >= 0.0
      && nasiMinTime >= 0.0 && nasiMaxTime >= 0.0
      && 1 <= angkutMinLoad <= angkutMaxLoad
    }
  }

  /** The dataclass defaults: 60 tables of 3 students, staff 3/2/2, lauk
      30-60 s, angkut 20-60 s carrying 4-7 trays, nasi 30-60 s. */
  function Default(): (c: Config)
    ensures c.Valid()
    ensures c.TotalOmpreng() == 180
    ensures c.petugasLauk == 3 && c.petugasAngkut == 2 && c.petugasNasi == 2
    ensures c.angkutMinLoad == 4 && c.angkutMaxLoad == 7
    ensures c.laukMinTime == 30.0 && c.laukMaxTime == 60.0
    ensures c.angkutMinTime == 20.0 && c.angkutMaxTime == 60.0
    ensures c.nasiMinTime == 30.0 && c.nasiMaxTime == 60.0
  {
    Config(60, 3, 3, 2, 2, 30.0, 60.0, 20.0, 60.0, 4, 7, 30.0, 60.0)
  }

  /** A uniform real draw between `a` and `b` lies between the two bounds,
      in whichever order they are given. */
  predicate Between(a: real, b: real, x: real) {
    if a <= b then a <= x <= b else b <= x <= a
  }

  /** The random draws of one run, in the order each kind is drawn:
      one lauk duration per tray, one load and one angkut duration per
      transport trip, one nasi duration per tray. */
  datatype Draws = Draws(lauk: seq<real>, kapasitas: seq<int>, angkut: seq<real>, nasi: seq<real>)
  {
    /** Every draw lies in its configured range, and each stream is long
        enough for a run of `c.TotalOmpreng()` trays (a trip carries at
        least one tray, so there are at most that many trips). */
    predicate Fits(c: Config) {
      && |lauk| >= c.TotalOmpreng() && |kapasitas| >= c.TotalOmpreng()
      && |angkut| >= c.TotalOmpreng() && |nasi| >= c.TotalOmpreng()
      && (forall i :: 0 <= i < |lauk| ==> Between(c.laukMinTime, c.laukMaxTime, lauk[i]))
      && (forall i :: 0 <= i < |kapasitas| ==> c.angkutMinLoad <= kapasitas[i] <= c.angkutMaxLoad)
      && (forall i :: 0 <= i < |angkut| ==> Between(c.angkutMinTime, c.angkutMaxTime, angkut[i]))
      && (forall i :: 0 <= i < |nasi| ==> Between(c.nasiMinTime, c.nasiMaxTime, nasi[i]))
    }
  }

  /** Under a valid configuration every drawn duration is non-negative and
      every drawn load is at least one tray and at most `ANGKUT_MAX_LOAD`. */
  lemma DrawsInRange(c: Config, d: Draws, i: nat)
    requires c.Valid() && d.Fits(c)
    ensures i < |d.lauk| ==> 0.0 <= d.lauk[i]
    ensures i < |d.angkut| ==> 0.0 <= d.angkut[i]
    ensures i < |d.nasi| ==> 0.0 <= d.nasi[i]
    ensures i < |d.kapasitas| ==> 1 <= d.kapasitas[i] <= c.angkutMaxLoad
  {
    if i < |d.lauk| {
      assert Between(c.laukMinTime, c.laukMaxTime, d.lauk[i]);
    }
    if i < |d.angkut| {
      assert Between(c.angkutMinTime, c.angkutMaxTime, d.angkut[i]);
    }
    if i < |d.nasi| {
      assert Between(c.nasiMinTime, c.nasiMaxTime, d.nasi[i]);
    }
  }
}
