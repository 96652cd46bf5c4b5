/** The records that travel through the pipeline: the tray dictionary put
    into `antrian_lauk` (later stamped with `selesai_angkut`) and the result
    row appended to `data`. */
module Ompreng {
  import opened Wrappers

  /** A tray in transit. `selesaiAngkut` is absent until the transport loop
      stamps the tray, as the dictionary key is absent until then. */
  datatype Item = Item(id: nat, datang: real, mulaiLauk: real, selesaiLauk: real, selesaiAngkut: Option<real>)
  {
    /** Stamped by the lauk stage only, no later than `now`. */
    predicate LaukDone(now: real) {
      datang <= mulaiLauk <= selesaiLauk <= now && selesaiAngkut.None?
    }

    /** Stamped by the lauk and transport stages, in order, no later than `t`. */
    predicate Transported(t: real) {
      datang <= mulaiLauk <= selesaiLauk
      && selesaiAngkut.Some? && selesaiLauk <= selesaiAngkut.value <= t
    }
  }

  /** One row of `data`. `jam_selesai` (the wall-clock rendering of
      `selesai_nasi`) is not part of this model. */
  datatype Record = Record(id: nat, mulaiLauk: real, selesaiLauk: real, mulaiNasi: real, selesaiNasi: real, totalWaktu: real)
  {
    /** This row is the completion of tray `it`: it copies the tray's lauk
        stamps, its nasi service started after the tray was transported and
        did not end before it started, and `totalWaktu` is the time from the
        tray's arrival to the end of its nasi service. */
    predicate Completes(it: Item) {
      && id == it.id && mulaiLauk == it.mulaiLauk && selesaiLauk == it.selesaiLauk
      && it.Transported(mulaiNasi) && mulaiNasi <= selesaiNasi
      && totalWaktu == selesaiNasi - it.datang
    }
  }

  /** The ids of a list of trays, in order. */
  function ItemIds(q: seq<Item>): (ids: seq<nat>)
    ensures |ids| == |q|
    ensures forall i :: 0 <= i < |q| ==> ids[i] == q[i].id
  {
    seq(|q|, i requires 0 <= i < |q| => q[i].id)
  }

  /** Taking ids commutes with concatenation. */
  lemma ItemIdsConcat(a: seq<Item>, b: seq<Item>)
    ensures ItemIds(a + b) == ItemIds(a) + ItemIds(b)
  {
  }

  /** The ids of the rows of `data`, in order: the projection `ItemIds`
      takes of trays, taken of result rows, which are a different type. */
  function RecordIds(rs: seq<Record>): (ids: seq<nat>)
    ensures |ids| == |rs|
    ensures forall i :: 0 <= i < |rs| ==> ids[i] == rs[i].id
  {
    seq(|rs|, i requires 0 <= i < |rs| => rs[i].id)
  }

  /** Rows in the order their nasi services ended. */
  predicate Chronological(rs: seq<Record>) {
    |rs| <= 1 || (rs[|rs| - 2].selesaiNasi <= rs[|rs| - 1].selesaiNasi && Chronological(rs[..|rs| - 1]))
  }

  /** Appending a row that ends no earlier than every row already there
      keeps the rows chronological. */
  lemma ChronologicalAppend(rs: seq<Record>, r: Record)
    requires Chronological(rs)
    requires forall i :: 0 <= i < |rs| ==> rs[i].selesaiNasi <= r.selesaiNasi
    ensures Chronological(rs + [r])
  {
    assert (rs + [r])[..|rs|] == rs;
  }

  /** In chronological rows, an earlier row ends no later than a later one. */
  lemma {:induction false} ChronologicalOrdered(rs: seq<Record>, i: nat, j: nat)
    requires Chronological(rs) && i <= j < |rs|
    ensures rs[i].selesaiNasi <= rs[j].selesaiNasi
  {
    if j == |rs| - 1 && i < j {
      ChronologicalOrdered(rs[..|rs| - 1], i, j - 1);
    } else if j < |rs| - 1 {
      ChronologicalOrdered(rs[..|rs| - 1], i, j);
    }
  }

  /** A completed row satisfies the stage order of its tray:
      datang <= mulai_lauk <= selesai_lauk <= selesai_angkut <= mulai_nasi
      <= selesai_nasi, and its total time is non-negative and at least the
      time from the start of its lauk service to the end of its nasi one. */
  lemma CompletedRowOrdered(r: Record, it: Item)
    requires r.Completes(it)
    ensures it.datang <= r.mulaiLauk <= r.selesaiLauk <= it.selesaiAngkut.value <= r.mulaiNasi <= r.selesaiNasi
    ensures 0.0 <= r.selesaiNasi - r.mulaiLauk <= r.totalWaktu
  {
  }
}
