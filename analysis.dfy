/** `analyze_results`: the run summary computed from the rows of `data`
    (the data frame's `total_waktu` column). */
module Analysis {
  import opened Wrappers
  import opened Seqs
  import opened Ompreng

  datatype Summary = Summary(durasiTotalDetik: real, avgTotalTime: real, totalOmpreng: nat)

  /** An empty `data` list gives a frame without columns, so selecting
      `total_waktu` fails. */
  datatype AnalysisError = MissingColumn(name: string)

  /** The `total_waktu` column, in row order. */
  function TotalWaktu(data: seq<Record>): (col: seq<real>)
    ensures |col| == |data|
    ensures forall i :: 0 <= i < |data| ==> col[i] == data[i].totalWaktu
  {
    seq(|data|, i requires 0 <= i < |data| => data[i].totalWaktu)
  }

  /** The largest value of a non-empty column. */
  function Max(s: seq<real>): (m: real)
    requires s != []
    ensures m in s
    ensures forall i :: 0 <= i < |s| ==> s[i] <= m
  {
    if |s| == 1 then s[0]
    else
      var m := Max(s[..|s| - 1]);
      assert forall i :: 0 <= i < |s| - 1 ==> s[i] == s[..|s| - 1][i];
      if m < s[|s| - 1] then s[|s| - 1] else m
  }

  /** `analyze_results`: the longest total time, the mean total time and
      the number of rows; a failure exactly when there are no rows. */
  function AnalyzeResults(data: seq<Record>): (r: Result<Summary, AnalysisError>)
    ensures r.Failure? <==> data == []
    ensures r.Failure? ==> r.error == MissingColumn("total_waktu")
    ensures r.Success? ==> r.value.totalOmpreng == |data|
    ensures r.Success? ==> forall i :: 0 <= i < |data| ==> data[i].totalWaktu <= r.value.durasiTotalDetik
    ensures r.Success? ==> r.value.durasiTotalDetik in TotalWaktu(data)
    ensures r.Success? ==> r.value.avgTotalTime * (|data| as real) == Sum(TotalWaktu(data))
  {
    if data == [] then Failure(MissingColumn("total_waktu"))
    else
      var col := TotalWaktu(data);
      var m := Max(col);
      Success(Summary(m, Sum(col) / (|data| as real), |data|))
  }

  /** A sum of values none of which exceeds `m` is at most `|s| * m`. */
  lemma {:induction false} SumAtMost(s: seq<real>, m: real)
    requires forall i :: 0 <= i < |s| ==> s[i] <= m
    ensures Sum(s) <= (|s| as real) * m
  {
    if s != [] {
      SumAtMost(s[..|s| - 1], m);
    }
  }

  /** A positive factor can be cancelled from both sides of `<=`. */
  lemma CancelPositive(a: real, b: real, n: real)
    requires n > 0.0 && a * n <= b * n
    ensures a <= b
  {
    assert (b - a) * n == b * n - a * n;
  }

  /** A mean of values none of which exceeds `m` does not exceed `m`, and
      a mean of non-negative values is non-negative. */
  lemma MeanBounds(col: seq<real>, avg: real, m: real)
    requires col != [] && avg * (|col| as real) == Sum(col)
    requires forall i :: 0 <= i < |col| ==> col[i] <= m
    ensures avg <= m
    ensures (forall i :: 0 <= i < |col| ==> 0.0 <= col[i]) ==> 0.0 <= avg
  {
    var n := |col| as real;
    SumAtMost(col, m);
    CancelPositive(avg, m, n);
    if forall i :: 0 <= i < |col| ==> 0.0 <= col[i] {
      SumNonNegative(col);
      CancelPositive(0.0, avg, n);
    }
  }

  /** The mean total time never exceeds the longest one, and neither is
      negative when no total time is. */
  lemma {:induction false} MeanAtMostMax(data: seq<Record>)
    requires data != []
    ensures AnalyzeResults(data).value.avgTotalTime <= AnalyzeResults(data).value.durasiTotalDetik
    ensures (forall i :: 0 <= i < |data| ==> 0.0 <= data[i].totalWaktu) ==>
      0.0 <= AnalyzeResults(data).value.avgTotalTime
  {
    var col := TotalWaktu(data);
    var s := AnalyzeResults(data).value;
    MeanBounds(col, s.avgTotalTime, s.durasiTotalDetik);
  }
}
