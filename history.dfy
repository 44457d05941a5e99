/** The chart history kept by the page's script (app.py, `fetchData`): seven parallel arrays,
    a time label and six series, bounded to the most recent readings. */
module History {
  import opened Stats

  /** `labels.length > 30` triggers the shift, so a window holds at most 31 points. */
  const ShiftAbove: nat := 30
  const MaxPoints: nat := ShiftAbove + 1

  function Min(a: nat, b: nat): nat
  {
    if a <= b then a else b
  }

  /** One update of one array: drop the oldest point when over the threshold, then append.
      The new value ends the array, and a window that fits stays within 31 points. */
  function Slide<T>(w: seq<T>, x: T): (r: seq<T>)
    ensures 0 < |r| <= |w| + 1 && r[|r| - 1] == x
    ensures |w| <= MaxPoints ==> |r| <= MaxPoints
  {
    (if |w| > ShiftAbove then w[1..] else w) + [x]
  }

  /** A window that fits stays within 31 points, the newest value is last, and a full window
      loses exactly its oldest point. */
  lemma SlideKeepsBound<T>(w: seq<T>, x: T)
    requires |w| <= MaxPoints
    ensures |Slide(w, x)| <= MaxPoints
    ensures Slide(w, x)[|Slide(w, x)| - 1] == x
    ensures |w| == MaxPoints ==> Slide(w, x) == w[1..] + [x]
    ensures |w| < MaxPoints ==> Slide(w, x) == w + [x]
  {
  }

  /** The array after pushing every value of `xs`, in order, onto an empty one. */
  function Replay<T>(xs: seq<T>): (r: seq<T>)
    ensures |r| == Min(|xs|, MaxPoints)
    decreases |xs|
  {
    if xs == [] then [] else Slide(Replay(xs[..|xs| - 1]), xs[|xs| - 1])
  }

  /** The last 31 values of `xs` (all of them when there are fewer). */
  function Recent<T>(xs: seq<T>): seq<T>
  {
    xs[|xs| - Min(|xs|, MaxPoints)..]
  }

  /** The window always holds exactly the most recent readings, oldest first. */
  lemma {:induction false} ReplayKeepsMostRecent<T>(xs: seq<T>)
    ensures Replay(xs) == Recent(xs)
    decreases |xs|
  {
    if xs != [] {
      var n := |xs| - 1;
      var init := xs[..n];
      ReplayKeepsMostRecent(init);
      SlideRecent(init, xs[n]);
      assert init + [xs[n]] == xs;
    }
  }

  /** Pushing one more value is replaying the longer run. */
  lemma ReplayStep<T>(xs: seq<T>, x: T)
    ensures Replay(xs + [x]) == Slide(Replay(xs), x)
  {
    assert (xs + [x])[..|xs|] == xs;
  }

  /** The six plotted series of a snapshot. */
  datatype Series = Cpu | Temp | Mem | Disk | NetUp | NetDown

  function ValueOf(data: Snapshot, series: Series): real
  {
    match series
    case Cpu => data.cpuUsage
    case Temp => data.temperature
    case Mem => data.memPercent
    case Disk => data.diskPercent
    case NetUp => data.netUpload
    case NetDown => data.netDownload
  }

  /** One series over a run of snapshots. */
  function Column(run: seq<Snapshot>, series: Series): (c: seq<real>)
    ensures |c| == |run|
  {
    seq(|run|, i requires 0 <= i < |run| => ValueOf(run[i], series))
  }

  class History {
    var labels: seq<string>
    var cpuData: seq<real>
    var tempData: seq<real>
    var memData: seq<real>
    var diskData: seq<real>
    var netUpData: seq<real>
    var netDownData: seq<real>
    /** The label of every fetch so far, oldest first. */
    ghost var allLabels: seq<string>
    /** The snapshot of every fetch so far, oldest first. */
    ghost var fetched: seq<Snapshot>

    /** Each array is the window of its series over all fetches, so position k of every array
        comes from the same fetch. */
    ghost predicate Valid()
      reads this
    {
      && |allLabels| == |fetched|
      && labels == Recent(allLabels)
      && cpuData == Recent(Column(fetched, Cpu))
      && tempData == Recent(Column(fetched, Temp))
      && memData == Recent(Column(fetched, Mem))
      && diskData == Recent(Column(fetched, Disk))
      && netUpData == Recent(Column(fetched, NetUp))
      && netDownData == Recent(Column(fetched, NetDown))
    }

    constructor ()
      ensures Valid() && allLabels == [] && fetched == []
      ensures labels == [] && cpuData == [] && tempData == [] && memData == []
      ensures diskData == [] && netUpData == [] && netDownData == []
    {
      labels, cpuData, tempData, memData := [], [], [], [];
      diskData, netUpData, netDownData := [], [], [];
      allLabels, fetched := [], [];
      assert Column([], Cpu) == Column([], Temp) == Column([], Mem) == [];
      assert Column([], Disk) == Column([], NetUp) == Column([], NetDown) == [];
    }

    /** All seven arrays have the same length, never more than 31. */
    lemma Aligned()
      requires Valid()
      ensures |labels| == |cpuData| == |tempData| == |memData| == |diskData| == |netUpData| == |netDownData|
      ensures |labels| == Min(|fetched|, MaxPoints)
    {
    }

    /** Position k of every array holds the same fetch, one of the last 31. */
    lemma WindowsAligned(k: nat)
      requires Valid() && k < |labels|
      ensures |labels| == Min(|fetched|, MaxPoints)
      ensures var i := |fetched| - |labels| + k;
        && 0 <= i < |fetched|
        && labels[k] == allLabels[i]
        && cpuData[k] == fetched[i].cpuUsage && tempData[k] == fetched[i].temperature
        && memData[k] == fetched[i].memPercent && diskData[k] == fetched[i].diskPercent
        && netUpData[k] == fetched[i].netUpload && netDownData[k] == fetched[i].netDownload
    {
    }

    /** `labels.shift()` and the shift of every series. */
    method DropOldest()
      requires |labels| > 0 && |cpuData| > 0 && |tempData| > 0 && |memData| > 0
      requires |diskData| > 0 && |netUpData| > 0 && |netDownData| > 0
      modifies this
      ensures labels == old(labels)[1..] && cpuData == old(cpuData)[1..]
      ensures tempData == old(tempData)[1..] && memData == old(memData)[1..]
      ensures diskData == old(diskData)[1..] && netUpData == old(netUpData)[1..]
      ensures netDownData == old(netDownData)[1..]
      ensures allLabels == old(allLabels) && fetched == old(fetched)
    {
      labels := labels[1..];
      cpuData, tempData, memData := cpuData[1..], tempData[1..], memData[1..];
      diskData, netUpData, netDownData := diskData[1..], netUpData[1..], netDownData[1..];
    }

    /** `labels.push(timeLabel)` and the push of each series' new reading. */
    method Append(timeLabel: string, data: Snapshot)
      modifies this
      ensures labels == old(labels) + [timeLabel]
      ensures cpuData == old(cpuData) + [data.cpuUsage]
      ensures tempData == old(tempData) + [data.temperature]
      ensures memData == old(memData) + [data.memPercent]
      ensures diskData == old(diskData) + [data.diskPercent]
      ensures netUpData == old(netUpData) + [data.netUpload]
      ensures netDownData == old(netDownData) + [data.netDownload]
      ensures allLabels == old(allLabels) && fetched == old(fetched)
    {
      labels := labels + [timeLabel];
      cpuData := cpuData + [data.cpuUsage];
      tempData := tempData + [data.temperature];
      memData := memData + [data.memPercent];
      diskData := diskData + [data.diskPercent];
      netUpData := netUpData + [data.netUpload];
      netDownData := netDownData + [data.netDownload];
    }

    /** One fetch (`fetchData`): shift every array when the labels are over the threshold, then
        push onto each. */
    method Record(timeLabel: string, data: Snapshot)
      requires Valid()
      modifies this
      ensures Valid()
      ensures allLabels == old(allLabels) + [timeLabel] && fetched == old(fetched) + [data]
      ensures labels == Slide(old(labels), timeLabel)
      ensures cpuData == Slide(old(cpuData), data.cpuUsage)
      ensures tempData == Slide(old(tempData), data.temperature)
      ensures memData == Slide(old(memData), data.memPercent)
      ensures diskData == Slide(old(diskData), data.diskPercent)
      ensures netUpData == Slide(old(netUpData), data.netUpload)
      ensures netDownData == Slide(old(netDownData), data.netDownload)
    {
      Aligned();
      SlideRecent(allLabels, timeLabel);
      ColumnStep(fetched, data, Cpu);
      ColumnStep(fetched, data, Temp);
      ColumnStep(fetched, data, Mem);
      ColumnStep(fetched, data, Disk);
      ColumnStep(fetched, data, NetUp);
      ColumnStep(fetched, data, NetDown);
      if |labels| > ShiftAbove {
        DropOldest();
      }
      Append(timeLabel, data);
      allLabels := allLabels + [timeLabel];
      fetched := fetched + [data];
    }
  }

  /** Appending a snapshot slides its value onto the window of a series. */
  lemma ColumnStep(run: seq<Snapshot>, data: Snapshot, series: Series)
    ensures Recent(Column(run + [data], series)) == Slide(Recent(Column(run, series)), ValueOf(data, series))
  {
    assert Column(run + [data], series) == Column(run, series) + [ValueOf(data, series)];
    SlideRecent(Column(run, series), ValueOf(data, series));
  }

  /** Sliding the window of a run by one value gives the window of the longer run. */
  lemma SlideRecent<T>(xs: seq<T>, x: T)
    ensures Slide(Recent(xs), x) == Recent(xs + [x])
  {
    var ys, n := xs + [x], |xs|;
    if n > ShiftAbove {
      assert xs[n - MaxPoints..][1..] + [x] == ys[|ys| - MaxPoints..];
    } else {
      assert xs + [x] == ys;
    }
  }
}
