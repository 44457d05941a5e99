/** The classification done by the page's script (app.py, `setColor`, `updateSecondaryDisks`
    and the status indicator in `fetchData`). */
module Dashboard {
  import opened SecondaryDisks
  import opened Stats

  /** The colours the script assigns; `DefaultBlue` is "#4cafef". */
  datatype Color = Lime | Orange | Red | DeepSkyBlue | DefaultBlue

  /** Severity of a colour: the three bands rank 0, 1, 2; colours outside the bands rank 0. */
  function Level(c: Color): nat
  {
    match c
    case Orange => 1
    case Red => 2
    case _ => 0
  }

  /** Metric types banded at 60 and 85. */
  predicate IsLoadMetric(kind: string)
  {
    kind == "cpu" || kind == "mem" || kind == "disk"
  }

  /** Metric types that get a band colour at all. */
  predicate IsBanded(kind: string)
  {
    IsLoadMetric(kind) || kind == "temp"
  }

  /** The upper limit of the orange band: 75 for temperature, 85 for the load metrics. */
  function OrangeLimit(kind: string): real
  {
    if kind == "temp" then 75.0 else 85.0
  }

  function SetColor(value: real, kind: string): (c: Color)
    ensures (c == Lime || c == Orange || c == Red) <==> IsBanded(kind)
    ensures kind == "net" ==> c == DeepSkyBlue
    ensures !IsBanded(kind) && kind != "net" ==> c == DefaultBlue
  {
    if kind == "cpu" || kind == "mem" || kind == "disk" then
      if value <= 60.0 then Lime else if value <= 85.0 then Orange else Red
    else if kind == "temp" then
      if value <= 60.0 then Lime else if value <= 75.0 then Orange else Red
    else if kind == "net" then DeepSkyBlue
    else DefaultBlue
  }

  /** The three bands of a banded metric: lime up to 60, orange up to its limit, red above. */
  lemma ColorBands(value: real, kind: string)
    requires IsBanded(kind)
    ensures SetColor(value, kind) == Lime <==> value <= 60.0
    ensures SetColor(value, kind) == Orange <==> 60.0 < value <= OrangeLimit(kind)
    ensures SetColor(value, kind) == Red <==> value > OrangeLimit(kind)
  {
  }

  /** A higher reading never gets a less severe colour. */
  lemma SetColorMonotone(v1: real, v2: real, kind: string)
    requires v1 <= v2
    ensures Level(SetColor(v1, kind)) <= Level(SetColor(v2, kind))
  {
  }

  // ---------------------------------------------------------------------------
  // The status indicator

  datatype Status = Healthy | UnderLoad | Critical

  function Rank(s: Status): nat
  {
    match s
    case Healthy => 0
    case UnderLoad => 1
    case Critical => 2
  }

  /** `colors.includes("red")`, then `colors.includes("orange")`. */
  function StatusOf(colors: seq<Color>): (s: Status)
    ensures s == Critical <==> Red in colors
    ensures s == Healthy <==> Red !in colors && Orange !in colors
  {
    if Red in colors then Critical else if Orange in colors then UnderLoad else Healthy
  }

  /** The status shown for a snapshot: only cpu, temperature, memory and disk colours are collected.
      It is critical when any of the four is past its orange band, healthy when all four are at
      most 60. */
  function Indicator(s: Snapshot): (st: Status)
    ensures st == Critical <==>
      s.cpuUsage > 85.0 || s.temperature > 75.0 || s.memPercent > 85.0 || s.diskPercent > 85.0
    ensures st == Healthy <==>
      s.cpuUsage <= 60.0 && s.temperature <= 60.0 && s.memPercent <= 60.0 && s.diskPercent <= 60.0
  {
    StatusOf([SetColor(s.cpuUsage, "cpu"), SetColor(s.temperature, "temp"),
              SetColor(s.memPercent, "mem"), SetColor(s.diskPercent, "disk")])
  }

  /** Network rates play no part in the status. */
  lemma IndicatorIgnoresNetwork(s: Snapshot, upload: real, download: real)
    ensures Indicator(s.(netUpload := upload, netDownload := download)) == Indicator(s)
  {
  }

  /** Raising any of the four readings never lowers the status. */
  lemma IndicatorMonotone(s1: Snapshot, s2: Snapshot)
    requires s1.cpuUsage <= s2.cpuUsage && s1.temperature <= s2.temperature
    requires s1.memPercent <= s2.memPercent && s1.diskPercent <= s2.diskPercent
    ensures Rank(Indicator(s1)) <= Rank(Indicator(s2))
  {
  }

  // ---------------------------------------------------------------------------
  // The secondary-disk summary card

  /** `Math.max(...disks.map(d => d.percent))`. */
  function MaxPercent(disks: seq<Disk>): (m: real)
    requires disks != []
    ensures exists i :: 0 <= i < |disks| && disks[i].percent == m
    ensures forall i :: 0 <= i < |disks| ==> disks[i].percent <= m
    decreases |disks|
  {
    if |disks| == 1 then disks[0].percent
    else
      var rest := MaxPercent(disks[1..]);
      if disks[0].percent >= rest then disks[0].percent else rest
  }

  /** "N/A" in the default colour, or the list coloured by its fullest volume. */
  datatype Summary = NotAvailable | Fullest(color: Color)

  /** The card is "N/A" exactly for no volumes; otherwise it takes the colour of the fullest volume,
      in the same bands as the primary disk: red when some volume is above 85, lime when every
      volume is at most 60. */
  function SecondarySummary(disks: seq<Disk>): (r: Summary)
    ensures r == NotAvailable <==> disks == []
    ensures disks != [] ==> r == Fullest(SetColor(MaxPercent(disks), "disk"))
    ensures SummaryColor(r) == Red <==> exists i :: 0 <= i < |disks| && disks[i].percent > 85.0
    ensures SummaryColor(r) == Lime <==>
      disks != [] && forall i :: 0 <= i < |disks| ==> disks[i].percent <= 60.0
  {
    if |disks| == 0 then NotAvailable
    else
      var maxUsage := MaxPercent(disks);
      Fullest(if maxUsage <= 60.0 then Lime else if maxUsage <= 85.0 then Orange else Red)
  }

  function SummaryColor(s: Summary): Color
  {
    match s
    case NotAvailable => DefaultBlue
    case Fullest(c) => c
  }
}
