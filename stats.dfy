/** The /stats handler (app.py, `stats`): one snapshot per request, built from the providers'
    readings and the carried network sample. */
module Stats {
  import opened Outcomes
  import opened Rates
  import opened Temperature
  import opened SecondaryDisks

  /** The JSON body of a successful response, before rounding. */
  datatype Snapshot = Snapshot(
    cpuUsage: real,
    temperature: real,
    memPercent: real,
    diskPercent: real,
    netUpload: real,
    netDownload: real,
    secondaryDisks: seq<Disk>)

  /** What the host's providers return during one request, in the order the handler asks. */
  datatype Host = Host(
    cpuPercent: real,        // psutil.cpu_percent(interval=0.5)
    vcgencmd: Vcgencmd,
    sensors: Sensors,
    memPercent: real,        // psutil.virtual_memory().percent
    diskPercent: real,       // psutil.disk_usage("/").percent
    bytesSent: nat,          // psutil.net_io_counters()
    bytesRecv: nat,
    now: real,               // time.time()
    mntExists: bool,         // os.path.exists("/mnt")
    mntEntries: seq<DirEntry>) // os.scandir("/mnt")

  /** The counters and clock read during the request. */
  function CurrentReading(host: Host): Reading
  {
    Reading(host.bytesSent, host.bytesRecv, host.now)
  }

  method Stats(sampler: RateSampler, host: Host) returns (r: Result<Snapshot>)
    requires sampler.Valid()
    modifies sampler
    ensures sampler.Valid()
    // the temperature lookup raises before the counters are read: nothing is stored
    ensures GetTemperature(host.vcgencmd, host.sensors).Raised? ==>
      r == Raised(IndexError) && unchanged(sampler)
    // a zero elapsed time raises before the store
    ensures GetTemperature(host.vcgencmd, host.sensors).Ok? && host.now == old(sampler.prevTime) ==>
      r == Raised(ZeroDivisionError) && unchanged(sampler)
    // otherwise the current reading is stored exactly once, whatever the disk scan then does
    ensures GetTemperature(host.vcgencmd, host.sensors).Ok? && host.now != old(sampler.prevTime) ==>
      && sampler.Stored() == CurrentReading(host)
      && sampler.history == old(sampler.history) + [CurrentReading(host)]
      && (r.Ok? <==> ScanMnt(host.mntExists, host.mntEntries).Ok?)
      && (r.Ok? ==> r.value == Snapshot(
            host.cpuPercent,
            TemperatureOrZero(GetTemperature(host.vcgencmd, host.sensors).value),
            host.memPercent,
            host.diskPercent,
            Rate(old(sampler.Stored()), CurrentReading(host), Up),
            Rate(old(sampler.Stored()), CurrentReading(host), Down),
            ScanMnt(host.mntExists, host.mntEntries).value))
      && (r.Raised? ==> r == Raised(OSError))
  {
    var cpu := host.cpuPercent;
    var t := GetTemperature(host.vcgencmd, host.sensors);
    if t.Raised? {
      return Raised(t.fault);
    }
    var temp := TemperatureOrZero(t.value);
    var mem, disk := host.memPercent, host.diskPercent;
    var rates := sampler.Sample(host.bytesSent, host.bytesRecv, host.now);
    if rates.Raised? {
      return Raised(rates.fault);
    }
    var secondary := GetSecondaryDisks(host.mntExists, host.mntEntries);
    if secondary.Raised? {
      return Raised(secondary.fault);
    }
    r := Ok(Snapshot(cpu, temp, mem, disk, rates.value.upload, rates.value.download, secondary.value));
  }
}
