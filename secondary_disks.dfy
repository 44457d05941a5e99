/** The scan of /mnt for secondary volumes (app.py, `get_secondary_disks`). */
module SecondaryDisks {
  import opened Outcomes

  /** What probing one entry of /mnt gives: not a directory (a file, or a symlink, which
      `is_dir(follow_symlinks=False)` rejects), or a directory and the outcome of `psutil.disk_usage`. */
  datatype Probe =
    | NotDirectory
    | Usage(percent: real)
    | PermissionDenied  // PermissionError: skipped
    | UsageFailed       // any other OSError: not caught

  /** One `os.DirEntry` of the scan, in the order `os.scandir` yields it. */
  datatype DirEntry = DirEntry(name: string, probe: Probe)

  /** One reported volume: `{"mount": ..., "percent": ...}`. */
  datatype Disk = Disk(mount: string, percent: real)

  const MountRoot: string := "/mnt"

  /** `entry.path` for an entry of `os.scandir("/mnt")`. */
  function MountPath(name: string): (p: string)
    ensures |p| == |MountRoot| + 1 + |name| && p[..|MountRoot|] == MountRoot
    ensures p[|MountRoot|..] == "/" + name
  {
    MountRoot + "/" + name
  }

  /** Distinct entry names give distinct mount paths. */
  lemma MountPathInjective(a: string, b: string)
    ensures a != b ==> MountPath(a) != MountPath(b)
  {
    var n := |MountRoot| + 1;
    assert a == MountPath(a)[n..];
    assert b == MountPath(b)[n..];
  }

  /** The disk an entry contributes, if any. */
  function DiskOf(e: DirEntry): Disk
    requires e.probe.Usage?
  {
    Disk(MountPath(e.name), e.probe.percent)
  }

  /** The disks kept from the entries, in scan order. */
  function Kept(entries: seq<DirEntry>): (k: seq<Disk>)
    ensures |k| <= |entries|
    ensures (forall i :: 0 <= i < |entries| ==> entries[i].probe.Usage?) ==> |k| == |entries|
    ensures (forall i :: 0 <= i < |entries| ==> !entries[i].probe.Usage?) ==> k == []
    decreases |entries|
  {
    if entries == [] then []
    else
      var last := entries[|entries| - 1];
      Kept(entries[..|entries| - 1]) + (if last.probe.Usage? then [DiskOf(last)] else [])
  }

  /** The positions of the kept entries, in scan order. */
  function KeptAt(entries: seq<DirEntry>): (ix: seq<nat>)
    ensures |ix| == |Kept(entries)|
    ensures forall j :: 0 <= j < |ix| ==> ix[j] < |entries|
    decreases |entries|
  {
    if entries == [] then []
    else
      var n := |entries| - 1;
      KeptAt(entries[..n]) + (if entries[n].probe.Usage? then [n] else [])
  }

  /** Some usage query failed with an exception other than PermissionError. */
  predicate AnyUsageFailed(entries: seq<DirEntry>)
  {
    exists i :: 0 <= i < |entries| && entries[i].probe.UsageFailed?
  }

  /** What `get_secondary_disks` returns or raises. */
  function ScanMnt(mntExists: bool, entries: seq<DirEntry>): (r: Result<seq<Disk>>)
    ensures r.Raised? <==> mntExists && exists i :: 0 <= i < |entries| && entries[i].probe.UsageFailed?
    ensures r.Raised? ==> r.fault == OSError
    ensures r.Ok? ==> |r.value| <= |entries|
    ensures !mntExists ==> r == Ok([])
    ensures mntExists && !AnyUsageFailed(entries) ==> r == Ok(Kept(entries))
  {
    if !mntExists then Ok([])
    else if AnyUsageFailed(entries) then Raised(OSError)
    else Ok(Kept(entries))
  }

  /** The scan loop: entries in order, appending each directory whose usage query succeeds. */
  method GetSecondaryDisks(mntExists: bool, entries: seq<DirEntry>) returns (r: Result<seq<Disk>>)
    ensures r == ScanMnt(mntExists, entries)
  {
    var disks: seq<Disk> := [];
    if mntExists {
      var i := 0;
      while i < |entries|
        invariant 0 <= i <= |entries|
        invariant disks == Kept(entries[..i])
        invariant !AnyUsageFailed(entries[..i])
      {
        var entry := entries[i];
        assert entries[..i + 1][..i] == entries[..i];
        if entry.probe.UsageFailed? {
          return Raised(OSError);
        } else if entry.probe.Usage? {
          disks := disks + [Disk(MountPath(entry.name), entry.probe.percent)];
        }
        i := i + 1;
      }
      assert entries[..i] == entries;
    }
    r := Ok(disks);
  }

  /** The j-th disk reported comes from the entry at the j-th kept position. */
  lemma {:induction false} KeptElement(entries: seq<DirEntry>, j: nat)
    requires j < |Kept(entries)|
    ensures entries[KeptAt(entries)[j]].probe.Usage?
    ensures Kept(entries)[j] == DiskOf(entries[KeptAt(entries)[j]])
    decreases |entries|
  {
    var n := |entries| - 1;
    var prefix := entries[..n];
    if j < |Kept(prefix)| {
      KeptElement(prefix, j);
      assert entries[KeptAt(prefix)[j]] == prefix[KeptAt(prefix)[j]];
    }
  }

  /** The kept positions are strictly increasing: the scan order is kept. */
  lemma {:induction false} KeptAtIncreasing(entries: seq<DirEntry>)
    ensures forall j, k :: 0 <= j < k < |KeptAt(entries)| ==> KeptAt(entries)[j] < KeptAt(entries)[k]
    decreases |entries|
  {
    if entries != [] {
      KeptAtIncreasing(entries[..|entries| - 1]);
    }
  }

  /** Every entry whose usage query succeeded has its position kept. */
  lemma {:induction false} KeptAtComplete(entries: seq<DirEntry>)
    ensures forall i :: 0 <= i < |entries| && entries[i].probe.Usage? ==> i in KeptAt(entries)
    decreases |entries|
  {
    if entries != [] {
      var n := |entries| - 1;
      var prefix := entries[..n];
      KeptAtComplete(prefix);
      forall i | 0 <= i < |entries| && entries[i].probe.Usage?
        ensures i in KeptAt(entries)
      {
        if i < n {
          assert prefix[i] == entries[i];
        }
      }
    }
  }

  /** The result is the entries with a successful usage query, in scan order, and only those. */
  lemma KeptIsOrderedSubsequence(entries: seq<DirEntry>)
    ensures forall j :: 0 <= j < |Kept(entries)| ==>
      entries[KeptAt(entries)[j]].probe.Usage? && Kept(entries)[j] == DiskOf(entries[KeptAt(entries)[j]])
    ensures forall j, k :: 0 <= j < k < |KeptAt(entries)| ==> KeptAt(entries)[j] < KeptAt(entries)[k]
    ensures forall i :: 0 <= i < |entries| ==> (i in KeptAt(entries) <==> entries[i].probe.Usage?)
  {
    KeptAtIncreasing(entries);
    KeptAtComplete(entries);
    forall j | 0 <= j < |Kept(entries)|
      ensures entries[KeptAt(entries)[j]].probe.Usage? && Kept(entries)[j] == DiskOf(entries[KeptAt(entries)[j]])
    {
      KeptElement(entries, j);
    }
  }

  /** With distinct entry names, no denied entry's path is ever reported. */
  lemma DeniedNeverReported(entries: seq<DirEntry>, i: nat, d: Disk)
    requires forall a, b :: 0 <= a < b < |entries| ==> entries[a].name != entries[b].name
    requires i < |entries| && entries[i].probe == PermissionDenied
    requires d in Kept(entries)
    ensures d.mount != MountPath(entries[i].name)
  {
    var kept, at := Kept(entries), KeptAt(entries);
    var j :| 0 <= j < |kept| && kept[j] == d;
    KeptElement(entries, j);
    var k := at[j];
    assert entries[k].probe.Usage? && d == DiskOf(entries[k]);
    assert entries[k].name != entries[i].name by {
      if k < i {
      } else {
        assert i < k;
      }
    }
    MountPathInjective(entries[k].name, entries[i].name);
  }

  /** A missing /mnt gives the empty list, not an error. */
  lemma MissingRootIsEmpty(entries: seq<DirEntry>)
    ensures ScanMnt(false, entries) == Ok([])
  {
  }

  /** Volumes A at 40%, B refused, C at 90%: exactly A then C. */
  lemma DeniedVolumeSkipped()
    ensures ScanMnt(true, [DirEntry("A", Usage(40.0)), DirEntry("B", PermissionDenied), DirEntry("C", Usage(90.0))])
         == Ok([Disk("/mnt/A", 40.0), Disk("/mnt/C", 90.0)])
  {
    var es := [DirEntry("A", Usage(40.0)), DirEntry("B", PermissionDenied), DirEntry("C", Usage(90.0))];
    assert !es[0].probe.UsageFailed? && !es[1].probe.UsageFailed? && !es[2].probe.UsageFailed?;
    assert es[..2][..1] == es[..1] && es[..1][..0] == [];
    assert MountPath("A") == "/mnt/A" && MountPath("C") == "/mnt/C";
    assert Kept(es[..1]) == [Disk("/mnt/A", 40.0)];
    assert Kept(es[..2]) == [Disk("/mnt/A", 40.0)];
    assert es[..|es| - 1] == es[..2];
    assert Kept(es) == [Disk("/mnt/A", 40.0), Disk("/mnt/C", 90.0)];
    assert !AnyUsageFailed(es);
  }
}
