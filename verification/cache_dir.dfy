/**
  The cache directory (DOCKET_CACHE_PATH) as a map from file name to file,
  with what garbage_collector() removes from it and what get_dirsize() adds up.
 */
module CacheDir {
  import opened Files

  type Dir = map<string, File>

  /** The directory-listing guard that the sweep and the size sum both spare. */
  const IndexFile := "index.php"
  /** Prefix of export/dump artifacts. */
  const DumpPrefix := "dump_"
  /** Seconds added to the current time before comparing with an mtime. */
  const GraceSeconds := 120

  /**
    The sweep's test for one entry: a ".php" file other than index.php whose
    mtime is not after now + 120 and which is empty or a dump_ file.
   */
  predicate Collectable(fn: string, f: File, now: int): (ok: bool)
    ensures ok ==> |fn| >= 4 && fn[|fn| - 4..] == ".php" && fn != IndexFile
    ensures ok <==> Extension(fn) == "php" && fn != IndexFile && f.mtime <= now + GraceSeconds && (f.size == 0 || StartsWith(fn, DumpPrefix))
  {
    PhpExtension(fn);
    && Extension(fn) == "php"
    && fn != IndexFile
    && f.mtime <= now + GraceSeconds
    && (f.size == 0 || StartsWith(fn, DumpPrefix))
  }

  /** The directory after one sweep at time `now`. */
  function Swept(d: Dir, now: int): (r: Dir)
    ensures r.Keys <= d.Keys
    ensures forall fn :: fn in r ==> r[fn] == d[fn]
    ensures IndexFile in d ==> IndexFile in r
    ensures forall fn :: fn in d && Extension(fn) != "php" ==> fn in r
    ensures forall fn :: fn in d && fn !in r ==>
              d[fn].mtime <= now + GraceSeconds && (d[fn].size == 0 || StartsWith(fn, DumpPrefix))
    ensures forall fn :: fn in d && d[fn].size > 0 && !StartsWith(fn, DumpPrefix) ==> fn in r
    ensures forall fn :: fn in d && d[fn].mtime > now + GraceSeconds ==> fn in r
    ensures forall fn ::
              (fn in d && |fn| >= 4 && fn[|fn| - 4..] == ".php" && fn != IndexFile &&
               d[fn].mtime <= now + GraceSeconds && (d[fn].size == 0 || StartsWith(fn, DumpPrefix))) ==> fn !in r
    ensures forall fn :: fn in d ==> (fn !in r <==> Collectable(fn, d[fn], now))
  {
    forall fn | fn in d && |fn| >= 4 && fn[|fn| - 4..] == ".php" ensures Extension(fn) == "php" {
      PhpExtension(fn);
    }
    map fn | fn in d && !Collectable(fn, d[fn], now) :: d[fn]
  }

  /** Sweeping twice at the same time removes nothing more than sweeping once. */
  lemma SweptIdempotent(d: Dir, now: int)
    ensures Swept(Swept(d, now), now) == Swept(d, now)
  {
    var once := Swept(d, now);
    assert Swept(once, now).Keys == once.Keys;
  }

  /** An arbitrary element of a non-empty set of names. */
  ghost function Pick(ks: set<string>): (k: string)
    requires ks != {}
    ensures k in ks
  {
    var k :| k in ks; k
  }

  /** The sum of the sizes of the named entries. */
  ghost function SumSizes(d: Dir, ks: set<string>): (total: nat)
    requires ks <= d.Keys
    ensures forall k :: k in ks ==> d[k].size <= total
    ensures ks == {} ==> total == 0
    decreases ks
  {
    if ks == {} then 0
    else
      var k := Pick(ks);
      d[k].size + SumSizes(d, ks - {k})
  }

  /** The sum does not depend on which entry is taken first. */
  lemma {:induction false} SumSizesRemove(d: Dir, ks: set<string>, k: string)
    requires ks <= d.Keys && k in ks
    ensures SumSizes(d, ks) == d[k].size + SumSizes(d, ks - {k})
    decreases ks
  {
    var j := Pick(ks);
    if j != k {
      calc {
        SumSizes(d, ks);
        d[j].size + SumSizes(d, ks - {j});
        { SumSizesRemove(d, ks - {j}, k); }
        d[j].size + d[k].size + SumSizes(d, ks - {j} - {k});
        { assert ks - {j} - {k} == ks - {k} - {j}; }
        d[k].size + (d[j].size + SumSizes(d, ks - {k} - {j}));
        { SumSizesRemove(d, ks - {k}, j); }
        d[k].size + SumSizes(d, ks - {k});
      }
    }
  }

  /** Summing fewer entries of a directory, or the same entries of a directory that agrees with it, never gives more. */
  lemma {:induction false} SumSizesSubset(d: Dir, e: Dir, ks: set<string>, ls: set<string>)
    requires ks <= ls <= d.Keys && ks <= e.Keys
    requires forall fn :: fn in ks ==> e[fn] == d[fn]
    ensures SumSizes(e, ks) <= SumSizes(d, ls)
    decreases ls
  {
    if ks != {} {
      var k := Pick(ks);
      SumSizesRemove(e, ks, k);
      SumSizesRemove(d, ls, k);
      SumSizesSubset(d, e, ks - {k}, ls - {k});
    } else if ls != {} {
      var k := Pick(ls);
      SumSizesRemove(d, ls, k);
      SumSizesSubset(d, e, ks, ls - {k});
    }
  }

  /** The byte total get_dirsize() reports: every entry except index.php. */
  ghost function DirBytes(d: Dir): (bytes: nat)
    ensures forall fn :: fn in d && fn != IndexFile ==> d[fn].size <= bytes
  {
    SumSizes(d, d.Keys - {IndexFile})
  }

  /** The reported total is zero exactly when every entry other than index.php is empty. */
  lemma {:induction false} SumSizesZero(d: Dir, ks: set<string>)
    requires ks <= d.Keys
    ensures SumSizes(d, ks) == 0 <==> forall fn :: fn in ks ==> d[fn].size == 0
    decreases ks
  {
    if ks != {} {
      var k := Pick(ks);
      SumSizesZero(d, ks - {k});
    }
  }

  /** A sweep never makes the reported directory size grow. */
  lemma SweepNeverGrows(d: Dir, now: int)
    ensures DirBytes(Swept(d, now)) <= DirBytes(d)
  {
    var r := Swept(d, now);
    SumSizesSubset(d, r, r.Keys - {IndexFile}, d.Keys - {IndexFile});
  }

  /** index.php is never counted: replacing it, adding it or removing it leaves the total unchanged. */
  lemma DirBytesIgnoresIndex(d: Dir, f: File)
    ensures DirBytes(d[IndexFile := f]) == DirBytes(d)
    ensures DirBytes(d - {IndexFile}) == DirBytes(d)
  {
    var e := d[IndexFile := f];
    var g := d - {IndexFile};
    var ks := d.Keys - {IndexFile};
    assert e.Keys - {IndexFile} == ks;
    assert g.Keys - {IndexFile} == ks;
    SumSizesSubset(d, e, ks, ks);
    SumSizesSubset(e, d, ks, ks);
    SumSizesSubset(d, g, ks, ks);
    SumSizesSubset(g, d, ks, ks);
  }
}
