/** Policy checks and the proxy baseline enrichment that must mirror the gateway's. */
module OpenShellPolicy {
  import opened RuntimeContract

  datatype Filesystem = Filesystem(includeWorkdir: bool, readOnly: seq<string>, readWrite: seq<string>)

  datatype Process = Process(user: string, group: string)

  /** Network rules and middlewares matter here only through their names. */
  datatype SandboxPolicy = SandboxPolicy(filesystem: Option<Filesystem>, landlock: Option<string>,
                                         process: Option<Process>,
                                         networkPolicies: set<string>, networkMiddlewares: set<string>)

  const SANDBOX_WRITABLE_PATH := "/sandbox"
  const PROXY_TEMP_PATH := "/tmp"
  const PROXY_BASELINE_READ_ONLY := ["/usr", "/lib", "/etc", "/var/log", "/proc", "/dev/urandom"]
  const PROXY_BASELINE_READ_WRITE := ["/sandbox", "/tmp"]

  predicate Distinct(paths: seq<string>) {
    forall i, j :: 0 <= i < j < |paths| ==> paths[i] != paths[j]
  }

  predicate DistinctNormal(paths: seq<string>, normalize: string -> string) {
    forall i, j :: 0 <= i < j < |paths| ==> normalize(paths[i]) != normalize(paths[j])
  }

  /** `filesystem_paths_are_unambiguous`: the loop that fills a set of normalized paths. */
  method PathsAreUnambiguous(fs: Filesystem, normalize: string -> string) returns (ok: bool)
    ensures ok <==> DistinctNormal(fs.readOnly + fs.readWrite, normalize)
  {
    var all := fs.readOnly + fs.readWrite;
    var paths: set<string> := {};
    for i := 0 to |all|
      invariant paths == set j | 0 <= j < i :: normalize(all[j])
      invariant DistinctNormal(all[..i], normalize)
    {
      if normalize(all[i]) in paths {
        return false;
      }
      paths := paths + {normalize(all[i])};
    }
    assert all[..|all|] == all;
    return true;
  }

  predicate MeetsSecurityFloor(p: SandboxPolicy, normalize: string -> string, allowDegraded: bool) {
    && p.filesystem.Some? && p.landlock.Some? && p.process.Some?
    && !p.filesystem.value.includeWorkdir
    && p.filesystem.value.readWrite == [SANDBOX_WRITABLE_PATH]
    && DistinctNormal(p.filesystem.value.readOnly + p.filesystem.value.readWrite, normalize)
    && (p.networkPolicies == {} || PROXY_TEMP_PATH in p.filesystem.value.readOnly)
    && (p.landlock.value == "hard_requirement" || (allowDegraded && p.landlock.value == "best_effort"))
    && p.process.value == Process("sandbox", "sandbox")
    && p.networkMiddlewares == {}
  }

  /** The floor leaves open only what may be read and which network rules there are: two policies that meet it agree on
      everything else, but for the degraded Landlock mode where that is allowed. */
  lemma FloorIsTight(p: SandboxPolicy, q: SandboxPolicy, normalize: string -> string, allowDegraded: bool)
    requires MeetsSecurityFloor(p, normalize, allowDegraded) && MeetsSecurityFloor(q, normalize, allowDegraded)
    ensures q == p.(filesystem := Some(p.filesystem.value.(readOnly := q.filesystem.value.readOnly)),
                    landlock := q.landlock, networkPolicies := q.networkPolicies)
    ensures p.landlock == Some("hard_requirement") || (allowDegraded && p.landlock == Some("best_effort"))
    ensures MeetsSecurityFloor(p, normalize, true)
  {
  }

  /** The floor is met by every such policy whose readable paths are unambiguous and, with network rules, include the
      temporary directory. */
  lemma FloorAdmits(readOnly: seq<string>, networkPolicies: set<string>, normalize: string -> string, degraded: bool)
    requires DistinctNormal(readOnly + [SANDBOX_WRITABLE_PATH], normalize)
    requires networkPolicies == {} || PROXY_TEMP_PATH in readOnly
    ensures MeetsSecurityFloor(SandboxPolicy(Some(Filesystem(false, readOnly, [SANDBOX_WRITABLE_PATH])),
                                             Some(if degraded then "best_effort" else "hard_requirement"),
                                             Some(Process("sandbox", "sandbox")), networkPolicies, {}),
                               normalize, degraded)
  {
  }

  /** The baseline paths, in order, that neither list declares. */
  function Missing(baseline: seq<string>, declared: seq<string>): seq<string> {
    if baseline == [] then []
    else
      var rest := Missing(baseline[..|baseline| - 1], declared);
      if baseline[|baseline| - 1] in declared then rest else rest + [baseline[|baseline| - 1]]
  }

  lemma {:induction false} MissingElements(baseline: seq<string>, declared: seq<string>)
    ensures forall x :: x in Missing(baseline, declared) <==> x in baseline && x !in declared
    ensures Distinct(baseline) ==> Distinct(Missing(baseline, declared))
  {
    if baseline != [] {
      var n := |baseline| - 1;
      MissingElements(baseline[..n], declared);
      assert baseline == baseline[..n] + [baseline[n]];
      if Distinct(baseline) {
        assert baseline[n] !in baseline[..n];
      }
    }
  }

  /** `apply_proxy_baseline_enrichment`: the two loops that push missing baseline paths. */
  method Enrich(p: SandboxPolicy) returns (r: SandboxPolicy)
    ensures r == Enriched(p)
  {
    if p.networkPolicies == {} || p.filesystem.None? {
      return p;
    }
    var fs := p.filesystem.value;
    var declared := fs.readOnly + fs.readWrite;
    var readOnly, readWrite := fs.readOnly, fs.readWrite;
    for i := 0 to |PROXY_BASELINE_READ_ONLY|
      invariant readOnly == fs.readOnly + Missing(PROXY_BASELINE_READ_ONLY[..i], declared)
    {
      var path := PROXY_BASELINE_READ_ONLY[i];
      assert PROXY_BASELINE_READ_ONLY[..i + 1][..i] == PROXY_BASELINE_READ_ONLY[..i];
      MissingElements(PROXY_BASELINE_READ_ONLY[..i], declared);
      assert path !in PROXY_BASELINE_READ_ONLY[..i];
      if path !in readOnly && path !in readWrite {
        readOnly := readOnly + [path];
      }
    }
    assert PROXY_BASELINE_READ_ONLY[..|PROXY_BASELINE_READ_ONLY|] == PROXY_BASELINE_READ_ONLY;
    var now := readOnly + readWrite;
    for i := 0 to |PROXY_BASELINE_READ_WRITE|
      invariant readWrite == fs.readWrite + Missing(PROXY_BASELINE_READ_WRITE[..i], now)
    {
      var path := PROXY_BASELINE_READ_WRITE[i];
      assert PROXY_BASELINE_READ_WRITE[..i + 1][..i] == PROXY_BASELINE_READ_WRITE[..i];
      MissingElements(PROXY_BASELINE_READ_WRITE[..i], now);
      assert path !in PROXY_BASELINE_READ_WRITE[..i];
      if path !in readOnly && path !in readWrite {
        readWrite := readWrite + [path];
      }
    }
    assert PROXY_BASELINE_READ_WRITE[..|PROXY_BASELINE_READ_WRITE|] == PROXY_BASELINE_READ_WRITE;
    return p.(filesystem := Some(fs.(readOnly := readOnly, readWrite := readWrite)));
  }

  /** Each list followed by the baseline paths still missing when its turn comes. */
  function Enriched(p: SandboxPolicy): SandboxPolicy {
    if p.networkPolicies == {} || p.filesystem.None? then p
    else
      var fs := p.filesystem.value;
      var readOnly := fs.readOnly + Missing(PROXY_BASELINE_READ_ONLY, fs.readOnly + fs.readWrite);
      var readWrite := fs.readWrite + Missing(PROXY_BASELINE_READ_WRITE, readOnly + fs.readWrite);
      p.(filesystem := Some(fs.(readOnly := readOnly, readWrite := readWrite)))
  }

  lemma MissingNothing(baseline: seq<string>, declared: seq<string>)
    requires forall x :: x in baseline ==> x in declared
    ensures Missing(baseline, declared) == []
  {
    var m := Missing(baseline, declared);
    if m != [] {
      assert m[0] in m;
      MissingElements(baseline, declared);
    }
  }

  lemma DistinctAppend(a: seq<string>, b: seq<string>)
    requires Distinct(a) && Distinct(b) && forall x :: x in b ==> x !in a
    ensures Distinct(a + b)
  {
    forall i, j | 0 <= i < j < |a + b|
      ensures (a + b)[i] != (a + b)[j]
    {
      if i < |a| <= j {
        assert b[j - |a|] in b && a[i] in a;
      }
    }
  }

  lemma NormalDistinctIsDistinct(paths: seq<string>, normalize: string -> string)
    requires DistinctNormal(paths, normalize)
    ensures Distinct(paths)
  {
    forall i, j | 0 <= i < j < |paths|
      ensures paths[i] != paths[j]
    {
      assert normalize(paths[i]) != normalize(paths[j]);
    }
  }

  lemma DistinctParts(a: seq<string>, b: seq<string>)
    requires Distinct(a + b)
    ensures Distinct(a) && Distinct(b) && forall x :: x in a ==> x !in b
  {
    assert forall i :: 0 <= i < |a| ==> (a + b)[i] == a[i];
    assert forall i :: 0 <= i < |b| ==> (a + b)[|a| + i] == b[i];
  }

  /** Enrichment never widens writes: for every policy that meets the floor the writable list stays exactly
      `/sandbox`, the read-only list only grows at its end, by exactly the undeclared baseline paths, no literal
      path appears twice across both lists, and enriching again changes nothing. */
  lemma EnrichmentNeverWidensWrites(p: SandboxPolicy, normalize: string -> string, allowDegraded: bool)
    requires MeetsSecurityFloor(p, normalize, allowDegraded)
    ensures var before, after := p.filesystem.value, Enriched(p).filesystem.value;
            && Enriched(p).filesystem.Some?
            && after.readWrite == [SANDBOX_WRITABLE_PATH]
            && before.readOnly <= after.readOnly
            && (forall x :: x in after.readOnly[|before.readOnly|..] <==>
                  p.networkPolicies != {} && x in PROXY_BASELINE_READ_ONLY && x !in before.readOnly)
            && Distinct(after.readOnly + after.readWrite)
            && Enriched(p) == p.(filesystem := Some(before.(readOnly := after.readOnly)))
    ensures Enriched(Enriched(p)) == Enriched(p)
  {
    var fs := p.filesystem.value;
    NormalDistinctIsDistinct(fs.readOnly + fs.readWrite, normalize);
    if p.networkPolicies == {} {
      assert fs.readOnly[|fs.readOnly|..] == [];
    } else {
      var declared := fs.readOnly + fs.readWrite;
      var added := Missing(PROXY_BASELINE_READ_ONLY, declared);
      var readOnly := fs.readOnly + added;
      MissingElements(PROXY_BASELINE_READ_ONLY, declared);
      MissingNothing(PROXY_BASELINE_READ_WRITE, readOnly + fs.readWrite);
      assert readOnly[|fs.readOnly|..] == added;
      assert SANDBOX_WRITABLE_PATH !in PROXY_BASELINE_READ_ONLY;
      DistinctParts(fs.readOnly, fs.readWrite);
      DistinctAppend(fs.readOnly, added);
      DistinctAppend(readOnly, fs.readWrite);
      MissingNothing(PROXY_BASELINE_READ_ONLY, readOnly + fs.readWrite);
      assert readOnly + [] == readOnly;
    }
  }
}
