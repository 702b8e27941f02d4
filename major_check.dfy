/**
 * The major-version gate of bin/main.js:94-132: every dependency of the
 * merged local map is matched by name against the "latest" merged map and
 * classified; the first Major classification aborts the run.
 */
module MajorCheck {
  import opened JsValues
  import opened DepMerge
  import Strings

  datatype Change = Unchanged | MinorPatch | Major

  /** One line of the comparator's console log: a dependency and its classification. */
  datatype Line = Line(name: string, change: Change)

  /** Whether the run goes on, or aborts naming the dependency that needs a major update. */
  datatype Verdict = Proceed | Abort(dependency: string)

  /** Removes one leading '^', if there is one, and leaves the rest of the version alone. */
  function StripCaret(v: string): (r: string)
    ensures |v| > 0 && v[0] == '^' ==> v == ['^'] + r
    ensures !(|v| > 0 && v[0] == '^') ==> r == v
  {
    if |v| > 0 && v[0] == '^' then v[1..] else v
  }

  /**
   * `v.split('.')[0]`: the text before the first '.', or the whole version
   * when it has no '.'; it never contains a '.'.
   */
  function MajorOf(v: string): (r: string)
    ensures '.' !in r
    ensures r == v[..Strings.IndexOf(v, '.')]
    ensures '.' !in v ==> r == v
  {
    var pieces := Strings.Split(v, '.');
    Strings.SplitHead(v, '.');
    Strings.SplitPiecesFree(v, '.');
    pieces[0]
  }

  /**
   * Classification of a local version against the latest one: identical
   * strings are Unchanged without any normalisation; otherwise the majors of
   * the caret-stripped versions decide between Minor/Patch and Major.
   */
  function Classify(local: string, latest: string): (c: Change)
    ensures c == Unchanged <==> local == latest
    ensures c == Major <==> local != latest && MajorOf(StripCaret(local)) != MajorOf(StripCaret(latest))
  {
    if local == latest then Unchanged
    else if MajorOf(StripCaret(local)) == MajorOf(StripCaret(latest)) then MinorPatch
    else Major
  }

  /** Whether the dependency at index `i` of `shared` has a Major classification against `latest`. */
  predicate MajorAt(shared: seq<(string, string)>, latest: Props, i: nat)
    requires i < |shared|
  {
    match Lookup(latest, shared[i].0)
    case None => false
    case Some(o) => Classify(shared[i].1, o) == Major
  }

  /** The log line for one dependency: none when `latest` has no such name. */
  function LineFor(dep: (string, string), latest: Props): seq<Line>
  {
    match Lookup(latest, dep.0)
    case None => []
    case Some(o) => [Line(dep.0, Classify(dep.1, o))]
  }

  /** The comparator's verdict: an abort at the first dependency, in `shared` order, that is Major. */
  function GateVerdict(shared: seq<(string, string)>, latest: Props): Verdict
  {
    if shared == [] then Proceed
    else if MajorAt(shared, latest, 0) then Abort(shared[0].0)
    else GateVerdict(shared[1..], latest)
  }

  /** The comparator's log: one line per matched dependency, up to and including the aborting one. */
  function GateReport(shared: seq<(string, string)>, latest: Props): seq<Line>
  {
    if shared == [] then []
    else LineFor(shared[0], latest) + (if MajorAt(shared, latest, 0) then [] else GateReport(shared[1..], latest))
  }

  /** Dropping the first dependency shifts the indices by one. */
  lemma MajorAtTail(shared: seq<(string, string)>, latest: Props, i: nat)
    requires 1 <= i < |shared|
    ensures MajorAt(shared, latest, i) <==> MajorAt(shared[1..], latest, i - 1)
  {
    assert shared[1..][i - 1] == shared[i];
  }

  /** The comparator lets the run proceed exactly when no dependency is Major. */
  lemma {:induction false} GateProceedsIffNoMajor(shared: seq<(string, string)>, latest: Props)
    ensures GateVerdict(shared, latest) == Proceed <==> forall i :: 0 <= i < |shared| ==> !MajorAt(shared, latest, i)
  {
    if shared != [] && !MajorAt(shared, latest, 0) {
      var rest := shared[1..];
      GateProceedsIffNoMajor(rest, latest);
      forall i | 1 <= i < |shared| ensures MajorAt(shared, latest, i) == MajorAt(rest, latest, i - 1) {
        MajorAtTail(shared, latest, i);
      }
      forall j | 0 <= j < |rest| ensures MajorAt(rest, latest, j) == MajorAt(shared, latest, j + 1) {
        MajorAtTail(shared, latest, j + 1);
      }
    }
  }

  /** When the comparator aborts, it names the first Major dependency in the iteration order of `shared`. */
  lemma {:induction false} GateAbortNamesFirstMajor(shared: seq<(string, string)>, latest: Props)
    requires GateVerdict(shared, latest).Abort?
    ensures exists k :: (0 <= k < |shared| && MajorAt(shared, latest, k)
      && GateVerdict(shared, latest).dependency == shared[k].0
      && forall i :: 0 <= i < k ==> !MajorAt(shared, latest, i))
  {
    if !MajorAt(shared, latest, 0) {
      var rest := shared[1..];
      GateAbortNamesFirstMajor(rest, latest);
      var k :| 0 <= k < |rest| && MajorAt(rest, latest, k)
        && GateVerdict(rest, latest).dependency == rest[k].0
        && forall i :: 0 <= i < k ==> !MajorAt(rest, latest, i);
      MajorAtTail(shared, latest, k + 1);
      forall i | 1 <= i < k + 1 ensures !MajorAt(shared, latest, i) {
        MajorAtTail(shared, latest, i);
      }
      assert MajorAt(shared, latest, k + 1);
    }
  }

  /**
   * Dependency comparison loop (bin/main.js:111-131): the local entries are
   * visited in order; the first one whose match in `latestShared` is Major
   * aborts the run, after its line has been logged.
   */
  method CheckMajorUpdates(shared: seq<(string, string)>, latestShared: Props) returns (report: seq<Line>, verdict: Verdict)
    ensures report == GateReport(shared, latestShared)
    ensures verdict == GateVerdict(shared, latestShared)
  {
    report := [];
    var i := 0;
    while i < |shared|
      invariant 0 <= i <= |shared|
      invariant report + GateReport(shared[i..], latestShared) == GateReport(shared, latestShared)
      invariant GateVerdict(shared[i..], latestShared) == GateVerdict(shared, latestShared)
    {
      var lines, major := ScanLatest(shared[i], latestShared);
      GateAdvance(shared, latestShared, i, report, lines);
      report := report + lines;
      if major {
        verdict := Abort(shared[i].0);
        return;
      }
      i := i + 1;
    }
    verdict := Proceed;
  }

  /**
   * One turn of the comparator's outer loop: after the line for entry `i`,
   * either entry `i` is Major and the log and verdict are complete, or the
   * loop goes on with the entries after it.
   */
  lemma GateAdvance(shared: seq<(string, string)>, latest: Props, i: nat, report: seq<Line>, lines: seq<Line>)
    requires i < |shared|
    requires report + GateReport(shared[i..], latest) == GateReport(shared, latest)
    requires GateVerdict(shared[i..], latest) == GateVerdict(shared, latest)
    requires lines == LineFor(shared[i], latest)
    ensures MajorAt([shared[i]], latest, 0) ==>
      report + lines == GateReport(shared, latest) && GateVerdict(shared, latest) == Abort(shared[i].0)
    ensures !MajorAt([shared[i]], latest, 0) ==>
      && (report + lines) + GateReport(shared[i + 1..], latest) == GateReport(shared, latest)
      && GateVerdict(shared[i + 1..], latest) == GateVerdict(shared, latest)
  {
    assert shared[i..][0] == shared[i] && shared[i..][1..] == shared[i + 1..];
    assert MajorAt(shared[i..], latest, 0) == MajorAt([shared[i]], latest, 0);
    if MajorAt([shared[i]], latest, 0) {
      assert GateReport(shared[i..], latest) == lines + [];
    } else {
      var rest := GateReport(shared[i + 1..], latest);
      assert GateReport(shared[i..], latest) == lines + rest;
      assert report + (lines + rest) == (report + lines) + rest;
    }
  }

  /**
   * The inner loop of bin/main.js:112-130 for one local entry: the latest
   * entries are scanned for the same name; an identical version logs
   * Unchanged and stops the scan, a different one compares the majors of the
   * caret-stripped versions and logs Minor/Patch, or logs Major and reports
   * that the run must abort.
   */
  method ScanLatest(dep: (string, string), latestShared: Props) returns (lines: seq<Line>, major: bool)
    ensures lines == LineFor(dep, latestShared)
    ensures major == MajorAt([dep], latestShared, 0)
  {
    var (lName, lVersion) := dep;
    lines, major := [], false;
    var j := 0;
    while j < |latestShared|
      invariant 0 <= j <= |latestShared|
      invariant lName in Names(latestShared[..j]) ==> lines == LineFor(dep, latestShared) && !MajorAt([dep], latestShared, 0)
      invariant lName !in Names(latestShared[..j]) ==> lines == []
      invariant !major
    {
      var (oName, oVersion) := latestShared[j];
      ScanStep(latestShared, j, lName);
      NotYetScanned(latestShared, j);
      if lName == oName {
        LookupAt(latestShared, j);
        if lVersion == oVersion {
          lines := lines + [Line(lName, Unchanged)];
          break;
        }
        var l := StripCaret(lVersion);
        var o := StripCaret(oVersion);
        if MajorOf(l) == MajorOf(o) {
          lines := lines + [Line(lName, MinorPatch)];
        } else {
          lines := lines + [Line(lName, Major)];
          major := true;
          return;
        }
      }
      j := j + 1;
    }
    assert latestShared[..|latestShared|] == latestShared;
  }

  /** In an object, a property's name does not occur before it. */
  lemma {:induction false} NotYetScanned(props: Props, j: nat)
    requires j < |props|
    ensures props[j].0 !in Names(props[..j])
  {
    if j > 0 {
      var rest: Props := props[1..];
      NotYetScanned(rest, j - 1);
      assert props[..j] == [props[0]] + rest[..j - 1];
      NamesAppend([props[0]], rest[..j - 1]);
      assert rest[j - 1] == props[j];
      NameAt(rest, j - 1);
    }
  }

  /** Extending the scanned prefix by one entry adds that entry's name. */
  lemma ScanStep(props: Props, j: nat, name: string)
    requires j < |props|
    ensures name in Names(props[..j + 1]) <==> name in Names(props[..j]) || props[j].0 == name
  {
    assert props[..j + 1] == props[..j] + [props[j]];
    NamesAppend(props[..j], [props[j]]);
  }

  /**
   * When every local entry's version is exactly what `latest` holds for its
   * name, as happens when both maps come from the same manifest, nothing is
   * Major: the run proceeds and every dependency is logged as Unchanged, in
   * order.
   */
  lemma {:induction false} SameVersionsAllUnchanged(shared: seq<(string, string)>, latest: Props)
    requires forall i :: 0 <= i < |shared| ==> Lookup(latest, shared[i].0) == Some(shared[i].1)
    ensures GateVerdict(shared, latest) == Proceed
    ensures |GateReport(shared, latest)| == |shared|
    ensures forall i :: 0 <= i < |shared| ==> GateReport(shared, latest)[i] == Line(shared[i].0, Unchanged)
  {
    if shared != [] {
      var rest := shared[1..];
      forall i | 0 <= i < |rest| ensures Lookup(latest, rest[i].0) == Some(rest[i].1) {
        assert rest[i] == shared[i + 1];
      }
      SameVersionsAllUnchanged(rest, latest);
      assert LineFor(shared[0], latest) == [Line(shared[0].0, Unchanged)];
    }
  }

  /** An object compared with itself: every entry is found with its own version. */
  lemma SelfLookup(props: Props)
    ensures forall i :: 0 <= i < |props| ==> Lookup(props, props[i].0) == Some(props[i].1)
  {
    forall i | 0 <= i < |props| ensures Lookup(props, props[i].0) == Some(props[i].1) {
      LookupAt(props, i);
    }
  }

  /** A package manifest whose dependency fields the workflow defaults in place (bin/main.js:82, 95-96, 103-105). */
  class Manifest {
    const name: string
    var dependencies: Json
    var devDependencies: Json

    constructor (name: string, dependencies: Json, devDependencies: Json)
      ensures this.name == name
      ensures this.dependencies == dependencies && this.devDependencies == devDependencies
    {
      this.name := name;
      this.dependencies := dependencies;
      this.devDependencies := devDependencies;
    }

    /** Replaces a `dependencies` or `devDependencies` field that is not of type 'object' by `{}`. */
    method DefaultDependencyFields()
      modifies this
      ensures dependencies == DefaultToObject(old(dependencies))
      ensures devDependencies == DefaultToObject(old(devDependencies))
    {
      if !IsObjectType(dependencies) {
        dependencies := Object([]);
      }
      if !IsObjectType(devDependencies) {
        devDependencies := Object([]);
      }
    }
  }

  /**
   * The gate as bin/main.js:94-131 writes it: the registry manifest is
   * defaulted but `latestSharedDeps` is built from the local manifest again,
   * so every dependency is compared with itself and the gate never fires.
   */
  method MajorUpdateGateAsWritten(pkg: Manifest, latestPkg: Manifest) returns (report: seq<Line>, verdict: Verdict)
    modifies pkg, latestPkg
    ensures pkg.dependencies == DefaultToObject(old(pkg.dependencies))
    ensures pkg.devDependencies == DefaultToObject(old(pkg.devDependencies))
    ensures latestPkg.dependencies == DefaultToObject(old(latestPkg.dependencies))
    ensures latestPkg.devDependencies == DefaultToObject(old(latestPkg.devDependencies))
    ensures verdict == Proceed
    ensures var shared := MergeDependencies(pkg.dependencies, pkg.devDependencies);
      |report| == |shared| && forall i :: 0 <= i < |shared| ==> report[i] == Line(shared[i].0, Unchanged)
  {
    pkg.DefaultDependencyFields();
    var sharedDeps := MergeDependencies(pkg.dependencies, pkg.devDependencies);
    latestPkg.DefaultDependencyFields();
    var latestSharedDeps := MergeDependencies(pkg.dependencies, pkg.devDependencies);
    report, verdict := CheckMajorUpdates(sharedDeps, latestSharedDeps);
    SelfLookup(sharedDeps);
    SameVersionsAllUnchanged(sharedDeps, latestSharedDeps);
  }

  /**
   * The gate as intended: the local merged map is compared with the merged
   * dependencies of the latest published manifest, so a dependency whose
   * major differs from the registry's aborts the run.
   */
  method MajorUpdateGate(pkg: Manifest, latestPkg: Manifest) returns (report: seq<Line>, verdict: Verdict)
    modifies pkg, latestPkg
    ensures pkg.dependencies == DefaultToObject(old(pkg.dependencies))
    ensures pkg.devDependencies == DefaultToObject(old(pkg.devDependencies))
    ensures latestPkg.dependencies == DefaultToObject(old(latestPkg.dependencies))
    ensures latestPkg.devDependencies == DefaultToObject(old(latestPkg.devDependencies))
    ensures var shared := MergeDependencies(pkg.dependencies, pkg.devDependencies);
      var latest := MergeDependencies(latestPkg.dependencies, latestPkg.devDependencies);
      report == GateReport(shared, latest) && verdict == GateVerdict(shared, latest)
  {
    pkg.DefaultDependencyFields();
    var sharedDeps := MergeDependencies(pkg.dependencies, pkg.devDependencies);
    latestPkg.DefaultDependencyFields();
    var latestSharedDeps := MergeDependencies(latestPkg.dependencies, latestPkg.devDependencies);
    report, verdict := CheckMajorUpdates(sharedDeps, latestSharedDeps);
  }

  /**
   * A concrete run that tells the two apart: locally `^4.17.21`, on the
   * registry `^5.0.0`. As written the gate proceeds; as intended it aborts
   * naming the dependency.
   */
  lemma AsWrittenMissesMajorBump()
    ensures var local := MergeDependencies(Object(Single(("lodash", "^4.17.21"))), Object([]));
      var registry := MergeDependencies(Object(Single(("lodash", "^5.0.0"))), Object([]));
      GateVerdict(local, local) == Proceed && GateVerdict(local, registry) == Abort("lodash")
  {
    var local := MergeDependencies(Object(Single(("lodash", "^4.17.21"))), Object([]));
    var registry := MergeDependencies(Object(Single(("lodash", "^5.0.0"))), Object([]));
    SpreadIntoEmpty(Single(("lodash", "^4.17.21")));
    SpreadIntoEmpty(Single(("lodash", "^5.0.0")));
    assert local == [("lodash", "^4.17.21")];
    assert registry == [("lodash", "^5.0.0")];
    assert StripCaret("^4.17.21") == "4" + ['.'] + "17.21";
    assert StripCaret("^5.0.0") == "5" + ['.'] + "0.0";
    MajorOfDotted("4", "17.21");
    MajorOfDotted("5", "0.0");
    assert MajorAt(local, registry, 0);
    SelfLookup(local);
    SameVersionsAllUnchanged(local, local);
  }

  /** The major of a version written `a.b…` is `a`. */
  lemma MajorOfDotted(a: string, b: string)
    requires '.' !in a
    ensures MajorOf(a + ['.'] + b) == a
  {
    Strings.SplitAtSeparator(a, b, '.');
  }

  /** The two classifications named for the comparator: same major, and different majors. */
  lemma ClassifyExamples()
    ensures Classify("^2.1.0", "^2.3.0") == MinorPatch
    ensures Classify("^1.0.0", "^2.0.0") == Major
  {
    SameMajorExample();
    OtherMajorExample();
  }

  lemma SameMajorExample()
    ensures MajorOf(StripCaret("^2.1.0")) == MajorOf(StripCaret("^2.3.0")) == "2"
  {
    assert StripCaret("^2.1.0") == "2" + ['.'] + "1.0";
    assert StripCaret("^2.3.0") == "2" + ['.'] + "3.0";
    MajorOfDotted("2", "1.0");
    MajorOfDotted("2", "3.0");
  }

  lemma OtherMajorExample()
    ensures MajorOf(StripCaret("^1.0.0")) == "1" && MajorOf(StripCaret("^2.0.0")) == "2"
  {
    assert StripCaret("^1.0.0") == "1" + ['.'] + "0.0";
    assert StripCaret("^2.0.0") == "2" + ['.'] + "0.0";
    MajorOfDotted("1", "0.0");
    MajorOfDotted("2", "0.0");
  }
}
