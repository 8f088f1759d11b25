/** Mapping publish results to AUR build entries (packaging/aur, resolve.py), from decoded values on. */
module AurResolver {
  import opened Prelude

  datatype Status = Succeeded | Skipped(reason: string) | Failed | NotStarted

  /** One package result of a publish run. */
  datatype Record = Record(version: string, status: Status)

  /** An AUR package: its main package, how that counts as available, and the packages it is built from. */
  datatype Spec = Spec(aur: string, main: string, private: bool, dependencies: set<string>)

  datatype Version = Version(pkgver: string, pkgrel: nat)

  datatype Entry = Entry(aur: string, upstream: string, version: Version)

  /** What is decided about one package; an error stops the resolution. */
  datatype Decision = Nothing | Build(entry: Entry) | Refuse

  /** The publish run, the manifest versions (absent when invalid) and the versions the AUR has. */
  datatype Facts = Facts(records: map<string, Record>, manifests: map<string, string>, aur: map<string, string>)

  // ---------------------------------------------------------------------------
  // Versions

  predicate IsDigits(s: string) {
    s != "" && forall i :: 0 <= i < |s| ==> '0' <= s[i] <= '9'
  }

  function ToNat(s: string): nat
    requires forall i :: 0 <= i < |s| ==> '0' <= s[i] <= '9'
  {
    if s == "" then 0 else 10 * ToNat(s[..|s| - 1]) + (s[|s| - 1] as int - '0' as int)
  }

  function Print(n: nat): string {
    (if n < 10 then "" else Print(n / 10)) + [('0' as int + n % 10) as char]
  }

  /** The text before and after the last dash. */
  function LastDash(s: string): Option<(string, string)> {
    if s == "" then None
    else if s[|s| - 1] == '-' then Some((s[..|s| - 1], ""))
    else
      match LastDash(s[..|s| - 1])
      case None => None
      case Some((before, after)) => Some((before, after + [s[|s| - 1]]))
  }

  function SplitVersion(version: string): Option<Version> {
    match LastDash(version)
    case None => None
    case Some((pkgver, pkgrel)) =>
      if pkgver == "" || !IsDigits(pkgrel) || ToNat(pkgrel) < 1 then None
      else Some(Version(pkgver, ToNat(pkgrel)))
  }

  function Join(version: Version): string {
    version.pkgver + "-" + Print(version.pkgrel)
  }

  /** A version as the AUR spells it: dashes become dots. */
  function Dotted(version: string): string {
    seq(|version|, i requires 0 <= i < |version| => if version[i] == '-' then '.' else version[i])
  }

  lemma {:induction false} PrintIsRead(n: nat)
    ensures IsDigits(Print(n)) && ToNat(Print(n)) == n
    ensures '-' !in Print(n)
  {
    var last := ('0' as int + n % 10) as char;
    var init := if n < 10 then "" else Print(n / 10);
    if n >= 10 {
      PrintIsRead(n / 10);
    }
    assert Print(n) == init + [last] && (init + [last])[..|init|] == init;
  }

  lemma {:induction false} LastDashOf(before: string, after: string)
    requires '-' !in after
    ensures LastDash(before + "-" + after) == Some((before, after))
    decreases |after|
  {
    var s := before + "-" + after;
    if after == "" {
      assert s == before + "-" && s[..|s| - 1] == before;
    } else {
      var n := |after| - 1;
      assert s[..|s| - 1] == before + "-" + after[..n];
      LastDashOf(before, after[..n]);
      assert after == after[..n] + [after[n]];
    }
  }

  /** Splitting undoes joining for every version a package can have. */
  lemma SplitUndoesJoin(version: Version)
    ensures SplitVersion(Join(version)) == Some(version) <==> version.pkgver != "" && version.pkgrel >= 1
  {
    PrintIsRead(version.pkgrel);
    LastDashOf(version.pkgver, Print(version.pkgrel));
  }

  // ---------------------------------------------------------------------------
  // Decisions

  predicate HasSucceeded(facts: Facts, package: string) {
    package in facts.records && facts.records[package].status.Succeeded?
  }

  predicate MainAvailable(spec: Spec, facts: Facts) {
    spec.main in facts.records &&
    var status := facts.records[spec.main].status;
    if spec.private then status == Skipped("private")
    else status.Succeeded? || status == Skipped("registry-version-exists")
  }

  predicate DependencyPublished(spec: Spec, facts: Facts) {
    exists dependency :: dependency in spec.dependencies && HasSucceeded(facts, dependency)
  }

  predicate Affected(spec: Spec, facts: Facts) {
    MainAvailable(spec, facts) || DependencyPublished(spec, facts)
  }

  function Decide(spec: Spec, facts: Facts): Decision {
    if !Affected(spec, facts) then Nothing
    else if spec.main !in facts.manifests then Refuse
    else
      var upstream, available := facts.manifests[spec.main], MainAvailable(spec, facts);
      if available && facts.records[spec.main].version != upstream then Refuse
      else if available && spec.aur !in facts.aur then Build(Entry(spec.aur, upstream, Version(Dotted(upstream), 1)))
      else if available && SplitVersion(facts.aur[spec.aur]).None? then Refuse
      else if available && SplitVersion(facts.aur[spec.aur]).value.pkgver != Dotted(upstream) then
        Build(Entry(spec.aur, upstream, Version(Dotted(upstream), 1)))
      else if HasSucceeded(facts, spec.main) then Nothing
      else if !DependencyPublished(spec, facts) then Nothing
      else if spec.aur !in facts.aur then Refuse
      else
        match SplitVersion(facts.aur[spec.aur])
        case None => Refuse
        case Some(Version(pkgver, pkgrel)) =>
          if pkgver != Dotted(upstream) then Refuse
          else Build(Entry(spec.aur, upstream, Version(pkgver, pkgrel + 1)))
  }

  /** All decisions in order; None as soon as one is refused. */
  function Resolve(specs: seq<Spec>, facts: Facts): Option<seq<Entry>> {
    if specs == [] then Some([])
    else
      match Resolve(specs[..|specs| - 1], facts)
      case None => None
      case Some(entries) =>
        match Decide(specs[|specs| - 1], facts)
        case Refuse => None
        case Nothing => Some(entries)
        case Build(entry) => Some(entries + [entry])
  }

  /** Facts that differ only in what is known about packages the run does not affect. */
  ghost predicate SameWhereAffected(specs: seq<Spec>, a: Facts, b: Facts) {
    && a.records == b.records
    && forall i :: 0 <= i < |specs| && Affected(specs[i], a) ==>
         && (specs[i].main in a.manifests <==> specs[i].main in b.manifests)
         && (specs[i].main in a.manifests ==> a.manifests[specs[i].main] == b.manifests[specs[i].main])
         && (specs[i].aur in a.aur <==> specs[i].aur in b.aur)
         && (specs[i].aur in a.aur ==> a.aur[specs[i].aur] == b.aur[specs[i].aur])
  }

  /** Manifest and AUR versions of unaffected packages, which are not even fetched, do not matter. */
  lemma {:induction false} OnlyAffectedMatter(specs: seq<Spec>, a: Facts, b: Facts)
    requires SameWhereAffected(specs, a, b)
    ensures Resolve(specs, a) == Resolve(specs, b)
    decreases |specs|
  {
    if specs != [] {
      var n := |specs| - 1;
      forall i | 0 <= i < n ensures specs[..n][i] == specs[i] {
      }
      OnlyAffectedMatter(specs[..n], a, b);
      assert Affected(specs[n], a) == Affected(specs[n], b);
      assert Decide(specs[n], a) == Decide(specs[n], b);
    }
  }

  /** The facts once the decided entry of this package has been published to the AUR. */
  function Published(spec: Spec, facts: Facts): Facts {
    match Decide(spec, facts)
    case Build(entry) => facts.(aur := facts.aur[spec.aur := Join(entry.version)])
    case _ => facts
  }

  /**
   * Resolving the same publish run again, after its entry has been published, is not always without
   * effect: it builds once more exactly if a dependency was published and the main package was not.
   */
  lemma RerunBuildsAgain(spec: Spec, facts: Facts)
    requires !Decide(spec, facts).Refuse?
    requires spec.main in facts.manifests ==> facts.manifests[spec.main] != ""
    ensures !Decide(spec, Published(spec, facts)).Refuse?
    ensures Decide(spec, Published(spec, facts)).Build? <==>
              DependencyPublished(spec, facts) && !HasSucceeded(facts, spec.main)
  {
    var decision := Decide(spec, facts);
    if decision.Build? {
      SplitUndoesJoin(decision.entry.version);
      assert decision.entry.version.pkgver != "";
    }
    var again := Published(spec, facts);
    assert DependencyPublished(spec, again) == DependencyPublished(spec, facts);
    assert MainAvailable(spec, again) == MainAvailable(spec, facts);
  }

  /** Next to a published dependency, an available main package that did not succeed is built again at the next release. */
  lemma ReleaseGoesOn(spec: Spec, facts: Facts, current: Version)
    requires MainAvailable(spec, facts) && !HasSucceeded(facts, spec.main) && DependencyPublished(spec, facts)
    requires spec.main in facts.manifests && facts.records[spec.main].version == facts.manifests[spec.main]
    requires spec.aur in facts.aur && facts.aur[spec.aur] == Join(current)
    requires current.pkgver == Dotted(facts.manifests[spec.main]) != "" && current.pkgrel >= 1
    ensures Decide(spec, facts)
            == Build(Entry(spec.aur, facts.manifests[spec.main], Version(current.pkgver, current.pkgrel + 1)))
  {
    SplitUndoesJoin(current);
  }

  /** A publish run with a new dependency of a main package that the registry has already. */
  function DependencyRun(): (Spec, Facts) {
    (Spec("a", "m", false, {"d"}),
     Facts(map["m" := Record("1", Skipped("registry-version-exists")), "d" := Record("1", Succeeded)],
           map["m" := "1"], map["a" := Join(Version("1", 1))]))
  }

  lemma DependencyRunIsAffected()
    ensures var (spec, facts) := DependencyRun();
      && MainAvailable(spec, facts) && !HasSucceeded(facts, spec.main) && DependencyPublished(spec, facts)
  {
    var (spec, facts) := DependencyRun();
    assert "d" in spec.dependencies && HasSucceeded(facts, "d");
  }

  /** Such a run builds the second release and, resolved again, the third. */
  lemma RerunCanBuildAgain()
    ensures var (spec, facts) := DependencyRun();
      && Decide(spec, facts) == Build(Entry("a", "1", Version("1", 2)))
      && Decide(spec, Published(spec, facts)) == Build(Entry("a", "1", Version("1", 3)))
  {
    var (spec, facts) := DependencyRun();
    DependencyRunIsAffected();
    assert Dotted("1") == "1";
    RerunReleasesAgain(spec, facts, Version("1", 1));
  }

  lemma RerunReleasesAgain(spec: Spec, facts: Facts, current: Version)
    requires MainAvailable(spec, facts) && !HasSucceeded(facts, spec.main) && DependencyPublished(spec, facts)
    requires spec.main in facts.manifests && facts.records[spec.main].version == facts.manifests[spec.main]
    requires spec.aur in facts.aur && facts.aur[spec.aur] == Join(current)
    requires current.pkgver == Dotted(facts.manifests[spec.main]) != "" && current.pkgrel >= 1
    ensures var upstream, pkgver, pkgrel := facts.manifests[spec.main], current.pkgver, current.pkgrel;
      && Decide(spec, facts) == Build(Entry(spec.aur, upstream, Version(pkgver, pkgrel + 1)))
      && Decide(spec, Published(spec, facts)) == Build(Entry(spec.aur, upstream, Version(pkgver, pkgrel + 2)))
  {
    ReleaseGoesOn(spec, facts, current);
    var again := Published(spec, facts);
    assert DependencyPublished(spec, again) by {
      var dependency :| dependency in spec.dependencies && HasSucceeded(facts, dependency);
      assert HasSucceeded(again, dependency);
    }
    ReleaseGoesOn(spec, again, Version(current.pkgver, current.pkgrel + 1));
  }

  /** Every published step moves a package forward: to a new version at release 1, or one release on. */
  lemma BuildsMoveForward(spec: Spec, facts: Facts)
    requires Decide(spec, facts).Build?
    ensures var version := Decide(spec, facts).entry.version;
      && version.pkgver == Dotted(facts.manifests[spec.main])
      && (spec.aur in facts.aur ==>
            match SplitVersion(facts.aur[spec.aur])
            case None => false
            case Some(current) =>
              version == if current.pkgver == version.pkgver then Version(current.pkgver, current.pkgrel + 1)
                         else Version(version.pkgver, 1))
      && (spec.aur !in facts.aur ==> version.pkgrel == 1)
  {
  }

  method ResolveAutomatic(specs: seq<Spec>, facts: Facts) returns (entries: Option<seq<Entry>>)
    ensures entries == Resolve(specs, facts)
  {
    var built: seq<Entry> := [];
    for i := 0 to |specs|
      invariant Resolve(specs[..i], facts) == Some(built)
    {
      assert specs[..i + 1][..i] == specs[..i];
      match Decide(specs[i], facts) {
        case Nothing =>
        case Build(entry) => built := built + [entry];
        case Refuse =>
          RefusedStays(specs, facts, i + 1);
          return None;
      }
    }
    assert specs[..|specs|] == specs;
    return Some(built);
  }

  lemma {:induction false} RefusedStays(specs: seq<Spec>, facts: Facts, n: nat)
    requires n <= |specs| && Resolve(specs[..n], facts) == None
    ensures Resolve(specs, facts) == None
    decreases |specs|
  {
    if n < |specs| {
      assert specs[..|specs| - 1][..n] == specs[..n];
      RefusedStays(specs[..|specs| - 1], facts, n);
    } else {
      assert specs[..n] == specs;
    }
  }
}
