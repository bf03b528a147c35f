/** Parsing a whole npm report: it is accepted exactly when it is sound, and then every advisory is reported once
    against the package that owns it. */
module NpmReport {
  import opened Wrappers
  import opened NpmVia

  datatype Finding = Finding(package: string, version: Option<string>, advisory: Identifier)

  // What the lock file resolved; a package it cannot resolve is reported without a version.
  type Installed = map<string, seq<string>>

  function Versions(installed: Installed, package: string): (r: seq<Option<string>>)
    ensures r != []
  {
    if package in installed && installed[package] != [] then
      seq(|installed[package]|, i requires 0 <= i < |installed[package]| => Some(installed[package][i]))
    else [None]
  }

  ghost predicate Owns(vulns: Report, package: string, advisory: Identifier) {
    package in vulns && vulns[package].Via? &&
    exists advice :: Object(advice) in vulns[package].items && AdvisoryOf(advice) == Some(advisory)
  }

  ghost predicate Reported(vulns: Report, installed: Installed, f: Finding) {
    Owns(vulns, f.package, f.advisory) && f.version in Versions(installed, f.package)
  }

  ghost predicate NodesAreLists(vulns: Report) {
    forall name :: name in vulns ==> vulns[name].Via? && vulns[name].nodesAreList
  }

  ghost predicate Acceptable(vulns: Report, total: nat) {
    (total > 0 <==> vulns.Keys != {}) && Sound(vulns) && NodesAreLists(vulns)
  }

  // The findings of the first k branches.
  ghost predicate ReportedUpTo(items: seq<Item>, k: nat, installed: Installed, f: Finding)
    requires k <= |items|
  {
    f.version in Versions(installed, f.package) &&
    exists i :: 0 <= i < k && items[i].Object? && AdvisoryOf(items[i].advice) == Some(f.advisory)
  }

  method FindingsOf(package: string, advisory: Identifier, installed: Installed) returns (findings: seq<Finding>)
    ensures findings != []
    ensures forall f :: f in findings <==>
              f.package == package && f.advisory == advisory && f.version in Versions(installed, package)
  {
    var versions := Versions(installed, package);
    findings := [];
    for i := 0 to |versions|
      invariant |findings| == i
      invariant forall f :: f in findings <==>
                  f.package == package && f.advisory == advisory && f.version in versions[..i]
    {
      findings := findings + [Finding(package, versions[i], advisory)];
    }
    assert versions[..|versions|] == versions;
  }

  method ParseBranches(name: string, items: seq<Item>, vulns: Report, installed: Installed)
    returns (r: Result<seq<Finding>, Error>)
    ensures r.Ok? <==> forall i :: 0 <= i < |items| ==> CheckItem(items[i], vulns, {name}).None?
    ensures r.Ok? ==> forall f :: f in r.value <==> f.package == name && ReportedUpTo(items, |items|, installed, f)
    ensures r.Ok? ==> (r.value != [] <==> exists i :: 0 <= i < |items| && items[i].Object?)
  {
    var findings: seq<Finding> := [];
    for i := 0 to |items|
      invariant forall k :: 0 <= k < i ==> CheckItem(items[k], vulns, {name}).None?
      invariant forall f :: f in findings <==> f.package == name && ReportedUpTo(items, i, installed, f)
      invariant findings != [] <==> exists k :: 0 <= k < i && items[k].Object?
    {
      var item := items[i];
      if item.Ref? {
        var error := TargetReachesAdvisory(item.name, vulns, {name});
        if error.Some? {
          return Err(error.value);
        }
      } else if item.Other? {
        return Err(JsonMalformed);
      } else {
        var advisory := AdvisoryOf(item.advice);
        if advisory.None? {
          return Err(JsonIncomplete);
        }
        var more := FindingsOf(name, advisory.value, installed);
        findings := findings + more;
      }
    }
    return Ok(findings);
  }

  lemma BranchesAccepted(name: string, vulns: Report)
    requires name != "" && name in vulns && vulns[name].Via? && vulns[name].items != []
    ensures (forall i :: 0 <= i < |vulns[name].items| ==> CheckItem(vulns[name].items[i], vulns, {name}).None?)
            <==> PackageAccepted(vulns, name)
  {
    var items := vulns[name].items;
    forall i | 0 <= i < |items|
      ensures CheckItem(items[i], vulns, {name}).None? <==>
                ItemComplete(items[i]) && (items[i].Ref? ==> CheckTarget(items[i].name, vulns, {name}).None?)
    {
    }
    hide CheckItem, CheckTarget, ItemComplete;
  }

  lemma FindingsAreOwn(name: string, vulns: Report, installed: Installed, f: Finding)
    requires name in vulns && vulns[name].Via? && f.package == name
    ensures ReportedUpTo(vulns[name].items, |vulns[name].items|, installed, f) <==> Reported(vulns, installed, f)
  {
    var items := vulns[name].items;
    if advice :| Object(advice) in items && AdvisoryOf(advice) == Some(f.advisory) {
      var i :| 0 <= i < |items| && items[i] == Object(advice);
    }
  }

  // One package: its own findings, once each of its branches was followed.
  method ParsePackage(name: string, vulns: Report, installed: Installed, total: nat) returns (r: Result<seq<Finding>, Error>)
    requires name in vulns && total > 0
    ensures r.Ok? <==> PackageAccepted(vulns, name) && vulns[name].nodesAreList
    ensures r.Ok? ==> forall f :: f in r.value <==> f.package == name && Reported(vulns, installed, f)
    ensures r.Ok? ==> (HasAdvisory(vulns, name) ==> r.value != [])
  {
    var entry := vulns[name];
    if name == "" || entry.NotObject? || entry.ViaNotList? {
      return Err(JsonMalformed);
    }
    if entry.NoVia? {
      return Err(JsonIncomplete);
    }
    if entry.items == [] {
      return Err(InventoryIncomplete);
    }
    if !entry.nodesAreList {
      return Err(JsonMalformed);
    }
    r := ParseBranches(name, entry.items, vulns, installed);
    BranchesAccepted(name, vulns);
    forall f: Finding | f.package == name
      ensures ReportedUpTo(entry.items, |entry.items|, installed, f) <==> Reported(vulns, installed, f)
    {
      FindingsAreOwn(name, vulns, installed, f);
    }
    hide PackageAccepted, CheckItem, Reported, ReportedUpTo;
  }

  /** In a sound report some package has an advisory of its own, so accepting one without findings is impossible. */
  lemma SoundHasEvidence(vulns: Report) returns (name: string)
    requires Sound(vulns) && vulns.Keys != {}
    ensures name in vulns && HasAdvisory(vulns, name)
  {
    var start :| start in vulns;
    AllAcceptedIffSound(vulns);
    PackageAcceptedIff(vulns, start);
    var c := ReachesEvidence(start, vulns, {});
    name := c[|c| - 1];
  }

  /** Accepted exactly when acceptable; then the findings are exactly the advisories with their owners, and a
      non-empty report has at least one: the last guard, on a report without any, never fires. */
  method ParseNpmAudit(order: seq<string>, vulns: Report, installed: Installed, total: nat)
    returns (r: Result<seq<Finding>, Error>)
    requires forall name :: name in order <==> name in vulns
    ensures r.Ok? <==> Acceptable(vulns, total)
    ensures r.Ok? ==> forall f :: f in r.value <==> Reported(vulns, installed, f)
    ensures r.Ok? ==> (r.value != [] <==> vulns.Keys != {})
  {
    hide CheckTarget, CheckItem, PackageAccepted, Sound, HasAdvisory, Reported;
    if (total > 0) != (vulns.Keys != {}) {
      return Err(InventoryIncomplete);
    }
    AllAcceptedIffSound(vulns);
    var findings: seq<Finding> := [];
    for i := 0 to |order|
      invariant forall k :: 0 <= k < i ==>
                  PackageAccepted(vulns, order[k]) && vulns[order[k]].Via? && vulns[order[k]].nodesAreList
      invariant forall f :: f in findings <==> f.package in order[..i] && Reported(vulns, installed, f)
      invariant forall k :: 0 <= k < i && HasAdvisory(vulns, order[k]) ==> findings != []
    {
      var name := order[i];
      assert name in vulns;
      var here := ParsePackage(name, vulns, installed, total);
      AcceptedHasVia(vulns, name);
      if here.Err? {
        return Err(here.error);
      }
      findings := findings + here.value;
    }
    assert order[..|order|] == order;
    if vulns.Keys != {} {
      ghost var evidence := SoundHasEvidence(vulns);
      assert evidence in order;
    }
    ReportedInReport(vulns, installed);
    assert findings != [] ==> findings[0] in findings;
    return if total > 0 && findings == [] then Err(InventoryIncomplete) else Ok(findings);
  }

  lemma AcceptedHasVia(vulns: Report, name: string)
    ensures PackageAccepted(vulns, name) ==> name in vulns && vulns[name].Via?
  {
  }

  lemma ReportedInReport(vulns: Report, installed: Installed)
    ensures forall f :: Reported(vulns, installed, f) ==> f.package in vulns
  {
  }
}
