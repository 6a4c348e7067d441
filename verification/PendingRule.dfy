/** Which checks that did not run withhold the letter (pkg/grade/pending.go). */
module PendingRule {
  import opened GradeTypes
  import opened Scoring
  import opened Tree

  /** What an unread dependency could still score. */
  function PossibleUpkeep(d: Row): int {
    if d.testOnly == Yes || d.inBuild == No then UPKEEP_MINOR else UPKEEP_DEPENDENCY
  }

  /** The dependency's upkeep was not read and could still be worse than the score so far. */
  predicate Withholds(d: Row, score: int) {
    d.upkeep.missing && BandOf(PossibleUpkeep(d)).WorseThan(BandOf(score))
  }

  function PendingOf(input: Input, score: int): Option<PendingCheck> {
    var c := input.checks;
    if c.vulnScanFailed then Some(VulnerabilityScan)
    else if c.scanTimedOut then Some(ScanIncomplete)
    else if c.calledPassStale then Some(CalledPass)
    else if c.checksumUnverified && BandOf(TREE_F_SCORE).WorseThan(BandOf(score)) then Some(Checksum)
    else if c.kevUnchecked > 0 && BandOf(TREE_F_SCORE).WorseThan(BandOf(score)) then Some(KnownExploited)
    else if (c.selfStatusFailed || input.self.upkeep.missing) && BandOf(UPKEEP_SELF).WorseThan(BandOf(score)) then Some(ModuleStatus)
    else if c.selfAdvisoriesFailed then Some(ModuleAdvisories)
    else if exists d :: d in input.deps && Withholds(d, score) then Some(DependencyMaintenance)
    else None
  }

  /** The dependencies named in the reason, and the worst score any of them could get. */
  method Unread(deps: seq<Row>, score: int) returns (missing: seq<string>, maxPossible: int)
    ensures missing == [] <==> !exists d :: d in deps && Withholds(d, score)
    ensures forall m :: m in missing <==> exists d :: d in deps && Withholds(d, score) && d.module_ == m
    ensures forall d :: d in deps && Withholds(d, score) ==> PossibleUpkeep(d) <= maxPossible
    ensures maxPossible == 0 <==> missing == []
    ensures maxPossible > 0 ==> exists d :: d in deps && Withholds(d, score) && PossibleUpkeep(d) == maxPossible
  {
    missing, maxPossible := [], 0;
    for i := 0 to |deps|
      invariant forall m :: m in missing <==> exists k :: 0 <= k < i && Withholds(deps[k], score) && deps[k].module_ == m
      invariant forall k :: 0 <= k < i && Withholds(deps[k], score) ==> PossibleUpkeep(deps[k]) <= maxPossible
      invariant maxPossible == 0 <==> missing == []
      invariant maxPossible >= 0
      invariant maxPossible > 0 ==> exists k :: 0 <= k < i && Withholds(deps[k], score) && PossibleUpkeep(deps[k]) == maxPossible
    {
      var d := deps[i];
      if d.upkeep.missing {
        var possible := UPKEEP_DEPENDENCY;
        if d.testOnly == Yes || d.inBuild == No {
          possible := UPKEEP_MINOR;
        }
        if BandOf(possible).WorseThan(BandOf(score)) {
          missing := missing + [d.module_];
          if possible > maxPossible {
            maxPossible := possible;
          }
        }
      }
    }
    if missing != [] {
      assert missing[0] in missing;
    }
  }

  method PendingFor(input: Input, score: int) returns (p: Option<PendingCheck>)
    ensures p == PendingOf(input, score)
  {
    var c := input.checks;
    if c.vulnScanFailed {
      return Some(VulnerabilityScan);
    } else if c.scanTimedOut {
      return Some(ScanIncomplete);
    } else if c.calledPassStale {
      return Some(CalledPass);
    } else if c.checksumUnverified && BandOf(TREE_F_SCORE).WorseThan(BandOf(score)) {
      return Some(Checksum);
    } else if c.kevUnchecked > 0 && BandOf(TREE_F_SCORE).WorseThan(BandOf(score)) {
      return Some(KnownExploited);
    } else if (c.selfStatusFailed || input.self.upkeep.missing) && BandOf(UPKEEP_SELF).WorseThan(BandOf(score)) {
      return Some(ModuleStatus);
    } else if c.selfAdvisoriesFailed {
      return Some(ModuleAdvisories);
    }
    var missing, _ := Unread(input.deps, score);
    if |missing| > 0 {
      return Some(DependencyMaintenance);
    }
    return None;
  }
}
