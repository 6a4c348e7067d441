/** The grade's inputs and outputs (pkg/grade/types.go): what the scanners report, and the letter's parts. */
module GradeTypes {

  datatype Option<+T> = None | Some(value: T)

  /** A *bool: nil, true or false. */
  datatype Tri = Unknown | Yes | No

  /** A severity after trimming and upper-casing; Unrated is every other word, the empty one included. */
  datatype Severity = Critical | High | Medium | Low | Unrated

  /** govulncheck's verdict after trimming and lower-casing; Undetermined is every other word. */
  datatype Reach = Called | Imported | Required | Undetermined

  datatype Tier = TierCalled | TierImported | TierGraphOnly

  datatype Letter = LetterA | LetterB | LetterC | LetterD | LetterF {
    function Rank(): (n: nat)
      ensures n <= 4
    {
      match this
      case LetterA => 0
      case LetterB => 1
      case LetterC => 2
      case LetterD => 3
      case LetterF => 4
    }

    /** The source compares letters as strings: "B" > "A" means worse. */
    predicate WorseThan(other: Letter) { Rank() > other.Rank() }
  }

  datatype Finding = Finding(
    id: string,
    aliases: seq<string>,
    severity: Severity,
    reach: Reach,
    lookupFailed: bool,
    exploited: bool)

  datatype Upkeep = Upkeep(
    archived: bool,
    deprecated: bool,
    retracted: bool,
    notAssessed: bool,
    archivedUnread: bool,
    missing: bool)

  datatype Row = Row(
    module_: string,
    isSelf: bool,
    direct: bool,
    testOnly: Tri,
    inBuild: Tri,
    findings: seq<Finding>,
    upkeep: Upkeep)

  /** The checks that did not run. */
  datatype Checks = Checks(
    vulnScanFailed: bool,
    scanTimedOut: bool,
    calledPassStale: bool,
    selfStatusFailed: bool,
    selfAdvisoriesFailed: bool,
    kevUnchecked: int,
    checksumUnverified: bool)

  datatype Input = Input(self: Row, deps: seq<Row>, checksumMismatch: bool, checks: Checks)

  function RowsOf(input: Input): (rows: seq<Row>)
    ensures |rows| == |input.deps| + 1
  {
    [input.self] + input.deps
  }

  /** Maintained stands for the active, finished and parked states, which all score 0. */
  datatype UpkeepState = NotAssessed | Archived | Deprecated | MissingData | Maintained

  /** A finding with what the grade needs to score it; score is the table value. */
  datatype Scored = Scored(finding: Finding, sev: Severity, estimated: bool, tier: Tier, assumed: bool, score: int)

  datatype RowResult = RowResult(
    module_: string,
    isSelf: bool,
    direct: bool,
    testOnly: bool,
    notBuilt: bool,
    score: int,
    vulnScore: int,
    upkeepScore: int,
    letter: Option<Letter>,
    state: UpkeepState,
    estimated: bool,
    upkeepMissed: bool,
    archivedUnread: bool)

  datatype TreeRuleName = ChecksumMismatch | CalledExploited | CalledCritical | CalledFindings | ImportedAndCalledFindings

  datatype TreeRow = TreeRow(rule: TreeRuleName, score: int)

  datatype PendingCheck =
    | VulnerabilityScan
    | ScanIncomplete
    | CalledPass
    | Checksum
    | KnownExploited
    | ModuleStatus
    | ModuleAdvisories
    | DependencyMaintenance
    | SeverityLookup

  datatype Deciding = DecidingRow(module_: string, isSelf: bool, score: int) | DecidingTree(rule: TreeRuleName, score: int)

  /** letter is None exactly when pending is set. */
  datatype Result = Result(
    letter: Option<Letter>,
    estimated: bool,
    score: int,
    deciding: Option<Deciding>,
    rows: seq<RowResult>,
    treeRows: seq<TreeRow>,
    pending: Option<PendingCheck>,
    archivedUnread: seq<string>)
}
