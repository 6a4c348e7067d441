/** The max_grade gate (pkg/policy/engine.go) on top of the grade. */
module Policy {
  import opened GradeTypes
  import opened Engine
  import opened Completions
  import opened ArchivedUnread

  /** max_grade after trimming and upper-casing: absent, some other word, or a letter. */
  datatype MaxGrade = NoMax | NotALetter | AtMost(worst: Letter)

  datatype PolicyRule = PolicyRule(maxGrade: MaxGrade, allowPending: bool)

  datatype ViolationSeverity = Warning | Error

  datatype Violation = Violation(rule: string, module_: string, severity: ViolationSeverity)

  class PolicyResult {
    var pass: bool
    var violations: seq<Violation>

    constructor ()
      ensures pass && violations == []
    {
      pass, violations := true, [];
    }

    /** pass says whether no error was added. */
    ghost predicate Valid()
      reads this
    {
      pass <==> forall v :: v in violations ==> v.severity != Error
    }

    method AddWarning(rule: string, module_: string)
      requires Valid()
      modifies this
      ensures Valid() && pass == old(pass)
      ensures violations == old(violations) + [Violation(rule, module_, Warning)]
    {
      violations := violations + [Violation(rule, module_, Warning)];
    }

    method AddError(rule: string, module_: string)
      requires Valid()
      modifies this
      ensures Valid() && !pass
      ensures violations == old(violations) + [Violation(rule, module_, Error)]
    {
      pass := false;
      violations := violations + [Violation(rule, module_, Error)];
      assert violations[|violations| - 1].severity == Error;
    }
  }

  /** What evalGrade adds for a grade; None stands for a nil grade. */
  function Gate(p: PolicyRule, g: Option<Result>): seq<Violation> {
    match p.maxGrade
    case NoMax => []
    case NotALetter => [Violation("max_grade", "", Error)]
    case AtMost(worst) =>
      if g == None || g.value.letter == None then
        [Violation("max_grade", "", if p.allowPending then Warning else Error)]
      else
        var letter := g.value.letter.value;
        if letter.WorseThan(worst) then
          [Violation("max_grade", DecidingModule(g.value), Error)]
        else if g.value.archivedUnread != [] then
          [Violation("max_grade", "", if letter == worst then Error else Warning)]
        else []
  }

  function DecidingModule(g: Result): string {
    match g.deciding
    case Some(DecidingRow(m, _, _)) => m
    case _ => ""
  }

  /** evalGrade. */
  method EvalGrade(p: PolicyRule, g: Option<Result>, result: PolicyResult)
    requires result.Valid()
    modifies result
    ensures result.Valid()
    ensures result.violations == old(result.violations) + Gate(p, g)
    ensures result.pass == (old(result.pass) && !GateFails(p, g))
  {
    if p.maxGrade == NoMax {
      return;
    }
    if p.maxGrade == NotALetter {
      result.AddError("max_grade", "");
      return;
    }
    var worst := p.maxGrade.worst;
    if g == None || g.value.letter == None {
      if p.allowPending {
        result.AddWarning("max_grade", "");
      } else {
        result.AddError("max_grade", "");
      }
      return;
    }
    var letter := g.value.letter.value;
    if letter.WorseThan(worst) {
      var name := "";
      if g.value.deciding.Some? && g.value.deciding.value.DecidingRow? {
        name := g.value.deciding.value.module_;
      }
      result.AddError("max_grade", name);
      return;
    }
    if |g.value.archivedUnread| > 0 {
      if letter == worst {
        result.AddError("max_grade", "");
      } else {
        result.AddWarning("max_grade", "");
      }
    }
  }

  predicate GateFails(p: PolicyRule, g: Option<Result>) {
    exists v :: v in Gate(p, g) && v.severity == Error
  }

  /** What the gate says, case by case: nothing without a maximum; an error when it is no letter, whatever the grade; without a
      grade or a letter a warning where pending is allowed and an error where not; an error that names the deciding row for a
      worse letter; and for a letter that rests on unread flags an error at the maximum and a warning below it. It is silent
      about a maximum only for a letter no worse and with every flag read. */
  lemma GateSays(p: PolicyRule, g: Option<Result>)
    ensures p.maxGrade == NoMax ==> Gate(p, g) == []
    ensures p.maxGrade == NotALetter ==> GateFails(p, g)
    ensures |Gate(p, g)| <= 1 && forall v :: v in Gate(p, g) ==> v.rule == "max_grade"
    ensures p.maxGrade.AtMost? && g.Some? && g.value.letter.Some? ==>
      var l, unread := g.value.letter.value, g.value.archivedUnread != [];
      && (Gate(p, g) == [] <==> !l.WorseThan(p.maxGrade.worst) && !unread)
      && (GateWarns(p, g) <==> p.maxGrade.worst.WorseThan(l) && unread)
      && (GateFails(p, g) <==> l.WorseThan(p.maxGrade.worst) || (l == p.maxGrade.worst && unread))
      && (l.WorseThan(p.maxGrade.worst) && g.value.deciding.Some? && g.value.deciding.value.DecidingRow? ==>
            Gate(p, g)[0].module_ == g.value.deciding.value.module_)
    ensures p.maxGrade.AtMost? && (g == None || g.value.letter == None) ==>
      (GateWarns(p, g) <==> p.allowPending) && (GateFails(p, g) <==> !p.allowPending)
  {
    if Gate(p, g) != [] { assert Gate(p, g)[0] in Gate(p, g); }
    if p.maxGrade.AtMost? && g.Some? && g.value.letter.Some? { SameRankSame(g.value.letter.value, p.maxGrade.worst); }
  }

  lemma SameRankSame(a: Letter, b: Letter)
    ensures a.WorseThan(b) || b.WorseThan(a) || a == b
    ensures !(a.WorseThan(b) && b.WorseThan(a)) && !a.WorseThan(a)
  {
  }

  predicate GateWarns(p: PolicyRule, g: Option<Result>) {
    exists v :: v in Gate(p, g) && v.severity == Warning
  }

  lemma GateOnLetter(p: PolicyRule, g: Result)
    requires p.maxGrade.AtMost? && g.letter.Some?
    ensures GateFails(p, Some(g)) <==>
      g.letter.value.WorseThan(p.maxGrade.worst) || (g.archivedUnread != [] && g.letter.value == p.maxGrade.worst)
  {
    var v := Gate(p, Some(g));
    assert |v| > 0 ==> v[0] in v;
  }

  lemma GateOnPending(p: PolicyRule, g: Option<Result>)
    requires p.maxGrade.AtMost? && (g == None || g.value.letter == None)
    ensures GateFails(p, g) <==> !p.allowPending
  {
    assert Gate(p, g)[0] in Gate(p, g);
  }

  /** Some reading of the unread flags, none at all included, exceeds the maximum. */
  ghost predicate CouldExceed(a: Input, worst: Letter) {
    exists b :: Found(a, b) && GradeOf(b).letter.Some? && GradeOf(b).letter.value.WorseThan(worst)
  }

  lemma ExceedsWhenListed(a: Input, worst: Letter)
    requires SelfMarked(a) && GradeOf(a).pending.None? && GradeOf(a).archivedUnread != []
    ensures GradeOf(a).letter == Some(LetterA)
    ensures CouldExceed(a, worst) <==> worst == LetterA
  {
    hide GradeOf, Found, SelfMarked, AllSet;
    ListMeansAtWorstB(a);
  }

  lemma ExceedsWhenNotListed(a: Input, worst: Letter)
    requires GradeOf(a).pending.None? && GradeOf(a).archivedUnread == []
    ensures GradeOf(a).letter.Some?
    ensures CouldExceed(a, worst) <==> GradeOf(a).letter.value.WorseThan(worst)
  {
    hide GradeOf, Found;
    GivenLetter(a);
    EmptyListExact(a);
    AllSetIsFound(a);
  }

  /** The gate on a given letter is exact: it fails if and only if the unread archived flags could make the letter worse than
      the maximum, the letter as it stands included. */
  lemma GateIsExact(p: PolicyRule, a: Input)
    requires p.maxGrade.AtMost? && SelfMarked(a) && GradeOf(a).pending.None?
    ensures GradeOf(a).letter.Some?
    ensures GateFails(p, Some(GradeOf(a))) <==> CouldExceed(a, p.maxGrade.worst)
  {
    hide GradeOf, SelfMarked, GateFails, CouldExceed;
    GivenLetter(a);
    GateOnLetter(p, GradeOf(a));
    if GradeOf(a).archivedUnread == [] {
      ExceedsWhenNotListed(a, p.maxGrade.worst);
    } else {
      ExceedsWhenListed(a, p.maxGrade.worst);
    }
  }

  lemma FoundTwice(a: Input, b: Input, c: Input)
    requires Found(a, b) && Found(b, c)
    ensures Found(a, c)
  {
    forall i | 0 <= i < |a.deps| ensures RowFound(a.deps[i], c.deps[i]) {
      assert RowFound(a.deps[i], b.deps[i]) && RowFound(b.deps[i], c.deps[i]);
    }
  }

  lemma FoundMarked(a: Input, b: Input)
    requires Found(a, b) && SelfMarked(a)
    ensures SelfMarked(b)
  {
    forall i | 0 <= i < |b.deps| ensures !b.deps[i].isSelf { assert RowFound(a.deps[i], b.deps[i]); }
  }

  /** A pass is firm: reading the flags later, whatever they say, never turns it into a failure. */
  lemma PassStaysAPass(p: PolicyRule, a: Input, b: Input)
    requires p.maxGrade.AtMost? && SelfMarked(a) && GradeOf(a).pending.None? && Found(a, b)
    requires !GateFails(p, Some(GradeOf(a)))
    ensures GradeOf(b).pending.None? && !GateFails(p, Some(GradeOf(b)))
  {
    hide GradeOf, Found, SelfMarked, GateFails;
    FoundGrade(a, b);
    FoundMarked(a, b);
    GateIsExact(p, a);
    GateIsExact(p, b);
    if GateFails(p, Some(GradeOf(b))) {
      var c :| Found(b, c) && GradeOf(c).letter.Some? && GradeOf(c).letter.value.WorseThan(p.maxGrade.worst);
      FoundTwice(a, b, c);
    }
  }
}
