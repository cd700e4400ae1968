/** The progress aggregation engine: two ways of turning an ordered list of requirement sections
    into per-section progress and a grand total.

    Each entry point is a method that walks the sections, rules and courses the way the source's
    nested `forEach` loops do, and is proved equal to a specification function built from sums. */
module AuditCalculations {
  import opened Sums
  import opened GeneralTypes

  /** The progress of one section, keyed by the section's title. */
  datatype SectionProgress = SectionProgress(title: string, progress: PlanableProgress)

  /** The engine's result: the grand total and one entry per input section, in input order. */
  datatype CurrentAuditProgress = CurrentAuditProgress(total: PlanableProgress, sections: seq<SectionProgress>)

  const Zero := PlanableProgress(0, 0, 0)

  // Contributions of a single course, rule or section to one column of a sum.

  function CourseHours(c: Course): int { c.hours }
  predicate IsPlanned(c: Course) { c.status == Planned }
  predicate IsNotPlanned(c: Course) { c.status != Planned }

  /** What a course adds to `current` under the planable policy. */
  function CourseCurrent(c: Course): int { if c.status != Planned then c.hours else 0 }

  /** What a course adds to `planned` under the planable policy. */
  function CoursePlanned(c: Course): int { if c.status != Planned then 0 else c.hours }

  function RuleApplied(r: Rule): int { r.appliedHours }
  function RuleRequired(r: Rule): int { r.requiredHours }
  function RuleCurrent(r: Rule): int { Sum(r.courses, CourseCurrent) }
  function RulePlanned(r: Rule): int { Sum(r.courses, CoursePlanned) }

  function SectionCurrent(s: SectionProgress): int { s.progress.current }
  function SectionPlanned(s: SectionProgress): int { s.progress.planned }
  function SectionTotal(s: SectionProgress): int { s.progress.total }

  /** A section's progress under the applied-hours policy: credited hours against required hours. */
  function AppliedSectionProgress(s: RequirementSection): PlanableProgress
  {
    PlanableProgress(Sum(s.rules, RuleApplied), 0, Sum(s.rules, RuleRequired))
  }

  /** A section's progress under the planable policy: course hours split by status, against
      required hours. */
  function PlanableSectionProgress(s: RequirementSection): PlanableProgress
  {
    PlanableProgress(Sum(s.rules, RuleCurrent), Sum(s.rules, RulePlanned), Sum(s.rules, RuleRequired))
  }

  /** One entry per section, in order, each carrying its section's title. */
  function SectionsOf(sections: seq<RequirementSection>, policy: RequirementSection -> PlanableProgress): seq<SectionProgress>
  {
    seq(|sections|, i requires 0 <= i < |sections| => SectionProgress(sections[i].title, policy(sections[i])))
  }

  /** The grand total: three independent column sums over the per-section results. */
  function Totals(ss: seq<SectionProgress>): PlanableProgress
  {
    PlanableProgress(Sum(ss, SectionCurrent), Sum(ss, SectionPlanned), Sum(ss, SectionTotal))
  }

  function Audit(sections: seq<RequirementSection>, policy: RequirementSection -> PlanableProgress): CurrentAuditProgress
  {
    var ss := SectionsOf(sections, policy);
    CurrentAuditProgress(Totals(ss), ss)
  }

  /** What `calculateWeightedDegreeCompletion` returns. */
  function WeightedDegreeCompletion(sections: seq<RequirementSection>): CurrentAuditProgress
  {
    Audit(sections, AppliedSectionProgress)
  }

  /** What `calculateWeightedDegreePlanableCompletion` returns. */
  function WeightedDegreePlanableCompletion(sections: seq<RequirementSection>): CurrentAuditProgress
  {
    Audit(sections, PlanableSectionProgress)
  }

  /** The applied-hours policy: each section adds up its rules' applied and required hours;
      `planned` is never written. */
  method CalculateWeightedDegreeCompletion(sections: seq<RequirementSection>) returns (results: CurrentAuditProgress)
    ensures results == WeightedDegreeCompletion(sections)
  {
    results := CurrentAuditProgress(Zero, []);
    for i := 0 to |sections|
      invariant results.total == Zero
      invariant |results.sections| == i
      invariant forall k :: 0 <= k < i ==>
        results.sections[k] == SectionProgress(sections[k].title, AppliedSectionProgress(sections[k]))
    {
      var section := sections[i];
      var progress := Zero;
      for j := 0 to |section.rules|
        invariant progress == PlanableProgress(Sum(section.rules[..j], RuleApplied), 0, Sum(section.rules[..j], RuleRequired))
      {
        var rule := section.rules[j];
        progress := progress.(current := progress.current + rule.appliedHours);
        progress := progress.(total := progress.total + rule.requiredHours);
        SumStep(section.rules, j, RuleApplied);
        SumStep(section.rules, j, RuleRequired);
      }
      assert section.rules[..|section.rules|] == section.rules;
      results := results.(sections := results.sections + [SectionProgress(section.title, progress)]);
    }
    assert results.sections == SectionsOf(sections, AppliedSectionProgress);
    results := results.(total := results.total.(current := Sum(results.sections, SectionCurrent)));
    results := results.(total := results.total.(total := Sum(results.sections, SectionTotal)));
    results := results.(total := results.total.(planned := Sum(results.sections, SectionPlanned)));
  }

  /** The planable policy: each section's total is the sum of its rules' required hours, and every
      course adds its hours to `planned` when it is planned and to `current` otherwise. */
  method CalculateWeightedDegreePlanableCompletion(sections: seq<RequirementSection>) returns (results: CurrentAuditProgress)
    ensures results == WeightedDegreePlanableCompletion(sections)
  {
    results := CurrentAuditProgress(Zero, []);
    for i := 0 to |sections|
      invariant results.total == Zero
      invariant |results.sections| == i
      invariant forall k :: 0 <= k < i ==>
        results.sections[k] == SectionProgress(sections[k].title, PlanableSectionProgress(sections[k]))
    {
      var section := sections[i];
      var progress := Zero;
      progress := progress.(total := Sum(section.rules, RuleRequired));
      for j := 0 to |section.rules|
        invariant progress ==
          PlanableProgress(Sum(section.rules[..j], RuleCurrent), Sum(section.rules[..j], RulePlanned), Sum(section.rules, RuleRequired))
      {
        var rule := section.rules[j];
        for k := 0 to |rule.courses|
          invariant progress == PlanableProgress(
            Sum(section.rules[..j], RuleCurrent) + Sum(rule.courses[..k], CourseCurrent),
            Sum(section.rules[..j], RulePlanned) + Sum(rule.courses[..k], CoursePlanned),
            Sum(section.rules, RuleRequired))
        {
          var course := rule.courses[k];
          if course.status != Planned {
            progress := progress.(current := progress.current + course.hours);
          } else {
            progress := progress.(planned := progress.planned + course.hours);
          }
          SumStep(rule.courses, k, CourseCurrent);
          SumStep(rule.courses, k, CoursePlanned);
        }
        assert rule.courses[..|rule.courses|] == rule.courses;
        SumStep(section.rules, j, RuleCurrent);
        SumStep(section.rules, j, RulePlanned);
      }
      assert section.rules[..|section.rules|] == section.rules;
      results := results.(sections := results.sections + [SectionProgress(section.title, progress)]);
    }
    assert results.sections == SectionsOf(sections, PlanableSectionProgress);
    results := results.(total := results.total.(current := Sum(results.sections, SectionCurrent)));
    results := results.(total := results.total.(total := Sum(results.sections, SectionTotal)));
    results := results.(total := results.total.(planned := Sum(results.sections, SectionPlanned)));
  }
}
