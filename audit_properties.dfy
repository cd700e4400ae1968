/** What the two aggregation policies promise, proved about their specification functions (and so,
    through the methods' postconditions, about the methods). */
module AuditProperties {
  import opened Sums
  import opened GeneralTypes
  import opened AuditCalculations

  /** Column-wise addition of two progress records. */
  function Add(p: PlanableProgress, q: PlanableProgress): PlanableProgress
  {
    PlanableProgress(p.current + q.current, p.planned + q.planned, p.total + q.total)
  }

  /** Every rule of every section, section by section and in order. */
  function AllRules(sections: seq<RequirementSection>): seq<Rule>
  {
    if |sections| == 0 then [] else AllRules(sections[..|sections| - 1]) + sections[|sections| - 1].rules
  }

  /** Every course of every rule, rule by rule and in order. */
  function AllCourses(rules: seq<Rule>): seq<Course>
  {
    if |rules| == 0 then [] else AllCourses(rules[..|rules| - 1]) + rules[|rules| - 1].courses
  }

  /** All the course hours a rule lists, whatever the courses' status. */
  function RuleHours(r: Rule): int { Sum(r.courses, CourseHours) }

  /** Two section lists that differ at most in their courses: same titles, same rules' hours. */
  predicate SameRuleHours(a: seq<RequirementSection>, b: seq<RequirementSection>)
  {
    |a| == |b| &&
    forall i :: 0 <= i < |a| ==>
      a[i].title == b[i].title &&
      |a[i].rules| == |b[i].rules| &&
      forall j :: 0 <= j < |a[i].rules| ==>
        a[i].rules[j].appliedHours == b[i].rules[j].appliedHours &&
        a[i].rules[j].requiredHours == b[i].rules[j].requiredHours
  }

  /** No course is planned, and every rule's applied hours are exactly its courses' hours. */
  predicate AppliedHoursAreCourseHours(sections: seq<RequirementSection>)
  {
    forall s, r :: s in sections && r in s.rules ==>
      r.appliedHours == Sum(r.courses, CourseHours) &&
      forall c :: c in r.courses ==> c.status != Planned
  }

  // ---------------------------------------------------------------------------------------------
  // Shape of the result

  /** An empty section list gives all-zero totals and no sections, under both policies. */
  lemma EmptyInputIsZero()
    ensures WeightedDegreeCompletion([]) == CurrentAuditProgress(PlanableProgress(0, 0, 0), [])
    ensures WeightedDegreePlanableCompletion([]) == CurrentAuditProgress(PlanableProgress(0, 0, 0), [])
  {
  }

  /** Both policies give one entry per input section, in input order, carrying its title. */
  lemma SectionsFollowInput(sections: seq<RequirementSection>)
    ensures |WeightedDegreeCompletion(sections).sections| == |sections|
    ensures |WeightedDegreePlanableCompletion(sections).sections| == |sections|
    ensures forall i :: 0 <= i < |sections| ==>
      WeightedDegreeCompletion(sections).sections[i].title == sections[i].title &&
      WeightedDegreePlanableCompletion(sections).sections[i].title == sections[i].title
  {
  }

  /** Sections are computed independently of each other, and each column of the grand total is
      its own sum: aggregating `a + b` is aggregating `a` and `b` and adding the totals column by
      column. No column is clamped against another. */
  lemma AuditAppend(a: seq<RequirementSection>, b: seq<RequirementSection>, policy: RequirementSection -> PlanableProgress)
    ensures Audit(a + b, policy).sections == Audit(a, policy).sections + Audit(b, policy).sections
    ensures Audit(a + b, policy).total == Add(Audit(a, policy).total, Audit(b, policy).total)
  {
    var sa, sb := SectionsOf(a, policy), SectionsOf(b, policy);
    assert SectionsOf(a + b, policy) == sa + sb;
    SumAppend(sa, sb, SectionCurrent);
    SumAppend(sa, sb, SectionPlanned);
    SumAppend(sa, sb, SectionTotal);
  }

  /** The grand total of a single section is that section's own progress. */
  lemma AuditSingle(s: RequirementSection, policy: RequirementSection -> PlanableProgress)
    ensures Audit([s], policy).total == policy(s)
  {
    var ss := SectionsOf([s], policy);
    assert ss == [SectionProgress(s.title, policy(s))];
    SumSingle(ss[0], SectionCurrent);
    SumSingle(ss[0], SectionPlanned);
    SumSingle(ss[0], SectionTotal);
  }

  /** Aggregating a non-empty list adds the last section's own progress to the rest's total. */
  lemma AuditSnoc(sections: seq<RequirementSection>, policy: RequirementSection -> PlanableProgress)
    requires |sections| > 0
    ensures Audit(sections, policy).total ==
      Add(Audit(sections[..|sections| - 1], policy).total, policy(sections[|sections| - 1]))
  {
    var n := |sections| - 1;
    assert sections == sections[..n] + [sections[n]];
    AuditAppend(sections[..n], [sections[n]], policy);
    AuditSingle(sections[n], policy);
  }

  // ---------------------------------------------------------------------------------------------
  // The applied-hours policy

  /** Each section's `current` is the sum of its rules' applied hours, its `total` the sum of their
      required hours, and `planned` is 0 for every section and for the grand total. */
  lemma AppliedSectionsConserveRuleHours(sections: seq<RequirementSection>)
    ensures forall i :: 0 <= i < |sections| ==>
      WeightedDegreeCompletion(sections).sections[i].progress ==
        PlanableProgress(Sum(sections[i].rules, RuleApplied), 0, Sum(sections[i].rules, RuleRequired))
    ensures WeightedDegreeCompletion(sections).total.planned == 0
  {
    var ss := SectionsOf(sections, AppliedSectionProgress);
    assert WeightedDegreeCompletion(sections).sections == ss;
    forall i | 0 <= i < |sections|
      ensures ss[i].progress == AppliedSectionProgress(sections[i])
    {
    }
    forall x | x in ss
      ensures SectionPlanned(x) == 0
    {
      var i :| 0 <= i < |ss| && ss[i] == x;
      assert x.progress == AppliedSectionProgress(sections[i]);
    }
    SumZero(ss, SectionPlanned);
  }

  /** The grand total of the applied-hours policy, read straight off the rules: applied hours and
      required hours summed over every rule of every section. */
  lemma {:induction false} AppliedTotalsOverAllRules(sections: seq<RequirementSection>)
    ensures WeightedDegreeCompletion(sections).total ==
      PlanableProgress(Sum(AllRules(sections), RuleApplied), 0, Sum(AllRules(sections), RuleRequired))
  {
    if |sections| > 0 {
      var n := |sections| - 1;
      var init, last := sections[..n], sections[n];
      AppliedTotalsOverAllRules(init);
      AuditSnoc(sections, AppliedSectionProgress);
      assert AllRules(sections) == AllRules(init) + last.rules;
      SumAppend(AllRules(init), last.rules, RuleApplied);
      SumAppend(AllRules(init), last.rules, RuleRequired);
    }
  }

  /** The applied-hours policy never looks at courses: two inputs that differ only in their courses
      give the same result. */
  lemma AppliedIgnoresCourses(a: seq<RequirementSection>, b: seq<RequirementSection>)
    requires SameRuleHours(a, b)
    ensures WeightedDegreeCompletion(a) == WeightedDegreeCompletion(b)
  {
    forall i | 0 <= i < |a|
      ensures AppliedSectionProgress(a[i]) == AppliedSectionProgress(b[i])
    {
      SumCongruent(a[i].rules, RuleApplied, b[i].rules, RuleApplied);
      SumCongruent(a[i].rules, RuleRequired, b[i].rules, RuleRequired);
    }
    assert SectionsOf(a, AppliedSectionProgress) == SectionsOf(b, AppliedSectionProgress);
  }

  // ---------------------------------------------------------------------------------------------
  // The planable policy

  /** Under the planable policy a section's `total` is the sum of its rules' required hours whatever
      its courses are, so the `total` column (each section's and the grand total) is the same as
      under the applied-hours policy. */
  lemma PlanableTotalIsRequiredHours(sections: seq<RequirementSection>)
    ensures forall i :: 0 <= i < |sections| ==>
      WeightedDegreePlanableCompletion(sections).sections[i].progress.total == Sum(sections[i].rules, RuleRequired)
    ensures WeightedDegreePlanableCompletion(sections).total.total == WeightedDegreeCompletion(sections).total.total
  {
    var planable := SectionsOf(sections, PlanableSectionProgress);
    var applied := SectionsOf(sections, AppliedSectionProgress);
    forall i | 0 <= i < |sections|
      ensures SectionTotal(planable[i]) == SectionTotal(applied[i]) == Sum(sections[i].rules, RuleRequired)
    {
    }
    SumCongruent(planable, SectionTotal, applied, SectionTotal);
  }

  /** A course's hours count as planned exactly when it is planned, and as current exactly when it
      is not: a rule's two columns are the hours of its planned and of its other courses. */
  lemma PlannedHoursArePlannedCourses(r: Rule)
    ensures RulePlanned(r) == Sum(Filter(r.courses, IsPlanned), CourseHours)
    ensures RuleCurrent(r) == Sum(Filter(r.courses, IsNotPlanned), CourseHours)
  {
    SumFilter(r.courses, IsPlanned, CourseHours, CoursePlanned);
    SumFilter(r.courses, IsNotPlanned, CourseHours, CourseCurrent);
  }

  /** Every course hour of a section lands in exactly one of `current` and `planned`. */
  lemma PlanablePartition(s: RequirementSection)
    ensures PlanableSectionProgress(s).current + PlanableSectionProgress(s).planned == Sum(s.rules, RuleHours)
  {
    forall r | r in s.rules
      ensures RuleHours(r) == RuleCurrent(r) + RulePlanned(r)
    {
      SumPointwise(r.courses, CourseCurrent, CoursePlanned, CourseHours);
    }
    SumPointwise(s.rules, RuleCurrent, RulePlanned, RuleHours);
  }

  /** A rule list's current and planned hours, read straight off its courses. */
  lemma {:induction false} RuleColumnsOverAllCourses(rules: seq<Rule>)
    ensures Sum(rules, RuleCurrent) == Sum(AllCourses(rules), CourseCurrent)
    ensures Sum(rules, RulePlanned) == Sum(AllCourses(rules), CoursePlanned)
  {
    if |rules| > 0 {
      var n := |rules| - 1;
      RuleColumnsOverAllCourses(rules[..n]);
      SumAppend(AllCourses(rules[..n]), rules[n].courses, CourseCurrent);
      SumAppend(AllCourses(rules[..n]), rules[n].courses, CoursePlanned);
    }
  }

  /** The grand total of the planable policy, read straight off the input: current and planned
      course hours over every course of every rule, required hours over every rule. */
  lemma {:induction false} PlanableTotalsOverAllCourses(sections: seq<RequirementSection>)
    ensures WeightedDegreePlanableCompletion(sections).total == PlanableProgress(
      Sum(AllCourses(AllRules(sections)), CourseCurrent),
      Sum(AllCourses(AllRules(sections)), CoursePlanned),
      Sum(AllRules(sections), RuleRequired))
  {
    if |sections| > 0 {
      var n := |sections| - 1;
      PlanableTotalsOverAllCourses(sections[..n]);
      AuditSnoc(sections, PlanableSectionProgress);
      RuleColumnsOverAllCourses(sections[n].rules);
      var before := AllCourses(AllRules(sections[..n]));
      var added := AllCourses(sections[n].rules);
      AllCoursesAppend(AllRules(sections[..n]), sections[n].rules);
      SumAppend(before, added, CourseCurrent);
      SumAppend(before, added, CoursePlanned);
      SumAppend(AllRules(sections[..n]), sections[n].rules, RuleRequired);
    }
  }

  /** Listing the courses of two rule lists one after the other. */
  lemma {:induction false} AllCoursesAppend(xs: seq<Rule>, ys: seq<Rule>)
    ensures AllCourses(xs + ys) == AllCourses(xs) + AllCourses(ys)
    decreases |ys|
  {
    if |ys| == 0 {
      assert xs + ys == xs;
    } else {
      var n := |ys| - 1;
      assert (xs + ys)[..|xs + ys| - 1] == xs + ys[..n];
      AllCoursesAppend(xs, ys[..n]);
    }
  }

  // ---------------------------------------------------------------------------------------------
  // The two policies side by side

  /** When no course is planned and every rule's applied hours are its courses' hours, the two
      policies give the same result. */
  lemma PoliciesCoincide(sections: seq<RequirementSection>)
    requires AppliedHoursAreCourseHours(sections)
    ensures WeightedDegreeCompletion(sections) == WeightedDegreePlanableCompletion(sections)
  {
    forall i | 0 <= i < |sections|
      ensures AppliedSectionProgress(sections[i]) == PlanableSectionProgress(sections[i])
    {
      var rules := sections[i].rules;
      forall r | r in rules
        ensures RuleApplied(r) == RuleCurrent(r) && RulePlanned(r) == 0
      {
        SumCongruent(r.courses, CourseHours, r.courses, CourseCurrent);
        SumZero(r.courses, CoursePlanned);
      }
      SumCongruent(rules, RuleApplied, rules, RuleCurrent);
      SumZero(rules, RulePlanned);
    }
    assert SectionsOf(sections, AppliedSectionProgress) == SectionsOf(sections, PlanableSectionProgress);
  }

  /** One "Core" section with one rule needing 10 hours, 6 of them applied, and one 6-hour course.
      The applied-hours policy gives 6 current out of 10 whatever the course's status; the planable
      policy gives 6 current out of 10 for a course that is not planned, and 6 planned out of 10 once
      it is. */
  lemma CoreScenario(status: CourseStatus)
    ensures var core := [RequirementSection("Core", [Rule(10, 6, [Course(6, status)])])];
      var applied := PlanableProgress(6, 0, 10);
      var planable := if status == Planned then PlanableProgress(0, 6, 10) else PlanableProgress(6, 0, 10);
      WeightedDegreeCompletion(core) == CurrentAuditProgress(applied, [SectionProgress("Core", applied)]) &&
      WeightedDegreePlanableCompletion(core) == CurrentAuditProgress(planable, [SectionProgress("Core", planable)])
  {
    var course := Course(6, status);
    var rule := Rule(10, 6, [course]);
    var section := RequirementSection("Core", [rule]);
    SumSingle(course, CourseCurrent);
    SumSingle(course, CoursePlanned);
    SumSingle(rule, RuleApplied);
    SumSingle(rule, RuleRequired);
    SumSingle(rule, RuleCurrent);
    SumSingle(rule, RulePlanned);
    AuditSingle(section, AppliedSectionProgress);
    AuditSingle(section, PlanableSectionProgress);
  }

  /** A rule whose courses are 3 completed, 4 planned and 2 in-progress hours puts 5 hours in
      `current` and 4 in `planned`. */
  lemma MixedStatusRule(required: int, applied: int)
    ensures var r := Rule(required, applied, [Course(3, Completed), Course(4, Planned), Course(2, InProgress)]);
      RuleCurrent(r) == 5 && RulePlanned(r) == 4
  {
    var a, b, c := Course(3, Completed), Course(4, Planned), Course(2, InProgress);
    assert [a, b, c] == [a] + [b] + [c];
    SumAppend([a] + [b], [c], CourseCurrent);
    SumAppend([a], [b], CourseCurrent);
    SumAppend([a] + [b], [c], CoursePlanned);
    SumAppend([a], [b], CoursePlanned);
    SumSingle(a, CourseCurrent);
    SumSingle(b, CourseCurrent);
    SumSingle(c, CourseCurrent);
    SumSingle(a, CoursePlanned);
    SumSingle(b, CoursePlanned);
    SumSingle(c, CoursePlanned);
  }
}
