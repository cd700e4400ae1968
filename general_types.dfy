/** The input and output records the audit calculations work on. The repository declares them in
    lib/general-types.ts, which is not part of this model; their fields are the ones
    lib/audit-calculations.ts reads and writes. All of them are immutable values. */
module GeneralTypes {

  /** A course's status. The calculations only ever ask whether it is `Planned`. */
  datatype CourseStatus = Completed | InProgress | Planned

  /** One course taken, being taken or planned toward a rule; `hours` are its credit hours. */
  datatype Course = Course(hours: int, status: CourseStatus)

  /** A requirement inside a section: the hours it needs, the hours already credited to it by an
      earlier computation, and the courses that contribute to it. */
  datatype Rule = Rule(requiredHours: int, appliedHours: int, courses: seq<Course>)

  /** A top-level group of degree requirements, displayed under `title`. */
  datatype RequirementSection = RequirementSection(title: string, rules: seq<Rule>)

  /** Completion figures in hours: done or in progress, planned, and needed. */
  datatype PlanableProgress = PlanableProgress(current: int, planned: int, total: int)
}
