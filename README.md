# Degree audit progress aggregation, in Dafny

This project models the progress aggregation engine of the Degree-Audit-Plus extension
(`lib/audit-calculations.ts`). The engine takes an ordered list of requirement sections. Each
section holds rules, and each rule holds courses. It produces a `CurrentAuditProgress`: one
`{title, progress}` entry per section plus a grand total, where a progress is a
`{current, planned, total}` triple of credit hours.

There are two entry points, with two deliberately different accounting policies:

- `calculateWeightedDegreeCompletion` (the applied-hours policy). A section's `current` is the sum
  of its rules' `appliedHours` and its `total` the sum of their `requiredHours`. `planned` is never
  written.
- `calculateWeightedDegreePlanableCompletion` (the planable policy). A section's `total` is the sum
  of its rules' `requiredHours`. Every course of every rule adds its `hours` to `planned` when its
  status is `Planned`, and to `current` otherwise.

In both, the grand total is three separate folds, one per column, over the per-section results.

Layout:

- `general_types.dfy` (module `GeneralTypes`): `Course`, `CourseStatus`, `Rule`,
  `RequirementSection` and `PlanableProgress` as immutable datatypes. The repository declares them
  in `lib/general-types.ts`, which is not part of this model; the fields are those the engine reads.
- `sums.dfy` (module `Sums`): `Sum`, the left fold `xs.reduce((acc, x) => acc + f(x), 0)`, and
  the facts about it the proofs use (concatenation, congruence, zeros, pointwise addition,
  filtering).
- `audit_calculations.dfy` (module `AuditCalculations`): the result types, the specification
  functions `WeightedDegreeCompletion` and `WeightedDegreePlanableCompletion`, and the two entry
  points as methods. The methods walk sections, rules and courses with nested loops, accumulate
  with `+=`-style updates, append each section's entry, and fill the grand total with the three
  folds, as the source does. Each is proved to return exactly its specification function.
- `audit_properties.dfy` (module `AuditProperties`): what the two policies promise, as lemmas
  about the specification functions.

The input is a sequence of immutable values, so neither entry point can change it. Each method's
postcondition fixes its result as a function of the input alone, so equal inputs give equal
outputs and no hidden state is involved.

## Model

| member | source | states |
|---|---|---|
| AuditCalculations.CalculateWeightedDegreeCompletion | lib/audit-calculations.ts:11-46 | the nested loops and the three folds return exactly the applied-hours audit of the input, so the result depends on the input alone |
| AuditCalculations.CalculateWeightedDegreePlanableCompletion | lib/audit-calculations.ts:48-92 | the nested loops over rules and courses and the three folds return exactly the planable audit of the input, so the result depends on the input alone |
| AuditProperties.EmptyInputIsZero | lib/audit-calculations.ts:14-17 | an empty section list gives all-zero totals and no section entries, under both policies |
| AuditProperties.SectionsFollowInput | lib/audit-calculations.ts:19-31 | both policies give exactly one entry per input section, in input order, each with its section's title |
| AuditProperties.AuditAppend | lib/audit-calculations.ts:32-43 | sections are computed independently, and each grand-total column is its own sum: aggregating `a + b` gives `a`'s entries then `b`'s, and totals that add column by column, with nothing clamped |
| AuditProperties.AppliedSectionsConserveRuleHours | lib/audit-calculations.ts:19-43 | under the applied-hours policy each section's progress is (sum of applied hours, 0, sum of required hours) over its rules, and the grand total's `planned` is 0 |
| AuditProperties.AppliedTotalsOverAllRules | lib/audit-calculations.ts:25-39 | the applied-hours grand total equals applied hours and required hours summed over every rule of every section, with 0 planned |
| AuditProperties.AppliedIgnoresCourses | lib/audit-calculations.ts:25-28 | two inputs with the same titles and the same rules' applied and required hours give the same applied-hours result, whatever their courses |
| AuditProperties.PlanableTotalIsRequiredHours | lib/audit-calculations.ts:61-64 | under the planable policy each section's `total` is the sum of its rules' required hours whatever the courses, and the grand `total` equals the applied-hours one |
| AuditProperties.PlannedHoursArePlannedCourses | lib/audit-calculations.ts:67-73 | a rule's planned hours are the hours of exactly its `Planned` courses, and its current hours those of exactly its other courses |
| AuditProperties.PlanablePartition | lib/audit-calculations.ts:66-74 | a section's planable `current + planned` equals all the course hours of its rules |
| AuditProperties.RuleColumnsOverAllCourses | lib/audit-calculations.ts:66-74 | a list of rules' current and planned hours equal the course contributions summed over all its courses in one flat list |
| AuditProperties.PlanableTotalsOverAllCourses | lib/audit-calculations.ts:56-89 | the planable grand total equals current and planned course hours over every course of the input, and required hours over every rule |
| AuditProperties.PoliciesCoincide | lib/audit-calculations.ts:11-92 | when no course is planned and each rule's applied hours equal its courses' hours, the two policies give identical results |
| AuditProperties.CoreScenario | lib/audit-calculations.ts:19-89 | one "Core" section with one 10-hour rule, 6 applied, and one 6-hour course: applied-hours gives (6, 0, 10) for any status; planable gives (6, 0, 10) unless the course is planned, then (0, 6, 10) |
| AuditProperties.MixedStatusRule | lib/audit-calculations.ts:66-74 | courses of 3 completed, 4 planned and 2 in-progress hours put 5 hours in `current` and 4 in `planned` |

## Left out

- The `console.log` calls (lib/audit-calculations.ts:18, 44, 55, 90) are output only and do not affect the result.
- Hours are unbounded integers. The source's JavaScript numbers are doubles, so fractional hours, rounding and `NaN` from missing fields are not modelled; the source does no zero-defaulting of missing fields, and neither does the model.
- `CourseStatus` has the constructors `Completed`, `InProgress` and `Planned`. The source compares the status string to `"Planned"`; any further status the real type has would behave like `Completed` and `InProgress`.
- The source updates fresh local records (`results`, `sectionProgress`) in place. The methods hold them as local values that they reassign. The records never escape before they are complete, so no aliasing is lost.
- Rendering (entrypoints/degree-audit/components/graph.tsx), the resizable sidebar (entrypoints/degree-audit/components/sidebar.tsx) and the React bootstrap (entrypoints/degree-audit/main.tsx) are presentation code outside the engine. That includes turning `current / total` into a percentage.
