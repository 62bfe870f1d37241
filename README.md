# Role-filtered report generator

This project models a small report generator. It renders a list of line items (`id`, `name`, `value`, `priority`) for a user whose role is ADMIN, USER or something else. The output is a CSV or an HTML report: a header, one row per item the user may see, and a footer with the total of the rows shown. The repository contains the generator twice:

- `src/ReportGenerator.js` is the original. It is a single loop that appends to a `report` string and a running `total`. It writes `priority = true` into the caller's item objects when an ADMIN sees an item worth more than 1000.
- `src/ReportGenerator.refactored.js` is the refactor. It has an inclusion policy that works on copies, a sum, a two-way formatter choice, and header/body/footer renderers whose concatenation is trimmed.

The Dafny modules follow that structure:

- `Text` (`text.dfy`): JavaScript's `String.prototype.trim` over the ECMAScript white-space and line-terminator characters, `Array.prototype.join`, and the decimal text of an integer.
- `Domain` (`domain.dfy`): `Role` (`Admin`, `Regular` for `'USER'`, `Other`), `User`, and the value record `Item`.
- `Policy` (`policy.dfy`): `shouldIncludeItem`, `filterItemsByUserRole` and `calculateTotal`.
  - `filterItemsByUserRole` is an imperative loop, proved against the function `FilterItems`.
- `Formatters` (`formatters.dfy`): `getFormatter`, the CSV and HTML header/body/footer renderers, `generateItemRow` and `ReportFormatter.format`.
- `Refactored` (`refactored.dfy`): the refactored `generateReport`.
- `Original` (`original.dfy`): the original `generateReport`.
  - It is a method over an `array` of `ItemObject`s, so the in-place `priority` update is visible. The same object may occur twice in the array.
  - The method is proved against `ReportOf`, a function of the items as they were on entry, and the properties are proved as lemmas about `ReportOf`.
- `Equivalence` (`equivalence.dfy`): the refactoring preserves the report for "CSV" and "HTML", with two exceptions proved separately.
  - An unknown report type gives `""` from the original and a CSV report from the refactor.
  - A USER's HTML report of an item that arrives with `priority` already set has a plain row in the original and a bold row in the refactor.

The CSV body ends in a line break whenever there is at least one item (`src/ReportGenerator.refactored.js:88`).

## Model

| member | source | states |
|---|---|---|
| Text.Trim | src/ReportGenerator.js:59 | `trim` returns a text no longer than its input that neither starts nor ends with white space |
| Text.TrimStart | src/ReportGenerator.refactored.js:64 | the leading part that `trim` removes is all white space, and what remains is a suffix of the input that does not start with white space |
| Text.TrimEnd | src/ReportGenerator.refactored.js:64 | the trailing part that `trim` removes is all white space, and what remains is a prefix of the input that does not end with white space |
| Text.TrimDropsFinalNewline | src/ReportGenerator.refactored.js:64 | a text that starts with a visible character and ends in a visible character plus `\n` loses exactly that `\n` under `trim` |
| Text.JoinAppend | src/ReportGenerator.refactored.js:88 | `join` of one more part appends the separator and that part |
| Text.NatToString | src/ReportGenerator.js:27 | `${value}` of a natural number is a non-empty run of digits without a leading zero |
| Text.IntToString | src/ReportGenerator.js:52 | `${total}` is non-empty and starts with `-` exactly when the number is negative |
| Policy.Process | src/ReportGenerator.refactored.js:22-26 | the processed copy keeps `id`, `name` and `value`; its `priority` is the input's or'ed with "ADMIN and value > 1000" |
| Policy.ShouldIncludeItem | src/ReportGenerator.refactored.js:35-41 | an ADMIN sees every item, a USER exactly the items worth at most 500, any other role none |
| Policy.FilterItems | src/ReportGenerator.refactored.js:17-33 | the filtered list is no longer than the input and holds only items the policy includes |
| Policy.FilterItemsByUserRole | src/ReportGenerator.refactored.js:17-33 | the push loop builds exactly `FilterItems`: the processed copies of the included items, in input order |
| Policy.AdminKeepsEveryItem | src/ReportGenerator.refactored.js:17-41 | for an ADMIN the filtered list has the input's length, and item i is item i of the input with `priority` set when its value exceeds 1000 |
| Policy.RegularKeepsSmallItemsInOrder | src/ReportGenerator.refactored.js:35-41 | for a USER the filtered list is an in-order subsequence of the input, and it holds each item worth at most 500 exactly as many times as the input and no other item |
| Policy.OtherRoleKeepsNothing | src/ReportGenerator.refactored.js:35-41 | for a role other than ADMIN and USER the filtered list is empty |
| Policy.PriorityOnlyForLargeAdminItems | src/ReportGenerator.refactored.js:24-25 | for items that arrive unflagged, a filtered item is flagged if and only if the user is an ADMIN and its value exceeds 1000 |
| Policy.CalculateTotalAppend | src/ReportGenerator.refactored.js:43-45 | the total of a concatenation is the sum of the totals; with the total of `[]` being 0, the total is the sum of the values |
| Policy.CalculateTotal | src/ReportGenerator.refactored.js:43-45 | the total of no items is 0, and it is never negative when no value is |
| Formatters.GetFormatter | src/ReportGenerator.refactored.js:47-54 | "HTML" selects the HTML renderer, and every other string, "CSV" included, selects the CSV renderer |
| Formatters.GetFormatterAsWritten | src/ReportGenerator.refactored.js:53 | the lookup as JavaScript evaluates it fails exactly for the names inherited from `Object.prototype`, and otherwise agrees with `GetFormatter` |
| Formatters.InheritedKeyDefeatsFallback | src/ReportGenerator.refactored.js:53 | "toString" is an unknown report type, yet the lookup as written yields no formatter instead of CSV |
| Formatters.CsvBodyAppend | src/ReportGenerator.refactored.js:85-89 | the CSV body is empty for no items, and each item adds its `id,name,value,user` line followed by `\n`, in order |
| Formatters.CsvBody | src/ReportGenerator.refactored.js:85-89 | the CSV body is empty exactly when there are no items, and otherwise ends in `\n` |
| Formatters.HtmlRow | src/ReportGenerator.refactored.js:112-117 | a row starts with `<tr style="font-weight:bold;">` if and only if the item's `priority` is set |
| Formatters.HtmlBodyAppend | src/ReportGenerator.refactored.js:106-110 | the HTML body is empty for no items, and each item adds exactly its row, with nothing in between |
| Formatters.HtmlBody | src/ReportGenerator.refactored.js:106-110 | the HTML body is empty exactly when there are no items |
| Formatters.Header | src/ReportGenerator.refactored.js:81-104 | both headers are non-empty and start with a visible character |
| Formatters.BodyAppend | src/ReportGenerator.refactored.js:85-110 | either body is the in-order concatenation of the items' entries |
| Formatters.Footer | src/ReportGenerator.refactored.js:91-124 | both footers end in a visible character followed by one `\n` |
| Formatters.FormatReport | src/ReportGenerator.refactored.js:60-65 | `format` returns header + body + footer with exactly the final `\n` removed |
| Refactored.GenerateReport | src/ReportGenerator.refactored.js:9-15 | the report is header, body and footer without the final `\n`, where the footer's total is taken over exactly the filtered list that the body renders |
| Refactored.GenerateReportAsWritten | src/ReportGenerator.refactored.js:9-15 | with the lookup as written, the call throws exactly for the names inherited from `Object.prototype`, and otherwise returns the report of the corrected design |
| Refactored.UnknownTypeRendersCsv | src/ReportGenerator.refactored.js:53 | an unknown report type gives the CSV report; as written, the call throws instead for an inherited name and gives the CSV report for every other unknown name |
| Original.KindOf | src/ReportGenerator.js:10-12 | the report type selects CSV exactly when it is "CSV", and HTML exactly when it is "HTML" |
| Original.ReportOf | src/ReportGenerator.js:6-60 | the report the original returns neither starts nor ends with white space |
| Original.AppendItem | src/ReportGenerator.js:21-47 | one loop pass flags the object in place when the user is an ADMIN and the value exceeds 1000, changes no other field, and appends that item's row and value |
| Original.AppendItems | src/ReportGenerator.js:20-48 | the loop appends the rows of the items in order and adds their contributions to `total`; afterwards every object is flagged as above, whether or not it occurs twice |
| Original.GenerateReport | src/ReportGenerator.js:6-60 | the result is `ReportOf` of the items as they were on entry; every large item of an ADMIN is flagged in place, and no other field changes |
| Original.SilentRows | src/ReportGenerator.js:20-48 | for an unknown report type, or a role other than ADMIN and USER, the loop appends nothing and `total` stays 0 |
| Original.UnknownTypeYieldsEmpty | src/ReportGenerator.js:10-59 | a report type other than "CSV" and "HTML" yields the empty string |
| Original.OtherRoleSeesNoItems | src/ReportGenerator.js:20-48 | for a role other than ADMIN and USER the report is the one for no items |
| Original.RowIffVisible | src/ReportGenerator.js:20-48 | for "CSV" and "HTML", an item gets a row if and only if the user is an ADMIN, or a USER and the item is worth at most 500; `total` grows by the value of exactly those items |
| Original.HtmlRowBoldIff | src/ReportGenerator.js:29-34 | an HTML row is bold if and only if the user is an ADMIN and the item arrived flagged or is worth more than 1000; USER rows are never bold |
| Original.ReportDropsFinalNewline | src/ReportGenerator.js:50-59 | for "CSV" and "HTML", `trim` removes exactly the footer's final `\n` and nothing else |
| Original.TouchedTwice | src/ReportGenerator.js:22-24 | flagging an item twice is flagging it once, and the flag does not change what the item adds to `total` |
| Original.RepeatCallSameReport | src/ReportGenerator.js:6-60 | calling `generateReport` again on the items it has just flagged returns the same report |
| Equivalence.FramesAgree | src/ReportGenerator.refactored.js:81-124 | the original and the refactor print the same header and the same footer for "CSV" and "HTML" |
| Equivalence.RowAgrees | src/ReportGenerator.js:21-47 | for "CSV" and "HTML", one pass of the original loop emits the refactored entry of the processed copy, or nothing for an excluded item, and adds exactly what the refactored total adds, unless a USER's HTML report includes an item that arrives already flagged |
| Equivalence.BodiesAgree | src/ReportGenerator.js:20-48 | for "CSV" and "HTML", the original loop's rows are the refactored body of the filtered list, and its total is the refactored total, unless a USER's HTML report includes an item that arrives already flagged |
| Equivalence.RefactoringPreservesReport | src/ReportGenerator.refactored.js:9-15 | for "CSV" and "HTML", both versions return the same report, unless a USER's HTML report includes an item that arrives already flagged |
| Equivalence.UnknownTypeDiverges | src/ReportGenerator.js:10-18 | for an unknown report type the original returns `""` and the corrected refactor the non-empty CSV report; the refactor as written throws exactly for the inherited names |
| Equivalence.BoldRowDiffersFromPlain | src/ReportGenerator.refactored.js:113-116 | a bold row and the original's plain row for the same item differ in their fourth character |
| Equivalence.PresetPriorityDiverges | src/ReportGenerator.js:43 | a USER's HTML report of one visible item that arrives flagged differs between the original (plain row) and the refactor (bold row) |

## Left out

- The `database` constructor argument (`src/ReportGenerator.js:2-4`, `src/ReportGenerator.refactored.js:5-7`): it is stored and never used.
- JavaScript numbers: `value` and `total` are unbounded integers. Floating point, `NaN`, and missing or non-numeric values are not modelled.
- Number-to-text conversion inside template literals is modelled as plain decimal text of an integer. JavaScript's `ToString` for non-integral or very large numbers is not modelled.
- The `NOT_IMPLEMENTED_ERROR` throws of the abstract `ReportFormatter` (`src/ReportGenerator.refactored.js:57-77`) cannot happen: `Format` is a closed datatype, so every variant has a header, a body and a footer.
- `priority` is a `bool`. An absent flag is modelled as `false`, and a truthy non-boolean flag as `true`.
- The refactored generator works on item values. It cannot change its caller's items, because the code copies each one (`{ ...item }`), so that guarantee holds by construction and is not a separate lemma.
- The straight-line `+=` chains in `HTMLFormatter.generateHeader` and `generateFooter` are modelled as the concatenations they build. They have no branches or loops.
- Original.GenerateReport: its loop is split into the methods `AppendItems` (the loop) and `AppendItem` (one pass of the body) so that each proof stays small. The order of steps and the updates are those of the single method.
- Original.ReportOf: the two report-type tests are expressed through `Kind` (`KindOf`), a three-way datatype. The method itself compares the strings as the code does.
- `trim` is modelled over the ECMAScript white-space and line-terminator characters. No Unicode normalisation is involved.
- Refactored.GenerateReport: it composes the corrected lookup `Formatters.GetFormatter`, so for the names inherited from `Object.prototype` (such as "toString") it returns the CSV report where the code as written throws a TypeError at `src/ReportGenerator.refactored.js:14`. That throw is captured by `Refactored.GenerateReportAsWritten` instead.
- Refactored.UnknownTypeRendersCsv: its first clause is about the corrected composition. Its second clause gives the behaviour as written, which throws for the inherited names.
- Equivalence.UnknownTypeDiverges: the non-empty CSV report it states for the refactor is that of the corrected composition. Its last clause states that the code as written throws exactly for the inherited names.

## Findings

| source | as written | input that shows it | evidently intended | confidence | as-written member | corrected member |
|---|---|---|---|---|---|---|
| src/ReportGenerator.refactored.js:53 | `formatters[reportType] \|\| formatters['CSV']` reads properties inherited from `Object.prototype`, so the fallback is skipped for such names | `reportType = "toString"` (also `"constructor"`, `"__proto__"`, `"valueOf"`, …): the lookup yields a function, which is truthy, and `formatter.format(...)` at line 14 throws a TypeError | every report type other than "HTML" falls back to the CSV renderer | not executed | Formatters.GetFormatterAsWritten, Formatters.InheritedKeyDefeatsFallback, Refactored.GenerateReportAsWritten | Formatters.GetFormatter |
