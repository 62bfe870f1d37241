/** `ReportGenerator.generateReport` of the refactored design: filter,
    total, choose a renderer, render. */
module Refactored {
  import opened Domain
  import opened Policy
  import opened Formatters

  /** The rendered report: the total printed in the footer is taken over
      exactly the list rendered in the body, and only the final line break
      is trimmed. */
  function GenerateReport(reportType: string, user: User, items: seq<Item>): (r: string)
    ensures var f := GetFormatter(reportType);
            var filtered := FilterItems(user, items);
            r + "\n" == Header(f, user) + Body(f, user, filtered) + Footer(f, CalculateTotal(filtered))
  {
    var filteredItems := FilterItems(user, items);
    var total := CalculateTotal(filteredItems);
    var formatter := GetFormatter(reportType);
    FormatReport(formatter, user, filteredItems, total)
  }

  /** `generateReport` with the formatter lookup as JavaScript evaluates it:
      `None` stands for the TypeError that line 14 raises when the lookup
      yields an inherited `Object.prototype` member instead of a formatter.
      Otherwise it is the report of the corrected design. */
  function GenerateReportAsWritten(reportType: string, user: User, items: seq<Item>): (r: Option<string>)
    ensures r.None? <==> reportType in ObjectPrototypeKeys
    ensures r.Some? ==> r.value == GenerateReport(reportType, user, items)
  {
    var filteredItems := FilterItems(user, items);
    var total := CalculateTotal(filteredItems);
    match GetFormatterAsWritten(reportType)
    case None => None
    case Some(formatter) => Some(FormatReport(formatter, user, filteredItems, total))
  }

  /** An unrecognized report type renders the CSV report; as written, that
      holds for every unrecognized name except the inherited ones, for which
      the call throws. */
  lemma UnknownTypeRendersCsv(reportType: string, user: User, items: seq<Item>)
    requires reportType != "CSV" && reportType != "HTML"
    ensures GenerateReport(reportType, user, items) == GenerateReport("CSV", user, items)
    ensures GenerateReportAsWritten(reportType, user, items)
      == if reportType in ObjectPrototypeKeys then None else Some(GenerateReport("CSV", user, items))
  {
  }
}
