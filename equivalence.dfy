/** How the refactored generator relates to the original one: for "CSV" and
    "HTML" they produce the same report whenever no item a USER sees arrives
    already flagged, and they part ways for an unrecognized report type and
    for such a pre-flagged item. */
module Equivalence {
  import opened Domain
  import opened Text
  import opened Policy
  import Formatters
  import Refactored
  import Original

  /** The original's report-type tests and the refactored formatter lookup
      agree on "CSV" and "HTML". */
  function FormatOf(kind: Original.Kind): Formatters.Format {
    if kind == Original.HtmlKind then Formatters.HTML else Formatters.CSV
  }

  /** A USER's HTML report is rendered alike by both generators only when no
      item the USER sees arrives with `priority` already set. */
  predicate NoPresetVisibleFlag(kind: Original.Kind, user: User, items: seq<Item>) {
    kind == Original.HtmlKind && user.role == Regular ==>
      forall i :: 0 <= i < |items| && items[i].value <= UserValueLimit ==> !items[i].priority
  }

  lemma CsvRowAgrees(user: User, item: Item)
    ensures Original.CsvRow(user, item) == Formatters.CsvLine(user, item) + "\n"
  {
  }

  lemma BoldRowAgrees(item: Item)
    ensures Original.BoldHtmlRow(item) == Formatters.BoldRowOpen + Formatters.HtmlCells(item)
  {
  }

  lemma PlainRowAgrees(item: Item)
    ensures Original.PlainHtmlRow(item) == "<tr>" + Formatters.HtmlCells(item)
  {
  }

  /** Both generators print the same header and the same footer. */
  lemma FramesAgree(kind: Original.Kind, user: User, total: int)
    requires kind != Original.NoKind
    ensures Original.Header(kind, user) == Formatters.Header(FormatOf(kind), user)
    ensures Original.Footer(kind, total) == Formatters.Footer(FormatOf(kind), total)
  {
    if kind == Original.CsvKind {
      assert Original.Header(kind, user) == Formatters.CsvHeader;
      assert Original.Footer(kind, total) == Formatters.CsvFooter(total);
    } else {
      assert Original.Header(kind, user) == Formatters.HtmlHeader(user);
      assert Original.Footer(kind, total) == Formatters.HtmlFooter(total);
    }
  }

  /** One loop iteration of the original emits exactly the entry the
      refactored renderer emits for the processed copy, and adds exactly the
      value the refactored total adds; an item the policy excludes
      contributes nothing to either. */
  lemma RowAgrees(kind: Original.Kind, user: User, item: Item)
    requires kind != Original.NoKind
    requires kind == Original.HtmlKind && user.role == Regular && item.value <= UserValueLimit ==> !item.priority
    ensures ShouldIncludeItem(user, item) ==>
      Original.RowOf(kind, user, Original.Touched(user, item))
        == Formatters.Entry(FormatOf(kind), user, Process(user, item))
    ensures !ShouldIncludeItem(user, item) ==> Original.RowOf(kind, user, Original.Touched(user, item)) == ""
    ensures Original.AddedToTotal(kind, user, item) == if ShouldIncludeItem(user, item) then item.value else 0
  {
    var t := Original.Touched(user, item);
    assert t == Process(user, item);
    if ShouldIncludeItem(user, item) {
      if kind == Original.CsvKind {
        CsvRowAgrees(user, t);
      } else if t.priority {
        BoldRowAgrees(t);
      } else {
        PlainRowAgrees(t);
      }
    }
  }

  /** Over any item list, the original loop's rows are the refactored body of
      the filtered list, and its running total is the refactored total. */
  lemma {:induction false} BodiesAgree(kind: Original.Kind, user: User, items: seq<Item>)
    requires kind != Original.NoKind
    requires NoPresetVisibleFlag(kind, user, items)
    ensures Original.Rows(kind, user, items) == Formatters.Body(FormatOf(kind), user, FilterItems(user, items))
    ensures Original.Total(kind, user, items) == CalculateTotal(FilterItems(user, items))
    decreases |items|
  {
    var f := FormatOf(kind);
    if items == [] {
      Formatters.BodyAppend(f, user, [], Item("", "", 0, false));
    } else {
      var n := |items| - 1;
      var prefix := items[..n];
      var item := items[n];
      assert NoPresetVisibleFlag(kind, user, prefix) by {
        assert forall i :: 0 <= i < n ==> prefix[i] == items[i];
      }
      BodiesAgree(kind, user, prefix);
      RowAgrees(kind, user, item);
      var row := Original.RowOf(kind, user, Original.Touched(user, item));
      assert Original.Rows(kind, user, items) == Original.Rows(kind, user, prefix) + row;
      assert Original.Total(kind, user, items) == Original.Total(kind, user, prefix) + Original.AddedToTotal(kind, user, item);
      var kept := FilterItems(user, prefix);
      if ShouldIncludeItem(user, item) {
        var copy := Process(user, item);
        assert FilterItems(user, items) == kept + [copy];
        Formatters.BodyAppend(f, user, kept, copy);
        assert (kept + [copy])[..|kept|] == kept;
        assert CalculateTotal(kept + [copy]) == CalculateTotal(kept) + copy.value;
      } else {
        assert FilterItems(user, items) == kept;
        assert Original.Rows(kind, user, prefix) + row == Original.Rows(kind, user, prefix);
      }
    }
  }

  /** The refactoring preserves the report: for "CSV" and "HTML", and unless
      a USER's HTML report includes an item that arrives already flagged,
      the original and the refactored generator return the same string. */
  lemma RefactoringPreservesReport(reportType: string, user: User, items: seq<Item>)
    requires reportType == "CSV" || reportType == "HTML"
    requires NoPresetVisibleFlag(Original.KindOf(reportType), user, items)
    ensures Original.ReportOf(reportType, user, items) == Refactored.GenerateReport(reportType, user, items)
  {
    var kind := Original.KindOf(reportType);
    var f := Formatters.GetFormatter(reportType);
    assert f == FormatOf(kind);
    BodiesAgree(kind, user, items);
    var total := CalculateTotal(FilterItems(user, items));
    FramesAgree(kind, user, total);
  }

  /** For an unrecognized report type the original returns the empty string,
      while the refactored one falls back to a non-empty CSV report; as
      written, the refactored one throws instead for an inherited
      `Object.prototype` name. */
  lemma UnknownTypeDiverges(reportType: string, user: User, items: seq<Item>)
    requires reportType != "CSV" && reportType != "HTML"
    ensures Original.ReportOf(reportType, user, items) == ""
    ensures Refactored.GenerateReport(reportType, user, items) == Refactored.GenerateReport("CSV", user, items)
    ensures Refactored.GenerateReport(reportType, user, items) != ""
    ensures Refactored.GenerateReportAsWritten(reportType, user, items).None?
      <==> reportType in Formatters.ObjectPrototypeKeys
  {
    Original.UnknownTypeYieldsEmpty(reportType, user, items);
    var r := Refactored.GenerateReport(reportType, user, items);
    var filtered := FilterItems(user, items);
    assert |r| + 1 == |Formatters.Header(Formatters.CSV, user) + Formatters.Body(Formatters.CSV, user, filtered)
      + Formatters.Footer(Formatters.CSV, CalculateTotal(filtered))|;
  }

  lemma OneItemOriginal(user: User, item: Item)
    requires user.role == Regular && item.value <= UserValueLimit
    ensures Original.Rows(Original.HtmlKind, user, [item]) == Original.PlainHtmlRow(item)
    ensures Original.Total(Original.HtmlKind, user, [item]) == item.value
  {
  }

  lemma OneItemRefactored(user: User, item: Item)
    requires user.role == Regular && item.value <= UserValueLimit
    ensures Formatters.Body(Formatters.HTML, user, FilterItems(user, [item])) == Formatters.HtmlRow(item)
    ensures CalculateTotal(FilterItems(user, [item])) == item.value
  {
  }

  /** Two texts that share a head and differ at some position after it
      differ. */
  lemma DifferAfterHead(head: string, x: string, y: string, tail: string, k: nat)
    requires k < |x| && k < |y| && x[k] != y[k]
    ensures head + x + tail != head + y + tail
  {
    assert (head + x + tail)[|head| + k] == x[k];
    assert (head + y + tail)[|head| + k] == y[k];
  }

  /** The bold row and the original's plain row for the same item differ in
      their fourth character: the style attribute against the closing `>`. */
  lemma BoldRowDiffersFromPlain(item: Item)
    requires item.priority
    ensures |Formatters.HtmlRow(item)| > 3 && |Original.PlainHtmlRow(item)| > 3
    ensures Formatters.HtmlRow(item)[3] != Original.PlainHtmlRow(item)[3]
  {
  }

  /** A USER's HTML report of one item the USER sees that arrives already
      flagged: the original prints a plain row, the refactored one a bold
      row, so the two reports differ. */
  lemma PresetPriorityDiverges(user: User, item: Item)
    requires user.role == Regular && item.value <= UserValueLimit && item.priority
    ensures Original.ReportOf("HTML", user, [item]) != Refactored.GenerateReport("HTML", user, [item])
  {
    var kind := Original.HtmlKind;
    var header := Formatters.Header(Formatters.HTML, user);
    var footer := Formatters.Footer(Formatters.HTML, item.value);
    FramesAgree(kind, user, item.value);
    OneItemOriginal(user, item);
    OneItemRefactored(user, item);
    Original.ReportDropsFinalNewline("HTML", user, [item]);
    var original := Original.ReportOf("HTML", user, [item]);
    var refactored := Refactored.GenerateReport("HTML", user, [item]);
    assert original + "\n" == header + Original.PlainHtmlRow(item) + footer;
    assert refactored + "\n" == header + Formatters.HtmlRow(item) + footer;
    BoldRowDiffersFromPlain(item);
    DifferAfterHead(header, Original.PlainHtmlRow(item), Formatters.HtmlRow(item), footer, 3);
  }
}
