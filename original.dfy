/** The original single-loop `ReportGenerator.generateReport`: it appends
    header, rows and footer to one string, keeps a running total, and writes
    `priority` into the caller's item objects. */
module Original {
  import opened Domain
  import opened Text

  /** A caller's item object, whose `priority` the generator may overwrite. */
  class ItemObject {
    var id: string
    var name: string
    var value: int
    var priority: bool

    constructor (id: string, name: string, value: int, priority: bool)
      ensures this.id == id && this.name == name && this.value == value && this.priority == priority
    {
      this.id := id;
      this.name := name;
      this.value := value;
      this.priority := priority;
    }

    function View(): Item
      reads this
    {
      Item(id, name, value, priority)
    }
  }

  ghost function Objects(items: array<ItemObject>): set<ItemObject>
    reads items
  {
    set i | 0 <= i < items.Length :: items[i]
  }

  /** The items the array holds, as values. */
  ghost function Snapshot(items: array<ItemObject>): (s: seq<Item>)
    reads items, Objects(items)
    ensures |s| == items.Length
    ensures forall i :: 0 <= i < items.Length ==> s[i] == items[i].View()
  {
    seq(items.Length, i requires 0 <= i < items.Length reads items, Objects(items) => items[i].View())
  }

  /** An item as the loop reads it after `item.priority = true` has run for
      it: flagged when the user is an ADMIN and the value exceeds 1000. */
  function Touched(user: User, item: Item): Item {
    if user.role == Admin && item.value > 1000 then item.(priority := true) else item
  }

  /** The three ways the code's `reportType === 'CSV'` and
      `reportType === 'HTML'` tests can come out. */
  datatype Kind = CsvKind | HtmlKind | NoKind

  function KindOf(reportType: string): (k: Kind)
    ensures k == CsvKind <==> reportType == "CSV"
    ensures k == HtmlKind <==> reportType == "HTML"
  {
    if reportType == "CSV" then CsvKind else if reportType == "HTML" then HtmlKind else NoKind
  }

  function Header(kind: Kind, user: User): string {
    if kind == CsvKind then "ID,NOME,VALOR,USUARIO\n"
    else if kind == HtmlKind then
      "<html><body>\n" + "<h1>Relatório</h1>\n" + ("<h2>Usuário: " + user.name + "</h2>\n")
      + "<table>\n" + "<tr><th>ID</th><th>Nome</th><th>Valor</th></tr>\n"
    else ""
  }

  function CsvRow(user: User, item: Item): string {
    item.id + "," + item.name + "," + IntToString(item.value) + "," + user.name + "\n"
  }

  function BoldHtmlRow(item: Item): string {
    "<tr style=\"font-weight:bold;\"><td>" + item.id + "</td><td>" + item.name + "</td><td>"
    + IntToString(item.value) + "</td></tr>\n"
  }

  function PlainHtmlRow(item: Item): string {
    "<tr><td>" + item.id + "</td><td>" + item.name + "</td><td>" + IntToString(item.value) + "</td></tr>\n"
  }

  /** The text one loop iteration appends for `item`, the item as read after
      its in-place update. */
  function RowOf(kind: Kind, user: User, item: Item): string {
    if user.role == Admin then
      if kind == CsvKind then CsvRow(user, item)
      else if kind == HtmlKind then (if item.priority then BoldHtmlRow(item) else PlainHtmlRow(item))
      else ""
    else if user.role == Regular then
      if item.value <= 500 then
        if kind == CsvKind then CsvRow(user, item)
        else if kind == HtmlKind then PlainHtmlRow(item)
        else ""
      else ""
    else ""
  }

  /** What one loop iteration adds to `total`. */
  function AddedToTotal(kind: Kind, user: User, item: Item): int {
    if user.role == Admin then
      if kind != NoKind then item.value else 0
    else if user.role == Regular then
      if item.value <= 500 && kind != NoKind then item.value else 0
    else 0
  }

  /** The rows appended by the loop over `items`, in order. */
  function Rows(kind: Kind, user: User, items: seq<Item>): string
    decreases |items|
  {
    if items == [] then ""
    else Rows(kind, user, items[..|items| - 1]) + RowOf(kind, user, Touched(user, items[|items| - 1]))
  }

  /** `total` after the loop over `items`. */
  function Total(kind: Kind, user: User, items: seq<Item>): int
    decreases |items|
  {
    if items == [] then 0
    else Total(kind, user, items[..|items| - 1]) + AddedToTotal(kind, user, items[|items| - 1])
  }

  /** Extending the items by one extends the rows by that item's row and the
      total by its value. */
  lemma RowsStep(kind: Kind, user: User, items: seq<Item>, i: nat)
    requires i < |items|
    ensures Rows(kind, user, items[..i + 1]) == Rows(kind, user, items[..i]) + RowOf(kind, user, Touched(user, items[i]))
    ensures Total(kind, user, items[..i + 1]) == Total(kind, user, items[..i]) + AddedToTotal(kind, user, items[i])
  {
    assert items[..i + 1][..i] == items[..i];
  }

  function Footer(kind: Kind, total: int): string {
    if kind == CsvKind then "\nTotal,,\n" + (IntToString(total) + ",,\n")
    else if kind == HtmlKind then "</table>\n" + ("<h3>Total: " + IntToString(total) + "</h3>\n") + "</body></html>\n"
    else ""
  }

  /** The string `generateReport` returns for the items as they were on entry. */
  function ReportOf(reportType: string, user: User, items: seq<Item>): (r: string)
    ensures r == [] || (!IsSpace(r[0]) && !IsSpace(r[|r| - 1]))
  {
    var kind := KindOf(reportType);
    Trim(Header(kind, user) + Rows(kind, user, items) + Footer(kind, Total(kind, user, items)))
  }

  /** One pass of the loop body: for an ADMIN, sets `item.priority` in place
      when the value exceeds 1000; then appends the item's row, if the role
      and the report type call for one, to `report` and adds its value to
      `total`. */
  method AppendItem(reportType: string, user: User, item: ItemObject, report: string, total: int)
    returns (report': string, total': int)
    modifies item
    ensures item.id == old(item.id) && item.name == old(item.name) && item.value == old(item.value)
    ensures item.priority == (old(item.priority) || (user.role == Admin && item.value > 1000))
    ensures report' == report + RowOf(KindOf(reportType), user, Touched(user, old(item.View())))
    ensures total' == total + AddedToTotal(KindOf(reportType), user, old(item.View()))
  {
    report', total' := report, total;
    if user.role == Admin {
      if item.value > 1000 {
        item.priority := true;
      }

      if reportType == "CSV" {
        report' := report' + CsvRow(user, item.View());
        total' := total' + item.value;
      } else if reportType == "HTML" {
        if item.priority {
          report' := report' + BoldHtmlRow(item.View());
        } else {
          report' := report' + PlainHtmlRow(item.View());
        }
        total' := total' + item.value;
      }
    } else if user.role == Regular {
      if item.value <= 500 {
        if reportType == "CSV" {
          report' := report' + CsvRow(user, item.View());
          total' := total' + item.value;
        } else if reportType == "HTML" {
          report' := report' + PlainHtmlRow(item.View());
          total' := total' + item.value;
        }
      }
    }
  }

  /** The loop at the heart of `generateReport`: it runs the loop body over
      every item in order, appending to `report` and `total`. */
  method AppendItems(reportType: string, user: User, items: array<ItemObject>, report: string, total: int)
    returns (report': string, total': int)
    modifies Objects(items)
    ensures report' == report + Rows(KindOf(reportType), user, old(Snapshot(items)))
    ensures total' == total + Total(KindOf(reportType), user, old(Snapshot(items)))
    ensures forall i :: 0 <= i < items.Length ==>
      && items[i].id == old(items[i].id)
      && items[i].name == old(items[i].name)
      && items[i].value == old(items[i].value)
      && items[i].priority == (old(items[i].priority) || (user.role == Admin && items[i].value > 1000))
  {
    ghost var input := Snapshot(items);
    ghost var kind := KindOf(reportType);
    report', total' := report, total;
    for i := 0 to items.Length
      invariant report' == report + Rows(kind, user, input[..i])
      invariant total' == total + Total(kind, user, input[..i])
      invariant forall j :: 0 <= j < items.Length ==>
        items[j].id == input[j].id && items[j].name == input[j].name && items[j].value == input[j].value
      invariant forall j :: 0 <= j < items.Length ==>
        items[j].priority == input[j].priority || (user.role == Admin && input[j].value > 1000 && items[j].priority)
      invariant forall j :: 0 <= j < i ==> user.role == Admin && input[j].value > 1000 ==> items[j].priority
    {
      ghost var current := items[i].View();
      assert Touched(user, current) == Touched(user, input[i]);
      assert AddedToTotal(kind, user, current) == AddedToTotal(kind, user, input[i]);
      label Before:
      report', total' := AppendItem(reportType, user, items[i], report', total');
      forall j | 0 <= j < items.Length
        ensures items[j].priority == old@Before(items[j].priority) || (user.role == Admin && input[j].value > 1000 && items[j].priority)
        ensures old@Before(items[j].priority) ==> items[j].priority
      {
        if items[j] == items[i] {
          assert input[j].value == input[i].value;
        }
      }
      RowsStep(kind, user, input, i);
      AppendAssociative(report, Rows(kind, user, input[..i]), RowOf(kind, user, Touched(user, input[i])));
    }
    assert input[..items.Length] == input;
  }

  /** `generateReport`. It returns `ReportOf` of the items as they were on
      entry; afterwards each item object has its `priority` set when the user
      is an ADMIN and its value exceeds 1000, whatever the report type, and
      no other field of any item object has changed. The same object may
      occur more than once in `items`. */
  method GenerateReport(reportType: string, user: User, items: array<ItemObject>) returns (result: string)
    modifies Objects(items)
    ensures result == ReportOf(reportType, user, old(Snapshot(items)))
    ensures forall i :: 0 <= i < items.Length ==>
      && items[i].id == old(items[i].id)
      && items[i].name == old(items[i].name)
      && items[i].value == old(items[i].value)
      && items[i].priority == (old(items[i].priority) || (user.role == Admin && items[i].value > 1000))
  {
    ghost var input := Snapshot(items);
    ghost var kind := KindOf(reportType);
    var report := "";
    var total := 0;

    if reportType == "CSV" {
      report := report + "ID,NOME,VALOR,USUARIO\n";
    } else if reportType == "HTML" {
      report := report + "<html><body>\n";
      report := report + "<h1>Relatório</h1>\n";
      report := report + ("<h2>Usuário: " + user.name + "</h2>\n");
      report := report + "<table>\n";
      report := report + "<tr><th>ID</th><th>Nome</th><th>Valor</th></tr>\n";
    }
    ghost var header := report;
    assert header == Header(kind, user);

    report, total := AppendItems(reportType, user, items, report, total);

    if reportType == "CSV" {
      report := report + "\nTotal,,\n";
      report := report + (IntToString(total) + ",,\n");
    } else if reportType == "HTML" {
      report := report + "</table>\n";
      report := report + ("<h3>Total: " + IntToString(total) + "</h3>\n");
      report := report + "</body></html>\n";
    }

    ghost var body := header + Rows(kind, user, input);
    if reportType == "CSV" {
      AppendAssociative(body, "\nTotal,,\n", IntToString(total) + ",,\n");
    } else if reportType == "HTML" {
      AppendAssociative(body, "</table>\n", "<h3>Total: " + IntToString(total) + "</h3>\n");
      AppendAssociative(body, "</table>\n" + ("<h3>Total: " + IntToString(total) + "</h3>\n"), "</body></html>\n");
    }
    assert report == body + Footer(kind, total);
    assert total == Total(kind, user, input);
    assert report == Header(kind, user) + Rows(kind, user, input) + Footer(kind, Total(kind, user, input));
    result := Trim(report);
  }

  // ---- properties of the original generator ----

  /** With a report type other than "CSV" and "HTML", or a role other than
      ADMIN and USER, the loop appends nothing and adds nothing. */
  lemma {:induction false} SilentRows(kind: Kind, user: User, items: seq<Item>)
    requires kind == NoKind || user.role == Other
    ensures Rows(kind, user, items) == ""
    ensures Total(kind, user, items) == 0
    decreases |items|
  {
    if items != [] {
      SilentRows(kind, user, items[..|items| - 1]);
    }
  }

  /** An unrecognized report type yields the empty string. */
  lemma UnknownTypeYieldsEmpty(reportType: string, user: User, items: seq<Item>)
    requires reportType != "CSV" && reportType != "HTML"
    ensures ReportOf(reportType, user, items) == ""
  {
    SilentRows(NoKind, user, items);
  }

  /** A user whose role is neither ADMIN nor USER gets the report of an empty
      item list, whatever the items: header and a zero total only. */
  lemma OtherRoleSeesNoItems(reportType: string, user: User, items: seq<Item>)
    requires user.role == Other
    ensures ReportOf(reportType, user, items) == ReportOf(reportType, user, [])
  {
    SilentRows(KindOf(reportType), user, items);
  }

  /** An item gets a row exactly when the user is an ADMIN, or a USER and the
      item is worth at most 500; the total grows by the value of exactly the
      items that get a row. */
  lemma RowIffVisible(kind: Kind, user: User, item: Item)
    requires kind != NoKind
    ensures RowOf(kind, user, Touched(user, item)) != ""
      <==> user.role == Admin || (user.role == Regular && item.value <= 500)
    ensures AddedToTotal(kind, user, item)
      == if user.role == Admin || (user.role == Regular && item.value <= 500) then item.value else 0
  {
  }

  /** In the HTML report a row is bold exactly when the user is an ADMIN and
      the item was flagged on entry or is worth more than 1000; a USER never
      gets a bold row. */
  lemma HtmlRowBoldIff(user: User, item: Item)
    ensures StartsWith(RowOf(HtmlKind, user, Touched(user, item)), "<tr style=\"font-weight:bold;\">")
      <==> user.role == Admin && (item.priority || item.value > 1000)
  {
    var bold := "<tr style=\"font-weight:bold;\">";
    var t := Touched(user, item);
    var row := RowOf(HtmlKind, user, t);
    if user.role == Admin && t.priority {
      assert row == BoldHtmlRow(t);
      assert row[..|bold|] == bold;
    } else if row != "" {
      assert row == PlainHtmlRow(t);
      assert row[3] == '>' != bold[3];
    }
  }

  /** For "CSV" and "HTML" the trim removes exactly the footer's final line
      break. */
  lemma ReportDropsFinalNewline(reportType: string, user: User, items: seq<Item>)
    requires reportType == "CSV" || reportType == "HTML"
    ensures var kind := KindOf(reportType);
      ReportOf(reportType, user, items) + "\n"
      == Header(kind, user) + Rows(kind, user, items) + Footer(kind, Total(kind, user, items))
  {
    var kind := KindOf(reportType);
    var header := Header(kind, user);
    var footer := Footer(kind, Total(kind, user, items));
    var digits := IntToString(Total(kind, user, items));
    if kind == CsvKind {
      assert header[0] == 'I';
      assert footer == ("\nTotal,,\n" + digits) + ",,\n";
    } else {
      assert header[0] == '<';
      assert footer == ("</table>\n" + ("<h3>Total: " + digits + "</h3>\n")) + "</body></html>\n";
    }
    assert footer[|footer| - 1] == '\n' && !IsSpace(footer[|footer| - 2]);
    TrimDropsFinalNewline(header, Rows(kind, user, items), footer);
  }

  /** The loop treats an item it has already flagged like the unflagged one:
      its row and its contribution to the total are the same. */
  lemma TouchedTwice(kind: Kind, user: User, item: Item)
    ensures Touched(user, Touched(user, item)) == Touched(user, item)
    ensures AddedToTotal(kind, user, Touched(user, item)) == AddedToTotal(kind, user, item)
  {
  }

  /** Calling `generateReport` again on the items it has just updated gives
      the same report: the in-place flags change nothing the report shows. */
  lemma {:induction false} RepeatCallSameReport(reportType: string, user: User, before: seq<Item>, after: seq<Item>)
    requires |after| == |before|
    requires forall i :: 0 <= i < |before| ==> after[i] == Touched(user, before[i])
    ensures ReportOf(reportType, user, after) == ReportOf(reportType, user, before)
  {
    RowsOfTouched(KindOf(reportType), user, before, after);
  }

  lemma {:induction false} RowsOfTouched(kind: Kind, user: User, before: seq<Item>, after: seq<Item>)
    requires |after| == |before|
    requires forall i :: 0 <= i < |before| ==> after[i] == Touched(user, before[i])
    ensures Rows(kind, user, after) == Rows(kind, user, before)
    ensures Total(kind, user, after) == Total(kind, user, before)
    decreases |before|
  {
    if before != [] {
      var n := |before| - 1;
      RowsOfTouched(kind, user, before[..n], after[..n]);
      TouchedTwice(kind, user, before[n]);
    }
  }
}
