/** The renderers of the refactored generator: the closed choice between
    CSV and HTML, each variant's header, body and footer, and the shared
    `format` that joins and trims them. */
module Formatters {
  import opened Domain
  import opened Text

  /** The two `ReportFormatter` subclasses. A closed choice: no variant can
      lack a header, body or footer renderer. */
  datatype Format = CSV | HTML

  /** `getFormatter`: "HTML" selects the HTML renderer, every other report
      type the CSV renderer. */
  function GetFormatter(reportType: string): (f: Format)
    ensures f == HTML <==> reportType == "HTML"
  {
    if reportType == "CSV" then CSV
    else if reportType == "HTML" then HTML
    else CSV
  }

  /** The property names every object literal inherits from
      `Object.prototype`. */
  const ObjectPrototypeKeys: set<string> := {
    "constructor", "hasOwnProperty", "isPrototypeOf", "propertyIsEnumerable",
    "toString", "toLocaleString", "valueOf", "__proto__",
    "__defineGetter__", "__defineSetter__", "__lookupGetter__", "__lookupSetter__"
  }

  /** `formatters[reportType] || formatters['CSV']` as JavaScript evaluates
      it. An inherited key yields a truthy value that is not a formatter, so
      the fallback is skipped and `formatter.format(...)` throws a TypeError;
      `None` stands for that throw. */
  function GetFormatterAsWritten(reportType: string): (r: Option<Format>)
    ensures r.None? <==> reportType in ObjectPrototypeKeys
    ensures r.Some? ==> r.value == GetFormatter(reportType)
  {
    if reportType == "CSV" then Some(CSV)
    else if reportType == "HTML" then Some(HTML)
    else if reportType in ObjectPrototypeKeys then None
    else Some(CSV)
  }

  /** The report type "toString" is unrecognized, yet the lookup as written
      does not fall back to CSV. */
  lemma InheritedKeyDefeatsFallback()
    ensures GetFormatterAsWritten("toString") == None
    ensures GetFormatter("toString") == CSV
  {
  }

  // ---- CSV ----

  const CsvHeader := "ID,NOME,VALOR,USUARIO\n"

  function CsvLine(user: User, item: Item): string {
    item.id + "," + item.name + "," + IntToString(item.value) + "," + user.name
  }

  function CsvLines(user: User, items: seq<Item>): (lines: seq<string>)
    ensures |lines| == |items|
  {
    seq(|items|, i requires 0 <= i < |items| => CsvLine(user, items[i]))
  }

  /** `CSVFormatter.generateBody`: the lines joined by line breaks, plus a
      final line break when there is at least one item. */
  function CsvBody(user: User, items: seq<Item>): (r: string)
    ensures r == "" <==> items == []
    ensures items != [] ==> r[|r| - 1] == '\n'
  {
    Join(CsvLines(user, items), "\n") + (if |items| > 0 then "\n" else "")
  }

  /** The CSV body is empty for no items, and each further item adds its own
      line and a line break at the end: the body is the in-order
      concatenation of the items' lines, each terminated by a line break. */
  lemma CsvBodyAppend(user: User, items: seq<Item>, item: Item)
    ensures CsvBody(user, []) == ""
    ensures CsvBody(user, items + [item]) == CsvBody(user, items) + CsvLine(user, item) + "\n"
  {
    var lines := CsvLines(user, items + [item]);
    assert lines == CsvLines(user, items) + [CsvLine(user, item)];
    if items != [] {
      JoinAppend(CsvLines(user, items), CsvLine(user, item), "\n");
    }
  }

  function CsvFooter(total: int): string {
    "\nTotal,,\n" + IntToString(total) + ",,\n"
  }

  // ---- HTML ----

  function HtmlHeader(user: User): string {
    "<html><body>\n" + "<h1>Relatório</h1>\n" + "<h2>Usuário: " + user.name + "</h2>\n"
    + "<table>\n" + "<tr><th>ID</th><th>Nome</th><th>Valor</th></tr>\n"
  }

  const BoldRowOpen := "<tr style=\"font-weight:bold;\">"

  function HtmlCells(item: Item): string {
    "<td>" + item.id + "</td><td>" + item.name + "</td><td>" + IntToString(item.value) + "</td></tr>\n"
  }

  /** `generateItemRow`: the row element carries the bold style exactly when
      the item is flagged as priority. */
  function HtmlRow(item: Item): (r: string)
    ensures StartsWith(r, BoldRowOpen) <==> item.priority
    ensures |r| > 0
  {
    var r := if item.priority then BoldRowOpen + HtmlCells(item) else "<tr>" + HtmlCells(item);
    assert item.priority ==> r[..|BoldRowOpen|] == BoldRowOpen;
    assert !item.priority ==> r[3] == '>' != BoldRowOpen[3];
    r
  }

  function HtmlRows(items: seq<Item>): (rows: seq<string>)
    ensures |rows| == |items|
  {
    seq(|items|, i requires 0 <= i < |items| => HtmlRow(items[i]))
  }

  /** `HTMLFormatter.generateBody`: the rows joined with nothing between. */
  function HtmlBody(items: seq<Item>): (r: string)
    ensures r == "" <==> items == []
  {
    var rows := HtmlRows(items);
    assert items != [] ==> |rows[|rows| - 1]| > 0;
    Join(rows, "")
  }

  lemma HtmlRowsAppend(items: seq<Item>, item: Item)
    ensures HtmlRows(items + [item]) == HtmlRows(items) + [HtmlRow(item)]
  {
  }

  lemma HtmlBodySingle(item: Item)
    ensures HtmlBody([item]) == HtmlRow(item)
  {
  }

  /** The HTML body is empty for no items, and each further item adds
      exactly its row: the body is the in-order concatenation of the rows. */
  lemma HtmlBodyAppend(items: seq<Item>, item: Item)
    ensures HtmlBody([]) == ""
    ensures HtmlBody(items + [item]) == HtmlBody(items) + HtmlRow(item)
  {
    if items == [] {
      assert items + [item] == [item];
      HtmlBodySingle(item);
    } else {
      HtmlBodyExtend(items, item);
    }
  }

  lemma HtmlBodyExtend(items: seq<Item>, item: Item)
    requires items != []
    ensures HtmlBody(items + [item]) == HtmlBody(items) + HtmlRow(item)
  {
    var rows := HtmlRows(items);
    var row := HtmlRow(item);
    HtmlRowsAppend(items, item);
    JoinAppend(rows, row, "");
    assert Join(rows, "") + "" == Join(rows, "");
  }

  function HtmlFooter(total: int): string {
    "</table>\n" + "<h3>Total: " + IntToString(total) + "</h3>\n" + "</body></html>\n"
  }

  // ---- dispatch ----

  function Header(f: Format, user: User): (r: string)
    ensures |r| > 0 && !IsSpace(r[0])
  {
    match f
    case CSV => CsvHeader
    case HTML => HtmlHeader(user)
  }

  function Body(f: Format, user: User, items: seq<Item>): string {
    match f
    case CSV => CsvBody(user, items)
    case HTML => HtmlBody(items)
  }

  /** What one item contributes to the body of format `f`. */
  function Entry(f: Format, user: User, item: Item): string {
    match f
    case CSV => CsvLine(user, item) + "\n"
    case HTML => HtmlRow(item)
  }

  /** Either body is the in-order concatenation of the items' entries. */
  lemma BodyAppend(f: Format, user: User, items: seq<Item>, item: Item)
    ensures Body(f, user, []) == ""
    ensures Body(f, user, items + [item]) == Body(f, user, items) + Entry(f, user, item)
  {
    match f
    case CSV => CsvBodyAppend(user, items, item);
    case HTML => HtmlBodyAppend(items, item);
  }

  function Footer(f: Format, total: int): (r: string)
    ensures |r| >= 2 && r[|r| - 1] == '\n' && !IsSpace(r[|r| - 2])
  {
    match f
    case CSV => CsvFooter(total)
    case HTML => HtmlFooter(total)
  }

  /** `ReportFormatter.format`: header, body and footer, trimmed; the trim
      removes exactly the footer's final line break and nothing else. */
  function FormatReport(f: Format, user: User, items: seq<Item>, total: int): (r: string)
    ensures r + "\n" == Header(f, user) + Body(f, user, items) + Footer(f, total)
  {
    TrimDropsFinalNewline(Header(f, user), Body(f, user, items), Footer(f, total));
    Trim(Header(f, user) + Body(f, user, items) + Footer(f, total))
  }
}
