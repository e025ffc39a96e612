/**
 * The CSV export: the rows the filters select (no search), newest first, capped at ten
 * thousand, one line each under a fixed header. The ISO-8601 rendering of a timestamp
 * is a parameter.
 */
module AuditExport {
  import opened Wrappers
  import opened Strings
  import opened AuditLog
  import opened Pagination
  import opened AuditQuery

  const ExportCap := 10000

  const CsvHeader := "Timestamp,User,Email,Action,Resource Type,Resource Name,Endpoint,IP Address,Status Code\n"

  const FieldCount := 9

  /** `(resourceName || 'N/A').replace(/,/g, ';')` */
  function NameField(name: Option<string>): (s: string)
    ensures ',' !in s
    ensures name.None? || name.value == "" ==> s == "N/A"
    ensures name.Some? && name.value != "" ==> |s| == |name.value|
    ensures name.Some? && name.value != "" ==>
      forall i :: 0 <= i < |s| ==> s[i] == if name.value[i] == ',' then ';' else name.value[i]
  {
    ReplaceAll(OrElse(if name.Some? then name.value else "", "N/A"), ',', ';')
  }

  /** `statusCode || 'N/A'`: null and 0 are both falsy. */
  function StatusField(code: Option<int>): (s: string)
    ensures s == "N/A" <==> code.None? || code.value == 0
    ensures code.Some? && code.value > 0 ==> IsDigits(s) && DecimalValue(s) == code.value
  {
    if code.None? || code.value == 0 then "N/A" else IntToDecimal(code.value)
  }

  /**
   * The nine columns of one row, in header order: each column holds the record's own value,
   * with 'Unknown' for an empty name or email and 'N/A' for an empty address.
   */
  function CsvFields(r: AuditRecord, iso: int -> string): (fields: seq<string>)
    ensures |fields| == FieldCount
    ensures fields[0] == iso(r.createdAt)
    ensures r.userName != "" ==> fields[1] == r.userName
    ensures r.userEmail != "" ==> fields[2] == r.userEmail
    ensures fields[3] == ActionName(r.action) && ParseAction(fields[3]) == Some(r.action)
    ensures fields[4] == ResourceTypeName(r.resourceType) && ParseResourceType(fields[4]) == Some(r.resourceType)
    ensures fields[5] == NameField(r.resourceName)
    ensures fields[6] == r.endpoint
    ensures r.ipAddress.Some? && r.ipAddress.value != "" ==> fields[7] == r.ipAddress.value
    ensures r.ipAddress.Some? && r.ipAddress.value == "" ==> fields[7] == "N/A"
    ensures fields[8] == StatusField(r.statusCode)
  {
    [ iso(r.createdAt),
      OrElse(r.userName, "Unknown"),
      OrElse(r.userEmail, "Unknown"),
      ActionName(r.action),
      ResourceTypeName(r.resourceType),
      NameField(r.resourceName),
      r.endpoint,
      OrElse(if r.ipAddress.Some? then r.ipAddress.value else "", "N/A"),
      StatusField(r.statusCode) ]
  }

  function CsvRow(r: AuditRecord, iso: int -> string): string {
    Join(CsvFields(r, iso), ',')
  }

  /** The document: the header line, then the rows separated by line breaks. */
  function Csv(rows: seq<AuditRecord>, iso: int -> string): (csv: string)
    ensures |csv| >= |CsvHeader| && csv[..|CsvHeader|] == CsvHeader
  {
    CsvHeader + Join(seq(|rows|, i requires 0 <= i < |rows| => CsvRow(rows[i], iso)), '\n')
  }

  /** The rows an export holds: the filtered rows, newest first, at most ExportCap of them. */
  function ExportRows(logs: seq<AuditRecord>, f: Filters): (rows: seq<AuditRecord>)
    ensures |rows| <= ExportCap
    ensures forall x :: x in rows ==> x in logs && SatisfiesFilters(f, x)
    ensures forall i, j :: 0 <= i < j < |rows| ==> rows[i].createdAt >= rows[j].createdAt
    ensures rows == Take(NewestFirst(Matching(logs, f, "")), ExportCap)
  {
    var sorted := NewestFirst(Matching(logs, f, ""));
    var rows := Take(sorted, ExportCap);
    assert forall x :: x in rows ==> x in multiset(sorted);
    rows
  }

  /**
   * With at most ExportCap matching rows the export holds every one of them; beyond the cap
   * a matching row that is left out is no newer than any exported row.
   */
  lemma ExportComplete(logs: seq<AuditRecord>, f: Filters, x: AuditRecord)
    requires x in logs && SatisfiesFilters(f, x)
    ensures |Matching(logs, f, "")| <= ExportCap ==> x in ExportRows(logs, f)
    ensures x !in ExportRows(logs, f) ==>
      |ExportRows(logs, f)| == ExportCap &&
      forall i :: 0 <= i < |ExportRows(logs, f)| ==> x.createdAt <= ExportRows(logs, f)[i].createdAt
  {
    var sorted := NewestFirst(Matching(logs, f, ""));
    var rows := ExportRows(logs, f);
    assert x in multiset(sorted);
    var j :| 0 <= j < |sorted| && sorted[j] == x;
    if j < ExportCap {
      assert rows[j] == x;
    }
  }

  /** GET /api/audit/export: the filter query, the capped newest-first rows, and the CSV text. */
  method ExportAuditLogs(logs: seq<AuditRecord>, f: Filters, iso: int -> string) returns (csv: string)
    ensures csv == Csv(ExportRows(logs, f), iso)
  {
    var q := BuildFilterQuery(f);
    FindMatching(logs, q, f, "");
    var found := Take(NewestFirst(Find(logs, q)), ExportCap);
    var rows := seq(|found|, i requires 0 <= i < |found| => CsvRow(found[i], iso));
    csv := CsvHeader + Join(rows, '\n');
  }

  /** With no row selected the export is exactly the header line. */
  lemma EmptyExportIsHeader(iso: int -> string)
    ensures Csv([], iso) == CsvHeader
  {
  }

  /** No field but the free-text ones can hold a comma or a line break. */
  predicate PlainText(s: string) {
    ',' !in s && '\n' !in s
  }

  /** The user name, email, endpoint, address and timestamp text carry no comma or line break. */
  predicate PlainRecord(r: AuditRecord, iso: int -> string) {
    && PlainText(iso(r.createdAt)) && PlainText(r.userName) && PlainText(r.userEmail)
    && PlainText(r.endpoint) && (r.ipAddress.None? || PlainText(r.ipAddress.value))
    && (r.resourceName.None? || '\n' !in r.resourceName.value)
  }

  lemma DecimalIsPlain(n: int)
    ensures PlainText(IntToDecimal(n))
  {
    var s := NatToDecimal(if n < 0 then -n else n);
    assert IsDigits(s);
    assert forall i :: 0 <= i < |s| ==> s[i] != ',' && s[i] != '\n';
  }

  lemma NamesArePlain(r: AuditRecord)
    ensures PlainText(ActionName(r.action)) && PlainText(ResourceTypeName(r.resourceType))
  {
  }

  lemma NameFieldIsPlain(name: Option<string>)
    requires name.None? || '\n' !in name.value
    ensures PlainText(NameField(name))
  {
    var base := OrElse(if name.Some? then name.value else "", "N/A");
    assert '\n' !in base;
  }

  /** Every field of a plain record is free of commas and line breaks. */
  lemma FieldsArePlain(r: AuditRecord, iso: int -> string)
    requires PlainRecord(r, iso)
    ensures forall i :: 0 <= i < |CsvFields(r, iso)| ==> PlainText(CsvFields(r, iso)[i])
  {
    var fields := CsvFields(r, iso);
    forall i | 0 <= i < |fields|
      ensures PlainText(fields[i])
    {
      if i == 1 {
        OrElsePlain(r.userName, "Unknown");
      } else if i == 2 {
        OrElsePlain(r.userEmail, "Unknown");
      } else if i == 3 || i == 4 {
        NamesArePlain(r);
      } else if i == 5 {
        NameFieldIsPlain(r.resourceName);
      } else if i == 7 {
        OrElsePlain(if r.ipAddress.Some? then r.ipAddress.value else "", "N/A");
      } else if i == 8 {
        StatusFieldIsPlain(r.statusCode);
      }
    }
  }

  lemma OrElsePlain(s: string, fallback: string)
    requires PlainText(s) && PlainText(fallback)
    ensures PlainText(OrElse(s, fallback))
  {
  }

  lemma StatusFieldIsPlain(code: Option<int>)
    ensures PlainText(StatusField(code))
  {
    if code.Some? {
      DecimalIsPlain(code.value);
    }
  }

  /** A row of a plain record splits back into its nine fields. */
  lemma RowSplitsIntoFields(r: AuditRecord, iso: int -> string)
    requires PlainRecord(r, iso)
    ensures Split(CsvRow(r, iso), ',') == CsvFields(r, iso)
    ensures |Split(CsvRow(r, iso), ',')| == FieldCount
    ensures '\n' !in CsvRow(r, iso)
  {
    FieldsArePlain(r, iso);
    SplitJoin(CsvFields(r, iso), ',');
    JoinWithout(CsvFields(r, iso), ',', '\n');
  }

  /** A join has no character that neither the parts nor the separator have. */
  lemma {:induction false} JoinWithout(parts: seq<string>, sep: char, c: char)
    requires c != sep
    requires forall i :: 0 <= i < |parts| ==> c !in parts[i]
    ensures c !in Join(parts, sep)
  {
    if |parts| > 1 {
      JoinWithout(parts[1..], sep, c);
    }
  }

  /** After the header, an export of plain records has one line per row, so at most ExportCap lines. */
  lemma ExportLines(logs: seq<AuditRecord>, f: Filters, iso: int -> string)
    requires ExportRows(logs, f) != []
    requires forall x :: x in logs ==> PlainRecord(x, iso)
    ensures var rows := ExportRows(logs, f);
      && Split(Csv(rows, iso)[|CsvHeader|..], '\n') == seq(|rows|, i requires 0 <= i < |rows| => CsvRow(rows[i], iso))
      && |Split(Csv(rows, iso)[|CsvHeader|..], '\n')| <= ExportCap
  {
    var rows := ExportRows(logs, f);
    var lines := seq(|rows|, i requires 0 <= i < |rows| => CsvRow(rows[i], iso));
    forall i | 0 <= i < |lines|
      ensures '\n' !in lines[i]
    {
      RowSplitsIntoFields(rows[i], iso);
    }
    SplitJoin(lines, '\n');
    assert Csv(rows, iso)[|CsvHeader|..] == Join(lines, '\n');
  }

  /** The defaults: missing names become Unknown; a missing resource name, address or status becomes N/A. */
  lemma CsvDefaults(r: AuditRecord, iso: int -> string)
    ensures r.userName == "" ==> CsvFields(r, iso)[1] == "Unknown"
    ensures r.userEmail == "" ==> CsvFields(r, iso)[2] == "Unknown"
    ensures r.resourceName.None? ==> CsvFields(r, iso)[5] == "N/A"
    ensures r.ipAddress.None? ==> CsvFields(r, iso)[7] == "N/A"
    ensures r.statusCode.None? || r.statusCode == Some(0) ==> CsvFields(r, iso)[8] == "N/A"
    ensures CsvFields(r, iso)[3] in ActionNames && CsvFields(r, iso)[4] in ResourceTypeNames
  {
  }
}
