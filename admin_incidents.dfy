/** The admin Incidents page (van-rakshak-admin/src/pages/Incidents.jsx):
    the table of incidents with search, status and priority filters, three
    sort orders, inline status change, confirmed delete and CSV export. */
module AdminIncidents {
  import opened Common
  import Text
  import Lists
  import ArraySort

  /** One row of the page's incident list. */
  datatype IncidentRow = IncidentRow(
    id: string, kind: string, location: string, priority: string, status: string,
    reportedBy: string, reportedAt: string, description: string, coordinates: string, images: nat)

  /** The filter value that switches a filter off. */
  const All := "All"

  /** The search box: a case-insensitive substring of the id, the type or
      the location. */
  predicate MatchesSearch(row: IncidentRow, term: string) {
    var t := Text.ToLower(term);
    Text.Contains(Text.ToLower(row.id), t) || Text.Contains(Text.ToLower(row.kind), t)
    || Text.Contains(Text.ToLower(row.location), t)
  }

  predicate Matches(row: IncidentRow, term: string, status: string, priority: string) {
    && MatchesSearch(row, term)
    && (status == All || row.status == status)
    && (priority == All || row.priority == priority)
  }

  /** An empty search matches every row. */
  lemma EmptySearchMatchesAll(row: IncidentRow)
    ensures MatchesSearch(row, "")
  {
    Text.ContainsEmpty(Text.ToLower(row.id));
  }

  /** The search ignores the case of the term. */
  lemma SearchIgnoresCase(row: IncidentRow, term: string)
    ensures MatchesSearch(row, term) == MatchesSearch(row, Text.ToLower(term))
  {
    Text.ToLowerIdempotent(term);
  }

  /** `filteredIncidents` before sorting. */
  function Filtered(rows: seq<IncidentRow>, term: string, status: string, priority: string): seq<IncidentRow> {
    Lists.Keep(rows, (row: IncidentRow) => Matches(row, term, status, priority))
  }

  /** The filtered list keeps the matching rows, in order, and no other;
      with every filter off it is the whole list. */
  lemma FilteredSpec(rows: seq<IncidentRow>, term: string, status: string, priority: string)
    ensures Lists.IsSubsequence(Filtered(rows, term, status, priority), rows)
    ensures |Filtered(rows, term, status, priority)| <= |rows|
    ensures forall x :: x in Filtered(rows, term, status, priority) <==> x in rows && Matches(x, term, status, priority)
    ensures term == "" && status == All && priority == All ==> Filtered(rows, term, status, priority) == rows
  {
    var p := (row: IncidentRow) => Matches(row, term, status, priority);
    Lists.KeepIsSubsequence(rows, p);
    forall x ensures x in Filtered(rows, term, status, priority) <==> x in rows && p(x) {
      Lists.KeepMembers(rows, p, x);
    }
    if term == "" && status == All && priority == All {
      forall i | 0 <= i < |rows| ensures p(rows[i]) {
        EmptySearchMatchesAll(rows[i]);
      }
      Lists.KeepAll(rows, p);
    }
  }

  /** `priorityOrder`; a priority outside the table sorts last. */
  function PriorityRank(priority: string): (r: nat)
    ensures r <= 4
    ensures r < 4 <==> priority in {"Critical", "High", "Medium", "Low"}
  {
    match priority
    case "Critical" => 0
    case "High" => 1
    case "Medium" => 2
    case "Low" => 3
    case _ => 4
  }

  /** The sort key of each order: `newest` sorts by the negated date,
      `oldest` by the date, `priority` by rank; any other choice leaves
      the filtered order. `time` parses `reportedAt`. */
  function SortKey(sortBy: string, time: string -> int): Option<IncidentRow -> int> {
    if sortBy == "newest" then Some((row: IncidentRow) => -time(row.reportedAt))
    else if sortBy == "oldest" then Some((row: IncidentRow) => time(row.reportedAt))
    else if sortBy == "priority" then Some((row: IncidentRow) => PriorityRank(row.priority))
    else None
  }

  /** `getPriorityColor`. */
  function PriorityColor(priority: string): (c: string)
    ensures c != "#666" <==> Text.ToLower(priority) in {"critical", "high", "medium", "low"}
  {
    match Text.ToLower(priority)
    case "critical" => "#dc2626"
    case "high" => "#ea580c"
    case "medium" => "#f59e0b"
    case "low" => "#16a34a"
    case _ => "#666"
  }

  /** `getStatusColor`. */
  function StatusColor(status: string): (c: string)
    ensures c != "#666" <==> Text.ToLower(status) in {"open", "in progress", "resolved", "closed"}
  {
    match Text.ToLower(status)
    case "open" => "#3b82f6"
    case "in progress" => "#f59e0b"
    case "resolved" => "#16a34a"
    case "closed" => "#6b7280"
    case _ => "#666"
  }

  /** Both colour lookups ignore letter case. */
  lemma ColorsIgnoreCase(s: string)
    ensures PriorityColor(Text.ToLower(s)) == PriorityColor(s)
    ensures StatusColor(Text.ToLower(s)) == StatusColor(s)
  {
    Text.ToLowerIdempotent(s);
  }

  /** `handleStatusChange` on the list. */
  function StatusChanged(rows: seq<IncidentRow>, id: string, status: string): (r: seq<IncidentRow>)
    ensures |r| == |rows|
    ensures forall i :: 0 <= i < |rows| ==> r[i] == if rows[i].id == id then rows[i].(status := status) else rows[i]
  {
    seq(|rows|, i requires 0 <= i < |rows| => if rows[i].id == id then rows[i].(status := status) else rows[i])
  }

  /** A status change keeps every row's place and every field but the
      status of the matching rows; a second change overrides the first. */
  lemma StatusChangeProperties(rows: seq<IncidentRow>, id: string, s1: string, s2: string)
    ensures forall i :: 0 <= i < |rows| ==> StatusChanged(rows, id, s1)[i].(status := rows[i].status) == rows[i]
    ensures forall i :: 0 <= i < |rows| && rows[i].id == id ==> StatusChanged(rows, id, s1)[i].status == s1
    ensures StatusChanged(StatusChanged(rows, id, s1), id, s2) == StatusChanged(rows, id, s2)
  {
  }

  /** The column titles of the export. */
  const Header: seq<string> := ["ID", "Type", "Location", "Priority", "Status", "Reported By", "Reported At"]

  function Cells(row: IncidentRow): (r: seq<string>)
    ensures |r| == |Header|
  {
    [row.id, row.kind, row.location, row.priority, row.status, row.reportedBy, row.reportedAt]
  }

  /** The CSV lines: the header, then one comma-joined line per row. */
  function Lines(rows: seq<IncidentRow>): (r: seq<string>)
    ensures |r| == |rows| + 1
    ensures r[0] == Text.Join(Header, ',')
    ensures forall i :: 0 <= i < |rows| ==> r[i + 1] == Text.Join(Cells(rows[i]), ',')
  {
    [Text.Join(Header, ',')] + seq(|rows|, i requires 0 <= i < |rows| => Text.Join(Cells(rows[i]), ','))
  }

  /** `handleExportData`'s `csvContent`, with no quoting of any field. */
  function Csv(rows: seq<IncidentRow>): string {
    Text.Join(Lines(rows), '\n')
  }

  /** Fields free of commas and line breaks survive the export: the CSV
      splits back into the header and one line per row, in order, and
      each line into that row's seven fields. */
  lemma {:induction false} CsvRoundTrip(rows: seq<IncidentRow>)
    requires forall i :: 0 <= i < |rows| ==> Text.Free(Cells(rows[i]), ',') && Text.Free(Cells(rows[i]), '\n')
    ensures |Text.Split(Csv(rows), '\n')| == |rows| + 1
    ensures Text.Split(Text.Split(Csv(rows), '\n')[0], ',') == Header
    ensures forall i :: 0 <= i < |rows| ==> Text.Split(Text.Split(Csv(rows), '\n')[i + 1], ',') == Cells(rows[i])
  {
    var lines := Lines(rows);
    assert Text.Free(Header, '\n') && Text.Free(Header, ',') by {
      forall i | 0 <= i < |Header| ensures '\n' !in Header[i] && ',' !in Header[i] {
      }
    }
    assert Text.Free(lines, '\n') by {
      Text.JoinAvoids(Header, ',', '\n');
      forall i | 0 <= i < |lines| ensures '\n' !in lines[i] {
        if i > 0 { Text.JoinAvoids(Cells(rows[i - 1]), ',', '\n'); }
      }
    }
    Text.SplitJoin(lines, '\n');
    Text.SplitJoin(Header, ',');
    forall i | 0 <= i < |rows| ensures Text.Split(lines[i + 1], ',') == Cells(rows[i]) {
      Text.SplitJoin(Cells(rows[i]), ',');
    }
  }

  /** The page's component state. */
  class IncidentsPage {
    var incidents: seq<IncidentRow>
    var searchTerm: string
    var filterStatus: string
    var filterPriority: string
    var sortBy: string

    constructor (initial: seq<IncidentRow>)
      ensures incidents == initial
      ensures searchTerm == "" && filterStatus == All && filterPriority == All && sortBy == "newest"
    {
      incidents := initial;
      searchTerm, filterStatus, filterPriority, sortBy := "", All, All, "newest";
    }

    /** `handleStatusChange`. */
    method ChangeStatus(id: string, status: string)
      modifies this
      ensures incidents == StatusChanged(old(incidents), id, status)
      ensures searchTerm == old(searchTerm) && filterStatus == old(filterStatus)
      ensures filterPriority == old(filterPriority) && sortBy == old(sortBy)
    {
      incidents := StatusChanged(incidents, id, status);
    }

    /** `handleDeleteIncident`; `confirmed` is the answer to the dialog. */
    method Delete(id: string, confirmed: bool)
      modifies this
      ensures confirmed ==> incidents == Lists.Keep(old(incidents), (row: IncidentRow) => row.id != id)
      ensures !confirmed ==> incidents == old(incidents)
      ensures searchTerm == old(searchTerm) && filterStatus == old(filterStatus)
      ensures filterPriority == old(filterPriority) && sortBy == old(sortBy)
    {
      if confirmed {
        incidents := Lists.Keep(incidents, (row: IncidentRow) => row.id != id);
      }
    }

    /** The rows the table shows: the filtered list, sorted in place by
        the chosen order. */
    method Displayed(time: string -> int) returns (rows: seq<IncidentRow>)
      ensures multiset(rows) == multiset(Filtered(incidents, searchTerm, filterStatus, filterPriority))
      ensures SortKey(sortBy, time).Some? ==> ArraySort.SortedByKey(rows, SortKey(sortBy, time).value)
      ensures SortKey(sortBy, time).None? ==> rows == Filtered(incidents, searchTerm, filterStatus, filterPriority)
    {
      var filtered := Filtered(incidents, searchTerm, filterStatus, filterPriority);
      var a := new IncidentRow[|filtered|](i requires 0 <= i < |filtered| => filtered[i]);
      assert a[..] == filtered;
      var key := SortKey(sortBy, time);
      if key.Some? {
        ArraySort.SortByKey(a, key.value);
      }
      rows := a[..];
    }

    /** `handleExportData`: the CSV of the displayed rows. */
    method Export(time: string -> int) returns (rows: seq<IncidentRow>, csv: string)
      ensures multiset(rows) == multiset(Filtered(incidents, searchTerm, filterStatus, filterPriority))
      ensures SortKey(sortBy, time).Some? ==> ArraySort.SortedByKey(rows, SortKey(sortBy, time).value)
      ensures SortKey(sortBy, time).None? ==> rows == Filtered(incidents, searchTerm, filterStatus, filterPriority)
      ensures csv == Csv(rows)
    {
      rows := Displayed(time);
      csv := Csv(rows);
    }
  }

  /** A confirmed delete leaves no row with that id and keeps every other
      row, in order and as often as before. */
  lemma DeleteSpec(rows: seq<IncidentRow>, id: string)
    ensures forall x :: x in Lists.Keep(rows, (row: IncidentRow) => row.id != id) ==> x.id != id
    ensures forall x :: x in rows && x.id != id ==> x in Lists.Keep(rows, (row: IncidentRow) => row.id != id)
    ensures forall x: IncidentRow :: x.id != id ==> multiset(Lists.Keep(rows, (row: IncidentRow) => row.id != id))[x] == multiset(rows)[x]
    ensures Lists.IsSubsequence(Lists.Keep(rows, (row: IncidentRow) => row.id != id), rows)
  {
    var p := (row: IncidentRow) => row.id != id;
    Lists.KeepIsSubsequence(rows, p);
    forall x ensures x in Lists.Keep(rows, p) <==> x in rows && p(x) {
      Lists.KeepMembers(rows, p, x);
    }
  }

  /** The three orders: newest puts later dates first, oldest earlier
      dates first, priority Critical before High before Medium before Low. */
  lemma SortOrders(rows: seq<IncidentRow>, time: string -> int)
    ensures ArraySort.SortedByKey(rows, SortKey("newest", time).value) ==>
      forall i, j :: 0 <= i < j < |rows| ==> time(rows[i].reportedAt) >= time(rows[j].reportedAt)
    ensures ArraySort.SortedByKey(rows, SortKey("oldest", time).value) ==>
      forall i, j :: 0 <= i < j < |rows| ==> time(rows[i].reportedAt) <= time(rows[j].reportedAt)
    ensures ArraySort.SortedByKey(rows, SortKey("priority", time).value) ==>
      forall i, j :: 0 <= i < j < |rows| && rows[i].priority == "High" ==> rows[j].priority != "Critical"
    ensures ArraySort.SortedByKey(rows, SortKey("priority", time).value) ==>
      forall i, j :: 0 <= i < j < |rows| && rows[i].priority == "Medium" ==> rows[j].priority !in {"Critical", "High"}
    ensures ArraySort.SortedByKey(rows, SortKey("priority", time).value) ==>
      forall i, j :: 0 <= i < j < |rows| && rows[i].priority == "Low" ==> rows[j].priority !in {"Critical", "High", "Medium"}
  {
  }
}
