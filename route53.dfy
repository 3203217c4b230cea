/**
 * The hosted-zone report of route53.py: for each hosted zone, its record sets from every page of
 * `list_resource_record_sets`, one row per record, on a sheet named after the zone.
 */
module Route53 {
  import opened Wrappers
  import Seqs
  import Text

  /** An entry of `HostedZones`: its Id (e.g. "/hostedzone/Z1D633PJN98FT9") and Name. */
  datatype HostedZone = HostedZone(id: string, name: string)

  /** One value of a record set's `ResourceRecords`. */
  datatype ResourceRecord = ResourceRecord(value: string)

  /** A record set; `resourceRecords` is absent for an alias record. */
  datatype RecordSet = RecordSet(name: Option<string>, recordType: Option<string>, ttl: Option<int>, resourceRecords: Option<seq<ResourceRecord>>)

  /** A cell that holds the record's TTL (an int) or the text 'N/A'. */
  datatype Cell = Number(n: int) | Label(s: string)

  /** One row of a zone's sheet. */
  datatype RecordRow = RecordRow(name: Option<string>, recordType: Option<string>, ttl: Cell, value: string)

  /** One sheet of the workbook. */
  datatype ZoneSheet = ZoneSheet(sheetName: string, rows: seq<RecordRow>)

  /** The pages `list_resource_record_sets` returns for a zone id, each page's `ResourceRecordSets`. */
  type RecordPages = string -> seq<seq<RecordSet>>

  // The zone id

  /** `zone_id.split('/')[-1]`: the text after the last '/'. */
  function ZoneId(id: string): (r: string)
    ensures '/' !in r
    ensures |r| <= |id| && id[|id| - |r|..] == r
    ensures '/' !in id ==> r == id
    ensures '/' in id ==> |r| < |id| && id[|id| - |r| - 1] == '/'
  {
    var parts := Text.Split(id, '/');
    Text.LastPieceIsSuffix(id, '/');
    parts[|parts| - 1]
  }

  // Records from all pages

  /** `records = []; for page in pages: records.extend(page['ResourceRecordSets'])`. */
  method CollectRecords(pages: seq<seq<RecordSet>>) returns (records: seq<RecordSet>)
    ensures records == Seqs.Concat(pages)
    ensures |records| == Seqs.TotalLength(pages)
  {
    records := [];
    var i := 0;
    assert pages[0..] == pages;
    while i < |pages|
      invariant 0 <= i <= |pages|
      invariant Seqs.Concat(pages) == records + Seqs.Concat(pages[i..])
    {
      assert pages[i..][1..] == pages[i + 1..];
      records := records + pages[i];
      i := i + 1;
    }
    assert pages[|pages|..] == [];
    Seqs.ConcatLength(pages);
  }

  // Rows

  /** `', '.join(values)`. */
  function JoinValues(rrs: seq<ResourceRecord>): string
  {
    Text.Join(Seqs.Map(rrs, (r: ResourceRecord) => r.value), ", ")
  }

  /** The row of one record set. */
  function RowOf(record: RecordSet): (row: RecordRow)
    ensures row.name == record.name && row.recordType == record.recordType
    ensures row.ttl.Label? <==> record.ttl.None?
    ensures row.ttl.Label? ==> row.ttl.s == "N/A"
    ensures row.ttl.Number? ==> row.ttl.n == record.ttl.value
    ensures record.resourceRecords.None? ==> row.value == "Alias"
    ensures record.resourceRecords == Some([]) ==> row.value == ""
    ensures forall v :: record.resourceRecords == Some([ResourceRecord(v)]) ==> row.value == v
  {
    RecordRow(
      record.name,
      record.recordType,
      if record.ttl.Some? then Number(record.ttl.value) else Label("N/A"),
      if record.resourceRecords.Some? then JoinValues(record.resourceRecords.value) else "Alias")
  }

  /**
   * The joined values are as long as the values plus two characters per separator, start with the
   * first value and end with the last, after ", " when there are two values or more.
   */
  lemma {:induction false} JoinValuesLength(rrs: seq<ResourceRecord>)
    requires |rrs| >= 1
    ensures |JoinValues(rrs)| == Seqs.TotalLength(Seqs.Map(rrs, (r: ResourceRecord) => r.value)) + 2 * (|rrs| - 1)
    ensures JoinValues(rrs)[..|rrs[0].value|] == rrs[0].value
    ensures
      var j := JoinValues(rrs);
      var last := rrs[|rrs| - 1].value;
      && |last| <= |j| && j[|j| - |last|..] == last
      && (|rrs| >= 2 ==> 2 + |last| <= |j| && j[|j| - (2 + |last|)..] == ", " + last)
  {
    var values := Seqs.Map(rrs, (r: ResourceRecord) => r.value);
    Text.JoinLength(values, ", ");
    Text.JoinEndsWithLast(values, ", ");
  }

  /** `zone_data`: one row per record, in record order. */
  method ZoneRows(records: seq<RecordSet>) returns (rows: seq<RecordRow>)
    ensures |rows| == |records|
    ensures forall i :: 0 <= i < |records| ==> rows[i] == RowOf(records[i])
  {
    rows := Seqs.MapAppend(records, RowOf);
  }

  // The sheet name

  /** `zone_name.strip('.').replace('.', '_')[:31]`. */
  function SheetName(zoneName: string): (r: string)
    ensures |r| <= 31
    ensures '.' !in r
  {
    var stripped := Text.Strip(zoneName, '.');
    var replaced := Text.Replace(stripped, '.', '_');
    assert forall k :: 0 <= k < |replaced| ==> replaced[k] != '.';
    Text.Prefix(replaced, 31)
  }

  /** A name without dots and within 31 characters is its own sheet name. */
  lemma {:induction false} SheetNameKeepsValidName(n: string)
    requires '.' !in n && |n| <= 31
    ensures SheetName(n) == n
  {
    assert Text.TrimLeft(n, '.') == n;
    assert Text.TrimRight(n, '.') == n;
    assert Text.Replace(n, '.', '_') == n;
  }

  /** Deriving a sheet name twice gives the same name as once. */
  lemma {:induction false} SheetNameIdempotent(zoneName: string)
    ensures SheetName(SheetName(zoneName)) == SheetName(zoneName)
  {
    SheetNameKeepsValidName(SheetName(zoneName));
  }

  /** The root dot that ends an absolute DNS name plays no part in its sheet name. */
  lemma {:induction false} RootDotIgnored(n: string)
    ensures SheetName(n + ".") == SheetName(n)
  {
    TrimLeftDot(n);
    var t := Text.TrimLeft(n, '.');
    if t != [] {
      assert Text.TrimLeft(n + ".", '.') == t + ".";
      assert (t + ".")[..|t + "."| - 1] == t;
    }
  }

  lemma {:induction false} TrimLeftDot(n: string)
    ensures Text.TrimLeft(n + ".", '.') == if Text.TrimLeft(n, '.') == [] then [] else Text.TrimLeft(n, '.') + "."
  {
    if |n| > 0 {
      assert (n + ".")[1..] == n[1..] + ".";
      if n[0] == '.' {
        TrimLeftDot(n[1..]);
      }
    } else {
      assert n + "." == ".";
      assert "."[1..] == [];
    }
  }

  /**
   * Different zone names can share a sheet name: for pieces `x` and `y` free of dots, the zone
   * "x.y." and the name "x_y" both become the sheet "x_y" (cut to 31 characters).
   */
  lemma {:induction false} SheetNamesCollide(x: string, y: string)
    requires |x| > 0 && |y| > 0 && '.' !in x && '.' !in y
    ensures x + "." + y + "." != x + "_" + y
    ensures SheetName(x + "." + y + ".") == SheetName(x + "_" + y) == Text.Prefix(x + "_" + y, 31)
  {
    var dotted := x + "." + y;
    var zone := dotted + ".";
    var under := x + "_" + y;
    assert |zone| != |under|;
    assert zone[0] == x[0];
    assert Text.TrimLeft(zone, '.') == zone;
    assert zone[..|zone| - 1] == dotted;
    assert dotted[|dotted| - 1] == y[|y| - 1];
    assert Text.TrimRight(dotted, '.') == dotted;
    assert Text.Strip(zone, '.') == dotted;
    DotsBecomeUnderscores(x, y);
    assert under[0] == x[0] && under[|under| - 1] == y[|y| - 1];
    assert Text.Strip(under, '.') == under;
    UnderscoresStay(x, y);
  }

  /** Replacing the dots of "x.y" gives "x_y". */
  lemma {:induction false} DotsBecomeUnderscores(x: string, y: string)
    requires '.' !in x && '.' !in y
    ensures Text.Replace(x + "." + y, '.', '_') == x + "_" + y
  {
    var r := Text.Replace(x + "." + y, '.', '_');
    forall k | 0 <= k < |r|
      ensures r[k] == (x + "_" + y)[k]
    {
      if k < |x| {
        assert (x + "." + y)[k] == x[k];
      } else if k > |x| {
        assert (x + "." + y)[k] == y[k - |x| - 1];
      }
    }
  }

  /** "x_y" has no dot to replace. */
  lemma {:induction false} UnderscoresStay(x: string, y: string)
    requires '.' !in x && '.' !in y
    ensures Text.Replace(x + "_" + y, '.', '_') == x + "_" + y
  {
    var u := x + "_" + y;
    var r := Text.Replace(u, '.', '_');
    forall k | 0 <= k < |u|
      ensures u[k] != '.'
    {
      if k < |x| {
        assert u[k] == x[k];
      } else if k > |x| {
        assert u[k] == y[k - |x| - 1];
      }
    }
    assert r == u;
  }

  // The report

  /** The sheet a hosted zone gets, from the record pages fetched under its zone id. */
  function ZoneSheetOf(zone: HostedZone, pages: RecordPages): ZoneSheet
  {
    ZoneSheet(SheetName(zone.name), ZoneRowsOf(pages(ZoneId(zone.id))))
  }

  /** The rows of a zone: its records from all pages, one row each. */
  function ZoneRowsOf(ps: seq<seq<RecordSet>>): seq<RecordRow>
  {
    Seqs.Map(Seqs.Concat(ps), RowOf)
  }

  /** `get_hosted_zones_and_records`: one sheet per hosted zone, in order. */
  method HostedZonesReport(zones: seq<HostedZone>, pages: RecordPages) returns (sheets: seq<ZoneSheet>)
    ensures |sheets| == |zones|
    ensures forall i :: 0 <= i < |zones| ==> sheets[i] == ZoneSheetOf(zones[i], pages)
  {
    sheets := [];
    var i := 0;
    while i < |zones|
      invariant 0 <= i <= |zones|
      invariant |sheets| == i
      invariant forall k :: 0 <= k < i ==> sheets[k] == ZoneSheetOf(zones[k], pages)
    {
      var sheet := BuildZoneSheet(zones[i], pages);
      AppendSheet(sheets, zones, pages, sheet);
      sheets := sheets + [sheet];
      i := i + 1;
    }
  }

  /** One more sheet, built for the next zone, keeps the sheets in step with the zones. */
  lemma {:induction false} AppendSheet(sheets: seq<ZoneSheet>, zones: seq<HostedZone>, pages: RecordPages, sheet: ZoneSheet)
    requires |sheets| < |zones|
    requires forall k :: 0 <= k < |sheets| ==> sheets[k] == ZoneSheetOf(zones[k], pages)
    requires sheet == ZoneSheetOf(zones[|sheets|], pages)
    ensures forall k :: 0 <= k <= |sheets| ==> (sheets + [sheet])[k] == ZoneSheetOf(zones[k], pages)
  {
  }

  /** The body of the per-zone loop: fetch the zone's records, one row each, under its sheet name. */
  method BuildZoneSheet(zone: HostedZone, pages: RecordPages) returns (sheet: ZoneSheet)
    ensures sheet == ZoneSheetOf(zone, pages)
  {
    var hostedZoneId := ZoneId(zone.id);
    var records := CollectRecords(pages(hostedZoneId));
    var rows := ZoneRows(records);
    assert rows == Seqs.Map(records, RowOf);
    sheet := ZoneSheet(SheetName(zone.name), rows);
  }

  /** The rows of a zone's sheet hold one row per record across all its pages, in page order. */
  lemma {:induction false} RecordsInPageOrder(ps: seq<seq<RecordSet>>, p: nat, j: nat)
    requires p < |ps| && j < |ps[p]|
    ensures
      var rows := ZoneRowsOf(ps);
      && |rows| == Seqs.TotalLength(ps)
      && Seqs.TotalLength(ps[..p]) + j < |rows|
      && rows[Seqs.TotalLength(ps[..p]) + j] == RowOf(ps[p][j])
  {
    Seqs.ConcatLength(ps);
    Seqs.ConcatAt(ps, p, j);
  }
}
