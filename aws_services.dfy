/**
 * The service report of aws-services.py: for every service name the SDK lists, the resources of
 * that service as rows (raw records for ec2, s3, rds and lambda, one placeholder row otherwise),
 * each table written to a sheet named by the first 31 characters of the service name.
 */
module AwsServices {
  import opened Wrappers
  import opened AwsModel
  import Seqs
  import Text

  /** A row of a service's table: a record as the API returned it, or a one-column message. */
  datatype ServiceRow =
    | Ec2Instance(instance: Instance)
    | S3Bucket(bucket: Bucket)
    | RdsInstance(db: DbInstance)
    | LambdaFn(fn: LambdaFunction)
    | Message(column: string, text: string)

  /**
   * What the provider answers. `clientError(name)` is the failure of `session.client(name)`, if
   * any; each supported call either returns its response or raises with a message.
   */
  datatype Backend = Backend(
    clientError: string -> Option<string>,
    describeInstances: Result<DescribeInstancesResponse, string>,
    listBuckets: Result<ListBucketsResponse, string>,
    describeDbInstances: Result<DescribeDbInstancesResponse, string>,
    listFunctions: Result<ListFunctionsResponse, string>)

  predicate IsSupported(service: string)
  {
    service == "ec2" || service == "s3" || service == "rds" || service == "lambda"
  }

  /** The row every failure inside the dispatcher becomes. */
  function ErrorRows(message: string): seq<ServiceRow>
  {
    [Message("Error", message)]
  }

  /** The row of a service without custom logic. */
  function UnsupportedRows(service: string): seq<ServiceRow>
  {
    [Message("Service", "No custom logic implemented for " + service)]
  }

  /** The rows `describe_service_resources(service)` returns. */
  function ServiceRows(service: string, backend: Backend): seq<ServiceRow>
  {
    match backend.clientError(service)
    case Some(e) => ErrorRows(e)
    case None =>
      if service == "ec2" then
        match backend.describeInstances
        case Failure(e) => ErrorRows(e)
        case Success(resp) => Seqs.Map(ResponseInstancesLenient(resp), (i: Instance) => Ec2Instance(i))
      else if service == "s3" then
        match backend.listBuckets
        case Failure(e) => ErrorRows(e)
        case Success(resp) => Seqs.Map(resp.buckets.GetOr([]), (b: Bucket) => S3Bucket(b))
      else if service == "rds" then
        match backend.describeDbInstances
        case Failure(e) => ErrorRows(e)
        case Success(resp) => Seqs.Map(resp.dbInstances.GetOr([]), (d: DbInstance) => RdsInstance(d))
      else if service == "lambda" then
        match backend.listFunctions
        case Failure(e) => ErrorRows(e)
        case Success(resp) => Seqs.Map(resp.functions.GetOr([]), (f: LambdaFunction) => LambdaFn(f))
      else UnsupportedRows(service)
  }

  /** The ec2 branch: every instance of every reservation, with `.get` defaults. */
  method DescribeInstances(resp: DescribeInstancesResponse) returns (data: seq<ServiceRow>)
    ensures data == Seqs.Map(ResponseInstancesLenient(resp), (i: Instance) => Ec2Instance(i))
  {
    data := [];
    var rs := resp.reservations.GetOr([]);
    ghost var seen: seq<Instance> := [];
    var i := 0;
    assert rs[0..] == rs;
    while i < |rs|
      invariant 0 <= i <= |rs|
      invariant LenientInstances(rs) == seen + LenientInstances(rs[i..])
      invariant |data| == |seen|
      invariant forall k :: 0 <= k < |seen| ==> data[k] == Ec2Instance(seen[k])
    {
      assert rs[i..][1..] == rs[i + 1..];
      var insts := rs[i].instances.GetOr([]);
      var j := 0;
      while j < |insts|
        invariant 0 <= j <= |insts|
        invariant |data| == |seen| + j
        invariant forall k :: 0 <= k < |seen| ==> data[k] == Ec2Instance(seen[k])
        invariant forall k :: 0 <= k < j ==> data[|seen| + k] == Ec2Instance(insts[k])
      {
        data := data + [Ec2Instance(insts[j])];
        j := j + 1;
      }
      seen := seen + insts;
      i := i + 1;
    }
    assert rs[|rs|..] == [];
  }

  /** `describe_service_resources`: never raises; any failure is one Error row. */
  method DescribeServiceResources(service: string, backend: Backend) returns (data: seq<ServiceRow>)
    ensures data == ServiceRows(service, backend)
  {
    var clientError := backend.clientError(service);
    if clientError.Some? {
      return ErrorRows(clientError.value);
    }
    if service == "ec2" {
      match backend.describeInstances {
        case Failure(e) => data := ErrorRows(e);
        case Success(resp) => data := DescribeInstances(resp);
      }
    } else if service == "s3" {
      match backend.listBuckets {
        case Failure(e) => data := ErrorRows(e);
        case Success(resp) => data := Seqs.MapAppend(resp.buckets.GetOr([]), (b: Bucket) => S3Bucket(b));
      }
    } else if service == "rds" {
      match backend.describeDbInstances {
        case Failure(e) => data := ErrorRows(e);
        case Success(resp) => data := Seqs.MapAppend(resp.dbInstances.GetOr([]), (d: DbInstance) => RdsInstance(d));
      }
    } else if service == "lambda" {
      match backend.listFunctions {
        case Failure(e) => data := ErrorRows(e);
        case Success(resp) => data := Seqs.MapAppend(resp.functions.GetOr([]), (f: LambdaFunction) => LambdaFn(f));
      }
    } else {
      data := UnsupportedRows(service);
    }
  }

  // Properties of the dispatcher

  /** A failure to create the client, or of the service's call, becomes exactly one Error row with its message. */
  lemma {:induction false} FailuresBecomeOneErrorRow(service: string, backend: Backend)
    ensures backend.clientError(service).Some? ==> ServiceRows(service, backend) == [Message("Error", backend.clientError(service).value)]
    ensures backend.clientError(service).None? && service == "ec2" && backend.describeInstances.Failure? ==>
      ServiceRows(service, backend) == [Message("Error", backend.describeInstances.error)]
    ensures backend.clientError(service).None? && service == "s3" && backend.listBuckets.Failure? ==>
      ServiceRows(service, backend) == [Message("Error", backend.listBuckets.error)]
    ensures backend.clientError(service).None? && service == "rds" && backend.describeDbInstances.Failure? ==>
      ServiceRows(service, backend) == [Message("Error", backend.describeDbInstances.error)]
    ensures backend.clientError(service).None? && service == "lambda" && backend.listFunctions.Failure? ==>
      ServiceRows(service, backend) == [Message("Error", backend.listFunctions.error)]
  {
  }

  /** A service without custom logic gets exactly one row, keyed "Service", whose text ends with the service's name. */
  lemma {:induction false} UnsupportedServiceRow(service: string, backend: Backend)
    requires !IsSupported(service) && backend.clientError(service).None?
    ensures |ServiceRows(service, backend)| == 1
    ensures ServiceRows(service, backend)[0].Message? && ServiceRows(service, backend)[0].column == "Service"
    ensures
      var text := ServiceRows(service, backend)[0].text;
      |text| >= |service| && text[|text| - |service|..] == service
  {
    var text := "No custom logic implemented for " + service;
    assert text[|text| - |service|..] == service;
  }

  /**
   * For ec2 the rows are all instances of all reservations, in order: instance `j` of reservation
   * `p` comes right after the instances of the reservations before `p`; a missing Reservations
   * or Instances key counts as empty.
   */
  lemma {:induction false} Ec2RowsInOrder(backend: Backend, resp: DescribeInstancesResponse, p: nat, j: nat)
    requires backend.clientError("ec2").None? && backend.describeInstances == Success(resp)
    requires p < |resp.reservations.GetOr([])|
    requires j < |resp.reservations.GetOr([])[p].instances.GetOr([])|
    ensures
      var rs := resp.reservations.GetOr([]);
      var rows := ServiceRows("ec2", backend);
      var before := Seqs.TotalLength(Seqs.Map(rs[..p], InstancesOrEmpty));
      && |rows| == Seqs.TotalLength(Seqs.Map(rs, InstancesOrEmpty))
      && before + j < |rows|
      && rows[before + j] == Ec2Instance(rs[p].instances.value[j])
  {
    var rs := resp.reservations.GetOr([]);
    var lists := Seqs.Map(rs, InstancesOrEmpty);
    LenientIsConcat(rs);
    Seqs.ConcatLength(lists);
    assert lists[p] == InstancesOrEmpty(rs[p]);
    Seqs.ConcatAt(lists, p, j);
    assert lists[..p] == Seqs.Map(rs[..p], InstancesOrEmpty);
  }

  /** For s3, rds and lambda the rows are the listed records themselves, or none when the key is missing. */
  lemma {:induction false} ListedRecords(backend: Backend)
    ensures backend.clientError("s3").None? && backend.listBuckets.Success? ==>
      var bs := backend.listBuckets.value.buckets.GetOr([]);
      var rows := ServiceRows("s3", backend);
      |rows| == |bs| && forall k :: 0 <= k < |bs| ==> rows[k] == S3Bucket(bs[k])
    ensures backend.clientError("rds").None? && backend.describeDbInstances.Success? ==>
      var ds := backend.describeDbInstances.value.dbInstances.GetOr([]);
      var rows := ServiceRows("rds", backend);
      |rows| == |ds| && forall k :: 0 <= k < |ds| ==> rows[k] == RdsInstance(ds[k])
    ensures backend.clientError("lambda").None? && backend.listFunctions.Success? ==>
      var fs := backend.listFunctions.value.functions.GetOr([]);
      var rows := ServiceRows("lambda", backend);
      |rows| == |fs| && forall k :: 0 <= k < |fs| ==> rows[k] == LambdaFn(fs[k])
  {
  }

  // The report in main

  /** The errors `main` handles outside the per-service dispatcher. */
  datatype RunError = NoCredentials | PartialCredentials | Unexpected(message: string)

  /** What `main` prints for each of them. */
  function Diagnostic(e: RunError): string
  {
    match e
    case NoCredentials => "Error: No AWS credentials found."
    case PartialCredentials => "Error: Incomplete AWS credentials configuration."
    case Unexpected(m) => "Unexpected error: " + m
  }

  /** The three kinds of run error print three different diagnostics. */
  lemma {:induction false} DiagnosticsDistinct(m: string)
    ensures Diagnostic(NoCredentials) != Diagnostic(PartialCredentials)
    ensures Diagnostic(Unexpected(m)) != Diagnostic(NoCredentials)
    ensures Diagnostic(Unexpected(m)) != Diagnostic(PartialCredentials)
  {
    assert Diagnostic(NoCredentials)[7] == 'N';
    assert Diagnostic(PartialCredentials)[7] == 'I';
    assert Diagnostic(Unexpected(m))[0] == 'U';
    assert Diagnostic(NoCredentials)[0] == 'E' && Diagnostic(PartialCredentials)[0] == 'E';
  }

  /** The row that stands in for an empty result. */
  const NoResourcesRow := Message("Message", "No resources found")

  /** `resources if resources else [{"Message": "No resources found"}]`. */
  function TableFor(resources: seq<ServiceRow>): (table: seq<ServiceRow>)
    ensures |table| >= 1
    ensures |resources| > 0 ==> table == resources
    ensures |resources| == 0 ==> table == [NoResourcesRow]
  {
    if |resources| > 0 then resources else [NoResourcesRow]
  }

  /** `service[:31]`. */
  function ServiceSheetName(service: string): (name: string)
    ensures |name| <= 31 && |name| <= |service|
    ensures name == service[..|name|]
    ensures |service| <= 31 ==> name == service
    ensures |service| > 31 ==> |name| == 31
  {
    Text.Prefix(service, 31)
  }

  /** One sheet of the workbook. */
  datatype Sheet = Sheet(name: string, rows: seq<ServiceRow>)

  /** The sheet written for one service. */
  function SheetFor(service: string, backend: Backend): (sheet: Sheet)
    ensures |sheet.rows| >= 1 && |sheet.name| <= 31
  {
    Sheet(ServiceSheetName(service), TableFor(ServiceRows(service, backend)))
  }

  /** How a run of `main` ends: the sheets written, or the diagnostic printed. */
  datatype RunOutcome = Saved(sheets: seq<Sheet>) | Aborted(diagnostic: string)

  /**
   * `main`: one sheet per listed service, in order. Only a failure outside the dispatcher (here,
   * listing the services) aborts the run; the dispatcher's own failures are rows.
   */
  method ServicesReport(services: Result<seq<string>, RunError>, backend: Backend) returns (outcome: RunOutcome)
    ensures services.Failure? <==> outcome.Aborted?
    ensures services.Failure? ==> outcome.diagnostic == Diagnostic(services.error)
    ensures services.Success? ==>
      && |outcome.sheets| == |services.value|
      && forall i :: 0 <= i < |services.value| ==> outcome.sheets[i] == SheetFor(services.value[i], backend)
  {
    if services.Failure? {
      return Aborted(Diagnostic(services.error));
    }
    var names := services.value;
    var sheets: seq<Sheet> := [];
    var i := 0;
    while i < |names|
      invariant 0 <= i <= |names|
      invariant |sheets| == i
      invariant forall k :: 0 <= k < i ==> sheets[k] == SheetFor(names[k], backend)
    {
      var service := names[i];
      var resources := DescribeServiceResources(service, backend);
      sheets := sheets + [Sheet(ServiceSheetName(service), TableFor(resources))];
      i := i + 1;
    }
    return Saved(sheets);
  }
}
