# AWS inventory reports, modelled in Dafny

This project models four Python scripts that read an AWS account through its API and write
spreadsheet reports:

- **load-balancer.py** walks every target of every target group of every Application/Network
  load balancer. A target whose id matches `^i-[0-9a-f]{17}$` is looked up as an EC2 instance
  and gives one row per instance found. Any other target, such as an IP address, gives one
  "N/A" row carrying the address. Any exception ends the run before anything is written.
- **route53.py** gives each hosted zone a sheet with one row per record set, gathered from every
  page of `list_resource_record_sets`. The sheet is named after the zone with its dots stripped
  and replaced, cut to 31 characters.
- **aws-services.py** handles every service name the SDK lists. For ec2, s3, rds and lambda it
  lists the raw resource records; for any other service it writes one placeholder row. Every
  failure inside the dispatcher becomes a single `Error` row. An empty result becomes a
  "No resources found" row. Each sheet is named by the first 31 characters of the service name.
- **get-services.py** runs nine fixed collectors (EC2, SECURITY GROUP, ALB, RDS, IAM USER, ECS, S3,
  CLOUDFRONT, ACM). Each turns one API response into rows, reading nested keys leniently
  with `.get(..., {})` and the top-level list strictly with `[...]`.

API responses are values. Every key a script reads with `.get` is an `Option`. A call that can
raise is a `Result`, or an `Option` where the message is not kept. Each script's loops that
append to a list are methods with loop invariants, proved equal to a specification function.
Lemmas prove the promised properties of those functions.

Modules (one file each):

- `Wrappers`: `Option` and `Result`.
- `Seqs`: map, concatenation and the shared append loop.
- `Text`: the Python string operations used, namely `split`, `join`, `strip`, `replace` and `[:n]`.
- `AwsModel`: response shapes, timestamps, and strict vs lenient reservation walks.
- `LoadBalancer`, `Route53`, `AwsServices`, `GetServices`: one per script.

Where Python's regular-expression `$` differs from "end of string", the model follows Python:
`$` also matches just before one final `"\n"`, so `"i-" + 17 hex digits + "\n"` counts as an
instance id. `LoadBalancer.TrailingNewlineAccepted` proves this.

## Model

| member | source | states |
|---|---|---|
| LoadBalancer.IsValidInstanceId | load-balancer.py:5-9 | true exactly for `i-` then 17 characters from `0-9a-f`, optionally followed by one final newline (Python's `$`) |
| LoadBalancer.MatchHexRun | load-balancer.py:9 | `[0-9a-f]{n}` matches at position i iff the next n characters exist and are all lower-case hex digits |
| LoadBalancer.InstanceIdLength | load-balancer.py:9 | for hex digits h, `"i-" + h` is accepted iff h has exactly 17 digits (16 or 18 are rejected) |
| LoadBalancer.UpperCaseRejected | load-balancer.py:9 | an upper-case hex digit among the 17 rejects the id |
| LoadBalancer.OtherPrefixRejected | load-balancer.py:9 | an id that does not start with `i-` is rejected (the match is anchored at the start) |
| LoadBalancer.TrailingNewlineAccepted | load-balancer.py:9 | `i-<17 hex>\n` is accepted, `i-<17 hex>\n\n` is not |
| LoadBalancer.ListTargetInstances | load-balancer.py:12-55 | the rows are exactly those of all targets in load balancer → target group → target order (`RowsFor(TraversalOrder(...))`), a missing `LoadBalancers` key counts as none, and None (run aborted) when creating a client or `describe_load_balancers()` raises, or when any modelled later step raises |
| LoadBalancer.EmitLoadBalancer | load-balancer.py:27-55 | appends to the rows so far exactly the rows of this load balancer's targets, group by group, or aborts |
| LoadBalancer.EmitTargetGroup | load-balancer.py:31-55 | appends to the rows so far exactly the rows of this target group's targets in order, or aborts |
| LoadBalancer.ResolveTarget | load-balancer.py:32-55 | appends the rows of one target: the address row for a non-instance id, otherwise the rows of the lookup's reservations, aborting on a failed lookup or missing key |
| LoadBalancer.EmitInstances | load-balancer.py:39-46 | appends one row per instance, aborting at an instance missing `State.Name` or `PrivateIpAddress` |
| LoadBalancer.AddressTarget | load-balancer.py:47-55 | a non-instance target gives exactly one row with InstanceID "N/A", State "N/A" and PrivateIP the target id, whatever the lookup |
| LoadBalancer.InstanceTarget | load-balancer.py:35-46 | a resolved instance target gives one row per instance of the lookup, each with InstanceID the target id and State/PrivateIP from that instance |
| LoadBalancer.InstanceRowsShape | load-balancer.py:39-46 | instance rows exist iff every instance has both keys, and then there is one row per instance in order, with that instance's values |
| LoadBalancer.TargetRowsCarryNames | load-balancer.py:40-51 | every row of a target carries its load balancer and target group names |
| LoadBalancer.RowsForAppend | load-balancer.py:23-55 | the rows of targets `a + b` are the rows of `a` followed by those of `b`: rows are only appended, never changed |
| LoadBalancer.RowsForShape | load-balancer.py:31-55 | the row count is one per address target plus the instance count of each instance target's lookup, and each row's names come from one of the targets |
| LoadBalancer.ReservationRowsFlatten | load-balancer.py:38-39 | walking reservation by reservation gives the rows of the strictly flattened instance list, and fails exactly when that flattening fails |
| LoadBalancer.InstanceRowsAppend | load-balancer.py:39-46 | the instance rows of `a + b` are those of `a` followed by those of `b` |
| LoadBalancer.GroupRefsShape | load-balancer.py:28-31 | a target group contributes its targets in order, each tagged with its group and load balancer |
| Text.LastPieceIsSuffix | route53.py:20 | `split(c)[-1]` is the suffix after the last `c`, the whole string when there is no `c` |
| Text.JoinSplit | route53.py:20 | joining the pieces of `s.split(c)` with `c` gives back `s` |
| Text.SplitJoin | route53.py:20 | splitting a join of separator-free pieces gives back the pieces |
| Text.SplitPrefix | route53.py:20 | a separator-free prefix only extends the first piece of a split |
| Text.JoinEndsWithLast | route53.py:20 | a join ends with its last piece, preceded by the separator when there are two or more pieces |
| Text.JoinLength | route53.py:38 | a join's length is the pieces' total length plus one separator between each two, and it starts with the first piece |
| Text.TrimLeft | route53.py:46 | `lstrip(c)` removes exactly the leading copies of c: a suffix that does not start with c |
| Text.TrimRight | route53.py:46 | `rstrip(c)` removes exactly the trailing copies of c: a prefix that does not end with c |
| Text.Replace | route53.py:46 | `replace(a, b)` keeps the length, turns every a into b and leaves every other character |
| Text.Prefix | aws-services.py:71 | `s[:n]` is a prefix of s whose length is the smaller of n and the length of s |
| Route53.ZoneId | route53.py:20 | the zone id has no '/', is a suffix of the Id, is the whole Id when it has no '/', and is preceded by '/' otherwise |
| Route53.CollectRecords | route53.py:26-29 | the records are all pages' record sets concatenated in page order, as many as the pages' lengths sum to |
| Route53.RowOf | route53.py:34-39 | Name and Type copied; TTL is the TTL when present and "N/A" otherwise; Value is "Alias" without ResourceRecords, "" for an empty list, the one value for a single record |
| Route53.JoinValuesLength | route53.py:38 | the joined Value starts with the first value, ends with the last (after ", " when there are two or more) and has the values' total length plus two characters per separator |
| Route53.ZoneRows | route53.py:32-40 | one row per record, in record order |
| Route53.SheetName | route53.py:46 | the derived sheet name has at most 31 characters and no '.' |
| Route53.SheetNameKeepsValidName | route53.py:46 | a name without '.' and within 31 characters is its own sheet name |
| Route53.SheetNameIdempotent | route53.py:46 | deriving a sheet name twice gives the same name as once |
| Route53.RootDotIgnored | route53.py:46 | the root dot ending an absolute zone name does not change its sheet name |
| Route53.SheetNamesCollide | route53.py:46-47 | the derivation is not injective: for any non-empty dot-free pieces x and y, the distinct names "x.y." and "x_y" get the same sheet name, "x_y" cut to 31 characters |
| Route53.BuildZoneSheet | route53.py:20-47 | one zone's sheet is named by `SheetName` and holds the rows of all its records from the pages fetched under its zone id |
| Route53.HostedZonesReport | route53.py:19-47 | one sheet per hosted zone, in order, each equal to that zone's sheet |
| Route53.RecordsInPageOrder | route53.py:26-40 | record j of page p is row `TotalLength(pages before p) + j`, and the row count is the sum of page lengths |
| Seqs.MapAppend | aws-services.py:30-31 | the append loop yields exactly one mapped element per input, in order |
| AwsModel.StripTimezone | get-services.py:14 | `replace(tzinfo=None)` keeps the wall clock and drops the offset |
| AwsModel.NormalizeTime | get-services.py:12-14 | an absent timestamp stays absent, a present one comes back without offset and with the same wall clock |
| AwsModel.NormalizeTimeIdempotent | get-services.py:12-14 | normalising twice is normalising once |
| AwsModel.LenientIsConcat | aws-services.py:24-26 | the lenient walk is the concatenation of every reservation's instances (missing Instances as empty) |
| AwsModel.StrictAgreesWithLenient | get-services.py:10-11 | the strict walk fails (with "Instances") iff some reservation lacks Instances, and otherwise equals the lenient walk |
| AwsModel.ResponseStrictAgreesWithLenient | get-services.py:10 | a missing Reservations key fails strictly but reads as empty leniently; a strict success equals the lenient walk |
| AwsServices.DescribeServiceResources | aws-services.py:11-51 | the dispatcher's rows are exactly `ServiceRows(service, backend)` |
| AwsServices.DescribeInstances | aws-services.py:22-26 | the ec2 branch's rows are all instances of all reservations, in order, with `.get` defaults |
| AwsServices.FailuresBecomeOneErrorRow | aws-services.py:16-51 | a client failure or a failing call gives exactly one `Error` row with its message and never propagates |
| AwsServices.UnsupportedServiceRow | aws-services.py:45-46 | when its client is created, an unsupported service gives exactly one row, keyed "Service", whose text ends with the service name |
| AwsServices.Ec2RowsInOrder | aws-services.py:22-26 | instance j of reservation p is row `TotalLength(instances before p) + j`, and the row count is the total instance count |
| AwsServices.ListedRecords | aws-services.py:28-41 | for s3, rds and lambda the rows are the Buckets, DBInstances or Functions list in order, none when the key is missing |
| AwsServices.DiagnosticsDistinct | aws-services.py:76-81 | missing, incomplete and unexpected errors print three different messages |
| AwsServices.TableFor | aws-services.py:65-68 | every table has at least one row: the resources when there are any, else the single "No resources found" row |
| AwsServices.ServiceSheetName | aws-services.py:71 | the sheet name is a prefix of the service name of at most 31 characters, the whole name when short enough |
| AwsServices.SheetFor | aws-services.py:62-72 | each service's sheet has at least one row and a name within 31 characters |
| AwsServices.ServicesReport | aws-services.py:53-81 | a failure to list services aborts with its diagnostic; otherwise one sheet per service, in order, each `SheetFor` that service |
| GetServices.Ec2RowOf | get-services.py:12-24 | EC2 columns copied; a missing State or Placement gives an absent State or AZ; Launch Time absent iff absent, otherwise stripped of its offset |
| GetServices.SecurityGroupRowOf | get-services.py:33-38 | the four security-group columns are the group's values, absent when absent |
| GetServices.AlbRowOf | get-services.py:47-58 | ALB columns copied; a missing State gives an absent State; Created Time absent iff absent, otherwise stripped |
| GetServices.RdsRowOf | get-services.py:67-79 | RDS columns copied; a missing Endpoint gives an absent Endpoint; Created Time absent iff absent, otherwise stripped |
| GetServices.IamUserRowOf | get-services.py:88-97 | user columns copied; Created On absent iff absent, otherwise stripped |
| GetServices.EcsRowOf | get-services.py:106 | a cluster row is the single column holding that ARN |
| GetServices.S3RowOf | get-services.py:115-122 | bucket name copied; Creation Date absent iff absent, otherwise stripped |
| GetServices.CloudFrontRowOf | get-services.py:131-137 | the five distribution columns are the distribution's values |
| GetServices.AcmRowOf | get-services.py:146-151 | the four certificate columns are the certificate's values |
| GetServices.TableOf | get-services.py:32-38 | a collector over `response[key]` raises naming the key iff it is missing, and otherwise has one row per listed item, in order |
| GetServices.FetchEc2Instances | get-services.py:5-25 | the EC2 loops produce exactly `Ec2Table(response)` |
| GetServices.FetchTable | get-services.py:27-39 | a single-loop collector produces exactly `TableOf(items, key, rowOf)` |
| GetServices.RunCollector | get-services.py:158-175 | running a collector gives exactly `CollectorTable(collector, api)` |
| GetServices.CollectAll | get-services.py:154-178 | main's sheets and stop reason are exactly `Report(Collectors, api)`; when nothing raises, one sheet per collector named in the fixed order |
| GetServices.ReportShape | get-services.py:172-176 | one sheet per collector up to the first that raises, each holding that collector's table; the run stops with that collector's reason, and completes iff none raises |
| GetServices.SheetNamesValid | get-services.py:158-168 | the nine sheet names are distinct, non-empty and within 31 characters, and every collector is listed in `Collectors` |
| GetServices.Ec2TableShape | get-services.py:10-24 | EC2 raises iff Reservations or some Instances is missing, naming it; otherwise one row per instance of every reservation, in order |
| GetServices.CloudFrontWithoutItems | get-services.py:130 | without Items there are no rows; without DistributionList the collector raises |
| GetServices.MissingTopLevelKeyRaises | get-services.py:32 | a successful call whose top-level list is missing makes its collector raise naming that key, unlike the `.get` defaults of aws-services.py |
| GetServices.EcsRowPerArn | get-services.py:105-106 | ECS has exactly one single-column row per cluster ARN, in order |

## Left out

- Every boto3 session, client and API call. Responses are inputs: `Backend` and `Api` hold each call's response or the message it raises with; `Lookup` maps an instance id to its `describe_instances` answer; `RecordPages` maps a zone id to its pages.
- Pagination mechanics. A paginator is the sequence of pages it yields.
- `list_services()` (aws-services.py:5-9), the SDK's service catalogue, is an input sequence, or the error its listing raises.
- pandas and openpyxl: DataFrame column union and order, the Excel file, its name, and what openpyxl does with a duplicate sheet name. The model stops at the sheets handed to the writer.
- The workbook that get-services.py leaves when a collector raises inside the `with` block. `CollectAll` returns the sheets written so far and the reason.
- Printed progress and the text of exception messages. In load-balancer.py an aborted run is `None`, without the `str(e)` it prints.
- Exceptions from DataFrame construction or sheet writing inside aws-services.py's `main`. Only a failure to list services reaches `ServicesReport`'s error path.
- LoadBalancer.ListTargetInstances: takes load balancers, target-group names and target ids already extracted. A missing `LoadBalancerName`, `LoadBalancerArn`, `TargetGroups`, `TargetGroupArn`, `TargetHealthDescriptions`, `Target.Id` or `TargetGroupName`, and a failing `describe_target_groups` or `describe_target_health` call, are not modelled. Failures of the instance lookup and missing `Reservations`, `Instances`, `State.Name` and `PrivateIpAddress` are modelled, and so are a failure to create a client and a failing `describe_load_balancers()` call.
- Route53.HostedZonesReport: takes the hosted zones as a sequence. A failing `list_hosted_zones`, a missing `HostedZones`, `Id`, `Name` or `ResourceRecordSets` key, and a resource record without `Value` are not modelled (route53.py has no handler for them).
- The general regular-expression engine. The one pattern `^i-[0-9a-f]{17}$` is matched by hand.
- `datetime` contents. A timestamp is a wall clock plus an optional UTC offset, with no calendar validity. `replace(tzinfo=None)` keeps the wall clock and drops the offset.
- Credential resolution. `NoCredentials` and `PartialCredentials` are values of `RunError`.
