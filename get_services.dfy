/**
 * The fixed-collector report of get-services.py: nine collectors, each turning one API response
 * into one row per resource, written as nine sheets in a fixed order. Nested keys are read with
 * `.get(..., {}).get(...)` and come out absent when missing; the top-level list of each response
 * is read with `[...]`, so a missing one raises and ends the run.
 */
module GetServices {
  import opened Wrappers
  import opened AwsModel
  import Seqs

  /** One row of one of the nine sheets; every column read with `.get` may be absent. */
  datatype Row =
    | Ec2Row(instanceId: Option<string>, state: Option<string>, instanceType: Option<string>,
             availabilityZone: Option<string>, publicIp: Option<string>, privateIp: Option<string>,
             launchTime: Option<Timestamp>)
    | SecurityGroupRow(groupId: Option<string>, groupName: Option<string>, description: Option<string>, vpcId: Option<string>)
    | AlbRow(loadBalancerName: Option<string>, dnsName: Option<string>, lbType: Option<string>,
             state: Option<string>, scheme: Option<string>, createdTime: Option<Timestamp>)
    | RdsRow(dbInstanceId: Option<string>, engine: Option<string>, status: Option<string>,
             instanceClass: Option<string>, endpoint: Option<string>, availabilityZone: Option<string>,
             createdTime: Option<Timestamp>)
    | IamUserRow(userName: Option<string>, userId: Option<string>, arn: Option<string>, createdOn: Option<Timestamp>)
    | EcsRow(clusterArn: string)
    | S3Row(bucketName: Option<string>, creationDate: Option<Timestamp>)
    | CloudFrontRow(id: Option<string>, domainName: Option<string>, status: Option<string>, arn: Option<string>, comment: Option<string>)
    | AcmRow(domainName: Option<string>, certificateArn: Option<string>, status: Option<string>, certType: Option<string>)

  /** Why a collector raised: its API call failed, or a key read with `[...]` was missing. */
  datatype Abort = CallFailed(message: string) | MissingKey(key: string)

  // One row per resource

  function Ec2RowOf(inst: Instance): (row: Row)
    ensures row.Ec2Row? && row.instanceId == inst.instanceId && row.instanceType == inst.instanceType
    ensures row.publicIp == inst.publicIpAddress && row.privateIp == inst.privateIpAddress
    ensures inst.state.None? ==> row.state.None?
    ensures inst.state.Some? ==> row.state == inst.state.value.name
    ensures inst.placement.None? ==> row.availabilityZone.None?
    ensures inst.placement.Some? ==> row.availabilityZone == inst.placement.value.availabilityZone
    ensures row.launchTime.Some? <==> inst.launchTime.Some?
    ensures row.launchTime.Some? ==> row.launchTime.value.utcOffset.None? && row.launchTime.value.wallClock == inst.launchTime.value.wallClock
  {
    Ec2Row(
      inst.instanceId,
      match inst.state case None => None case Some(s) => s.name,
      inst.instanceType,
      match inst.placement case None => None case Some(p) => p.availabilityZone,
      inst.publicIpAddress,
      inst.privateIpAddress,
      NormalizeTime(inst.launchTime))
  }

  function SecurityGroupRowOf(sg: SecurityGroup): (row: Row)
    ensures row.SecurityGroupRow?
    ensures row.groupId == sg.groupId && row.groupName == sg.groupName && row.description == sg.description && row.vpcId == sg.vpcId
  {
    SecurityGroupRow(sg.groupId, sg.groupName, sg.description, sg.vpcId)
  }

  function AlbRowOf(lb: LoadBalancerDescription): (row: Row)
    ensures row.AlbRow? && row.loadBalancerName == lb.loadBalancerName && row.dnsName == lb.dnsName
    ensures row.lbType == lb.lbType && row.scheme == lb.scheme
    ensures lb.state.None? ==> row.state.None?
    ensures lb.state.Some? ==> row.state == lb.state.value.code
    ensures row.createdTime.Some? <==> lb.createdTime.Some?
    ensures row.createdTime.Some? ==> row.createdTime.value.utcOffset.None? && row.createdTime.value.wallClock == lb.createdTime.value.wallClock
  {
    AlbRow(
      lb.loadBalancerName,
      lb.dnsName,
      lb.lbType,
      match lb.state case None => None case Some(s) => s.code,
      lb.scheme,
      NormalizeTime(lb.createdTime))
  }

  function RdsRowOf(db: DbInstance): (row: Row)
    ensures row.RdsRow? && row.dbInstanceId == db.identifier && row.engine == db.engine
    ensures row.status == db.status && row.instanceClass == db.instanceClass && row.availabilityZone == db.availabilityZone
    ensures db.endpoint.None? ==> row.endpoint.None?
    ensures db.endpoint.Some? ==> row.endpoint == db.endpoint.value.address
    ensures row.createdTime.Some? <==> db.createTime.Some?
    ensures row.createdTime.Some? ==> row.createdTime.value.utcOffset.None? && row.createdTime.value.wallClock == db.createTime.value.wallClock
  {
    RdsRow(
      db.identifier,
      db.engine,
      db.status,
      db.instanceClass,
      match db.endpoint case None => None case Some(e) => e.address,
      db.availabilityZone,
      NormalizeTime(db.createTime))
  }

  function IamUserRowOf(user: User): (row: Row)
    ensures row.IamUserRow? && row.userName == user.userName && row.userId == user.userId && row.arn == user.arn
    ensures row.createdOn.Some? <==> user.createDate.Some?
    ensures row.createdOn.Some? ==> row.createdOn.value.utcOffset.None? && row.createdOn.value.wallClock == user.createDate.value.wallClock
  {
    IamUserRow(user.userName, user.userId, user.arn, NormalizeTime(user.createDate))
  }

  /** `{"Cluster ARN": arn}`: a single column. */
  function EcsRowOf(arn: string): (row: Row)
    ensures row.EcsRow? && row.clusterArn == arn
  {
    EcsRow(arn)
  }

  function S3RowOf(bucket: Bucket): (row: Row)
    ensures row.S3Row? && row.bucketName == bucket.name
    ensures row.creationDate.Some? <==> bucket.creationDate.Some?
    ensures row.creationDate.Some? ==> row.creationDate.value.utcOffset.None? && row.creationDate.value.wallClock == bucket.creationDate.value.wallClock
  {
    S3Row(bucket.name, NormalizeTime(bucket.creationDate))
  }

  function CloudFrontRowOf(dist: Distribution): (row: Row)
    ensures row.CloudFrontRow? && row.id == dist.id && row.domainName == dist.domainName
    ensures row.status == dist.status && row.arn == dist.arn && row.comment == dist.comment
  {
    CloudFrontRow(dist.id, dist.domainName, dist.status, dist.arn, dist.comment)
  }

  function AcmRowOf(cert: CertificateSummary): (row: Row)
    ensures row.AcmRow? && row.domainName == cert.domainName && row.certificateArn == cert.certificateArn
    ensures row.status == cert.status && row.certType == cert.certType
  {
    AcmRow(cert.domainName, cert.certificateArn, cert.status, cert.certType)
  }

  // One table per collector

  /** `for x in response[key]: rows.append(rowOf(x))`: a KeyError naming `key` when the list is missing. */
  function TableOf<T>(items: Option<seq<T>>, key: string, rowOf: T -> Row): (table: Result<seq<Row>, Abort>)
    ensures table.Failure? <==> items.None?
    ensures items.None? ==> table.error == MissingKey(key)
    ensures items.Some? ==> |table.value| == |items.value|
    ensures items.Some? ==> forall k :: 0 <= k < |items.value| ==> table.value[k] == rowOf(items.value[k])
  {
    match items
    case None => Failure(MissingKey(key))
    case Some(xs) => Success(Seqs.Map(xs, rowOf))
  }

  /** The EC2 collector: `response['Reservations']`, then `reservation['Instances']` for each reservation. */
  function Ec2Table(resp: DescribeInstancesResponse): Result<seq<Row>, Abort>
  {
    match ResponseInstancesStrict(resp)
    case Failure(key) => Failure(MissingKey(key))
    case Success(insts) => Success(Seqs.Map(insts, Ec2RowOf))
  }

  /** The CloudFront collector: `response['DistributionList'].get('Items', [])`. */
  function CloudFrontTable(resp: ListDistributionsResponse): Result<seq<Row>, Abort>
  {
    match resp.distributionList
    case None => Failure(MissingKey("DistributionList"))
    case Some(list) => Success(Seqs.Map(list.items.GetOr([]), CloudFrontRowOf))
  }

  /** The EC2 collector's loops. */
  method FetchEc2Instances(resp: DescribeInstancesResponse) returns (table: Result<seq<Row>, Abort>)
    ensures table == Ec2Table(resp)
  {
    if resp.reservations.None? {
      return Failure(MissingKey("Reservations"));
    }
    var rs := resp.reservations.value;
    var instances: seq<Row> := [];
    ghost var seen: seq<Instance> := [];
    assert rs[0..] == rs;
    PrependAssoc(seen, seen, StrictInstances(rs));
    var i := 0;
    while i < |rs|
      invariant 0 <= i <= |rs|
      invariant StrictInstances(rs) == Prepend(seen, StrictInstances(rs[i..]))
      invariant |instances| == |seen|
      invariant forall k :: 0 <= k < |seen| ==> instances[k] == Ec2RowOf(seen[k])
    {
      assert rs[i..][1..] == rs[i + 1..];
      if rs[i].instances.None? {
        return Failure(MissingKey("Instances"));
      }
      var insts := rs[i].instances.value;
      var j := 0;
      while j < |insts|
        invariant 0 <= j <= |insts|
        invariant |instances| == |seen| + j
        invariant forall k :: 0 <= k < |seen| ==> instances[k] == Ec2RowOf(seen[k])
        invariant forall k :: 0 <= k < j ==> instances[|seen| + k] == Ec2RowOf(insts[k])
      {
        instances := instances + [Ec2RowOf(insts[j])];
        j := j + 1;
      }
      PrependAssoc(seen, insts, StrictInstances(rs[i + 1..]));
      seen := seen + insts;
      i := i + 1;
    }
    assert rs[|rs|..] == [];
    assert seen + [] == seen;
    assert instances == Seqs.Map(seen, Ec2RowOf);
    return Success(instances);
  }

  /** The single loop of the other collectors, after the top-level lookup. */
  method FetchTable<T>(items: Option<seq<T>>, key: string, rowOf: T -> Row) returns (table: Result<seq<Row>, Abort>)
    ensures table == TableOf(items, key, rowOf)
  {
    if items.None? {
      return Failure(MissingKey(key));
    }
    var rows := Seqs.MapAppend(items.value, rowOf);
    return Success(rows);
  }

  // The collectors of main

  datatype Collector = Ec2 | SecurityGroups | Alb | Rds | IamUsers | Ecs | S3 | CloudFront | Acm

  /** The collectors in the order `data_collectors` lists them. */
  const Collectors: seq<Collector> := [Ec2, SecurityGroups, Alb, Rds, IamUsers, Ecs, S3, CloudFront, Acm]

  /** The sheet each collector writes. */
  function SheetName(c: Collector): string
  {
    match c
    case Ec2 => "EC2"
    case SecurityGroups => "SECURITY GROUP"
    case Alb => "ALB"
    case Rds => "RDS"
    case IamUsers => "IAM USER"
    case Ecs => "ECS"
    case S3 => "S3"
    case CloudFront => "CLOUDFRONT"
    case Acm => "ACM"
  }

  /** What each API call returns, or the message it raises with. */
  datatype Api = Api(
    describeInstances: Result<DescribeInstancesResponse, string>,
    describeSecurityGroups: Result<DescribeSecurityGroupsResponse, string>,
    describeLoadBalancers: Result<DescribeLoadBalancersResponse, string>,
    describeDbInstances: Result<DescribeDbInstancesResponse, string>,
    listUsers: Result<ListUsersResponse, string>,
    listClusters: Result<ListClustersResponse, string>,
    listBuckets: Result<ListBucketsResponse, string>,
    listDistributions: Result<ListDistributionsResponse, string>,
    listCertificates: Result<ListCertificatesResponse, string>)

  /** The table a collector produces, or why it raised. */
  function CollectorTable(c: Collector, api: Api): Result<seq<Row>, Abort>
  {
    match c
    case Ec2 =>
      (match api.describeInstances
       case Failure(m) => Failure(CallFailed(m))
       case Success(r) => Ec2Table(r))
    case SecurityGroups =>
      (match api.describeSecurityGroups
       case Failure(m) => Failure(CallFailed(m))
       case Success(r) => TableOf(r.securityGroups, "SecurityGroups", SecurityGroupRowOf))
    case Alb =>
      (match api.describeLoadBalancers
       case Failure(m) => Failure(CallFailed(m))
       case Success(r) => TableOf(r.loadBalancers, "LoadBalancers", AlbRowOf))
    case Rds =>
      (match api.describeDbInstances
       case Failure(m) => Failure(CallFailed(m))
       case Success(r) => TableOf(r.dbInstances, "DBInstances", RdsRowOf))
    case IamUsers =>
      (match api.listUsers
       case Failure(m) => Failure(CallFailed(m))
       case Success(r) => TableOf(r.users, "Users", IamUserRowOf))
    case Ecs =>
      (match api.listClusters
       case Failure(m) => Failure(CallFailed(m))
       case Success(r) => TableOf(r.clusterArns, "clusterArns", EcsRowOf))
    case S3 =>
      (match api.listBuckets
       case Failure(m) => Failure(CallFailed(m))
       case Success(r) => TableOf(r.buckets, "Buckets", S3RowOf))
    case CloudFront =>
      (match api.listDistributions
       case Failure(m) => Failure(CallFailed(m))
       case Success(r) => CloudFrontTable(r))
    case Acm =>
      (match api.listCertificates
       case Failure(m) => Failure(CallFailed(m))
       case Success(r) => TableOf(r.certificateSummaryList, "CertificateSummaryList", AcmRowOf))
  }

  /** `fetch_function()` for one collector. */
  method RunCollector(c: Collector, api: Api) returns (table: Result<seq<Row>, Abort>)
    ensures table == CollectorTable(c, api)
  {
    match c {
      case Ec2 =>
        match api.describeInstances {
          case Failure(m) => table := Failure(CallFailed(m));
          case Success(r) => table := FetchEc2Instances(r);
        }
      case SecurityGroups =>
        match api.describeSecurityGroups {
          case Failure(m) => table := Failure(CallFailed(m));
          case Success(r) => table := FetchTable(r.securityGroups, "SecurityGroups", SecurityGroupRowOf);
        }
      case Alb =>
        match api.describeLoadBalancers {
          case Failure(m) => table := Failure(CallFailed(m));
          case Success(r) => table := FetchTable(r.loadBalancers, "LoadBalancers", AlbRowOf);
        }
      case Rds =>
        match api.describeDbInstances {
          case Failure(m) => table := Failure(CallFailed(m));
          case Success(r) => table := FetchTable(r.dbInstances, "DBInstances", RdsRowOf);
        }
      case IamUsers =>
        match api.listUsers {
          case Failure(m) => table := Failure(CallFailed(m));
          case Success(r) => table := FetchTable(r.users, "Users", IamUserRowOf);
        }
      case Ecs =>
        match api.listClusters {
          case Failure(m) => table := Failure(CallFailed(m));
          case Success(r) => table := FetchTable(r.clusterArns, "clusterArns", EcsRowOf);
        }
      case S3 =>
        match api.listBuckets {
          case Failure(m) => table := Failure(CallFailed(m));
          case Success(r) => table := FetchTable(r.buckets, "Buckets", S3RowOf);
        }
      case CloudFront =>
        match api.listDistributions {
          case Failure(m) => table := Failure(CallFailed(m));
          case Success(r) =>
            if r.distributionList.None? {
              table := Failure(MissingKey("DistributionList"));
            } else {
              var rows := Seqs.MapAppend(r.distributionList.value.items.GetOr([]), CloudFrontRowOf);
              table := Success(rows);
            }
        }
      case Acm =>
        match api.listCertificates {
          case Failure(m) => table := Failure(CallFailed(m));
          case Success(r) => table := FetchTable(r.certificateSummaryList, "CertificateSummaryList", AcmRowOf);
        }
    }
  }

  /** One sheet of the workbook. */
  datatype Sheet = Sheet(name: string, rows: seq<Row>)

  /**
   * The sheets written by running `cs` in order, and the reason the run stopped if a collector
   * raised: the exception leaves `main` at once, so no later collector runs.
   */
  function Report(cs: seq<Collector>, api: Api): (seq<Sheet>, Option<Abort>)
  {
    if |cs| == 0 then ([], None)
    else
      match CollectorTable(cs[0], api)
      case Failure(e) => ([], Some(e))
      case Success(rows) =>
        var rest := Report(cs[1..], api);
        ([Sheet(SheetName(cs[0]), rows)] + rest.0, rest.1)
  }

  /**
   * A run writes one sheet per collector, in order, up to the first that raises; it stops with
   * that collector's reason, and completes exactly when no collector raises.
   */
  lemma {:induction false} ReportShape(cs: seq<Collector>, api: Api)
    ensures var r := Report(cs, api);
      && |r.0| <= |cs|
      && (forall i :: 0 <= i < |r.0| ==>
            CollectorTable(cs[i], api).Success? && r.0[i] == Sheet(SheetName(cs[i]), CollectorTable(cs[i], api).value))
      && (r.1.None? <==> forall i :: 0 <= i < |cs| ==> CollectorTable(cs[i], api).Success?)
      && (r.1.None? ==> |r.0| == |cs|)
      && (r.1.Some? ==> |r.0| < |cs| && CollectorTable(cs[|r.0|], api) == Failure(r.1.value))
  {
    if |cs| > 0 && CollectorTable(cs[0], api).Success? {
      ReportShape(cs[1..], api);
      var rest := Report(cs[1..], api);
      var r := Report(cs, api);
      assert r.0 == [Sheet(SheetName(cs[0]), CollectorTable(cs[0], api).value)] + rest.0;
      forall i | 1 <= i < |r.0|
        ensures CollectorTable(cs[i], api).Success? && r.0[i] == Sheet(SheetName(cs[i]), CollectorTable(cs[i], api).value)
      {
        assert r.0[i] == rest.0[i - 1] && cs[i] == cs[1..][i - 1];
      }
      if r.1.None? {
        forall i | 0 <= i < |cs| ensures CollectorTable(cs[i], api).Success? {
          if i > 0 {
            assert cs[i] == cs[1..][i - 1];
          }
        }
      } else {
        assert cs[|r.0|] == cs[1..][|rest.0|];
      }
    }
  }

  /** `main`: the collectors in their fixed order, stopping at the first that raises. */
  method CollectAll(api: Api) returns (sheets: seq<Sheet>, stopped: Option<Abort>)
    ensures (sheets, stopped) == Report(Collectors, api)
    ensures stopped.None? ==> |sheets| == |Collectors| && forall i :: 0 <= i < |Collectors| ==> sheets[i].name == SheetName(Collectors[i])
  {
    sheets := [];
    var i := 0;
    assert Collectors[0..] == Collectors;
    assert sheets + Report(Collectors, api).0 == Report(Collectors, api).0;
    while i < |Collectors|
      invariant 0 <= i <= |Collectors|
      invariant Report(Collectors, api) == (sheets + Report(Collectors[i..], api).0, Report(Collectors[i..], api).1)
    {
      var c := Collectors[i];
      assert Collectors[i..][1..] == Collectors[i + 1..];
      var table := RunCollector(c, api);
      if table.Failure? {
        assert sheets + [] == sheets;
        stopped := Some(table.error);
        ReportShape(Collectors, api);
        return;
      }
      ghost var rest := Report(Collectors[i + 1..], api);
      assert sheets + ([Sheet(SheetName(c), table.value)] + rest.0) == (sheets + [Sheet(SheetName(c), table.value)]) + rest.0;
      sheets := sheets + [Sheet(SheetName(c), table.value)];
      i := i + 1;
    }
    assert Collectors[|Collectors|..] == [];
    assert sheets + [] == sheets;
    stopped := None;
    ReportShape(Collectors, api);
  }

  // Properties of the collectors

  /** The nine sheet names are distinct, non-empty and within the 31-character limit of a sheet name. */
  lemma {:induction false} SheetNamesValid()
    ensures forall i, j :: 0 <= i < j < |Collectors| ==> SheetName(Collectors[i]) != SheetName(Collectors[j])
    ensures forall i :: 0 <= i < |Collectors| ==> 0 < |SheetName(Collectors[i])| <= 31
    ensures forall c: Collector :: c in Collectors
  {
    forall c: Collector ensures c in Collectors {
      match c {
        case Ec2 => assert Collectors[0] == c;
        case SecurityGroups => assert Collectors[1] == c;
        case Alb => assert Collectors[2] == c;
        case Rds => assert Collectors[3] == c;
        case IamUsers => assert Collectors[4] == c;
        case Ecs => assert Collectors[5] == c;
        case S3 => assert Collectors[6] == c;
        case CloudFront => assert Collectors[7] == c;
        case Acm => assert Collectors[8] == c;
      }
    }
  }

  /**
   * EC2 raises exactly when Reservations is missing or some reservation lacks Instances, naming
   * the missing key; otherwise it has one row per instance of every reservation, in order.
   */
  lemma {:induction false} Ec2TableShape(resp: DescribeInstancesResponse)
    ensures Ec2Table(resp).Success? <==>
      resp.reservations.Some? && forall i :: 0 <= i < |resp.reservations.value| ==> resp.reservations.value[i].instances.Some?
    ensures resp.reservations.None? ==> Ec2Table(resp) == Failure(MissingKey("Reservations"))
    ensures resp.reservations.Some? && Ec2Table(resp).Failure? ==> Ec2Table(resp) == Failure(MissingKey("Instances"))
    ensures Ec2Table(resp).Success? ==>
      var rows := Ec2Table(resp).value;
      var insts := ResponseInstancesLenient(resp);
      && |rows| == Seqs.TotalLength(Seqs.Map(resp.reservations.value, InstancesOrEmpty))
      && |rows| == |insts|
      && forall k :: 0 <= k < |insts| ==> rows[k] == Ec2RowOf(insts[k])
  {
    if resp.reservations.Some? {
      var rs := resp.reservations.value;
      StrictAgreesWithLenient(rs);
      LenientIsConcat(rs);
      Seqs.ConcatLength(Seqs.Map(rs, InstancesOrEmpty));
    }
  }

  /** CloudFront with a DistributionList but no Items has no rows; without a DistributionList it raises. */
  lemma {:induction false} CloudFrontWithoutItems(resp: ListDistributionsResponse)
    ensures resp.distributionList.None? ==> CloudFrontTable(resp) == Failure(MissingKey("DistributionList"))
    ensures resp.distributionList.Some? && resp.distributionList.value.items.None? ==> CloudFrontTable(resp) == Success([])
    ensures resp.distributionList.Some? && resp.distributionList.value.items.Some? ==>
      |CloudFrontTable(resp).value| == |resp.distributionList.value.items.value|
  {
  }

  /**
   * Unlike the service dispatcher, which reads every list with `.get(key, [])`, a successful call
   * whose top-level list is missing makes its collector raise, naming that key.
   */
  lemma {:induction false} MissingTopLevelKeyRaises(api: Api)
    ensures api.describeSecurityGroups.Success? && api.describeSecurityGroups.value.securityGroups.None? ==>
      CollectorTable(SecurityGroups, api) == Failure(MissingKey("SecurityGroups"))
    ensures api.describeLoadBalancers.Success? && api.describeLoadBalancers.value.loadBalancers.None? ==>
      CollectorTable(Alb, api) == Failure(MissingKey("LoadBalancers"))
    ensures api.describeDbInstances.Success? && api.describeDbInstances.value.dbInstances.None? ==>
      CollectorTable(Rds, api) == Failure(MissingKey("DBInstances"))
    ensures api.listUsers.Success? && api.listUsers.value.users.None? ==>
      CollectorTable(IamUsers, api) == Failure(MissingKey("Users"))
    ensures api.listClusters.Success? && api.listClusters.value.clusterArns.None? ==>
      CollectorTable(Ecs, api) == Failure(MissingKey("clusterArns"))
    ensures api.listBuckets.Success? && api.listBuckets.value.buckets.None? ==>
      CollectorTable(S3, api) == Failure(MissingKey("Buckets"))
    ensures api.listCertificates.Success? && api.listCertificates.value.certificateSummaryList.None? ==>
      CollectorTable(Acm, api) == Failure(MissingKey("CertificateSummaryList"))
  {
  }

  /** ECS has exactly one single-column row per cluster ARN, in order. */
  lemma {:induction false} EcsRowPerArn(api: Api)
    requires api.listClusters.Success? && api.listClusters.value.clusterArns.Some?
    ensures var arns := api.listClusters.value.clusterArns.value;
      && CollectorTable(Ecs, api).Success?
      && |CollectorTable(Ecs, api).value| == |arns|
      && forall k :: 0 <= k < |arns| ==> CollectorTable(Ecs, api).value[k] == EcsRow(arns[k])
  {
  }
}
