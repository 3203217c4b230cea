/**
 * The parts of the provider's API responses that the scripts read, as values. Every key a
 * script reads with `.get` is an Option; a key it indexes with `[...]` is an Option too when
 * some script reads it with `.get` or when its absence is a case the model follows.
 */
module AwsModel {
  import opened Wrappers
  import Seqs

  /** The calendar fields of a `datetime`. */
  datatype WallClock = WallClock(year: int, month: int, day: int, hour: int, minute: int, second: int, microsecond: int)

  /** A `datetime`: its wall clock and its `tzinfo`, as a UTC offset in minutes (None: naive). */
  datatype Timestamp = Timestamp(wallClock: WallClock, utcOffset: Option<int>)

  /** `t.replace(tzinfo=None)`: the same wall clock, no offset. */
  function StripTimezone(t: Timestamp): (r: Timestamp)
    ensures r.utcOffset == None
    ensures r.wallClock == t.wallClock
  {
    t.(utcOffset := None)
  }

  /**
   * `x = d.get(key); if x: x = x.replace(tzinfo=None)`. A `datetime` is always truthy, so the
   * strip happens exactly when the key is present.
   */
  function NormalizeTime(t: Option<Timestamp>): (r: Option<Timestamp>)
    ensures r.Some? <==> t.Some?
    ensures r.Some? ==> r.value.utcOffset == None && r.value.wallClock == t.value.wallClock
  {
    match t
    case None => None
    case Some(v) => Some(StripTimezone(v))
  }

  /** Stripping twice is stripping once. */
  lemma {:induction false} NormalizeTimeIdempotent(t: Option<Timestamp>)
    ensures NormalizeTime(NormalizeTime(t)) == NormalizeTime(t)
  {
  }

  // EC2 describe_instances

  datatype InstanceState = InstanceState(name: Option<string>)
  datatype Placement = Placement(availabilityZone: Option<string>)
  datatype Instance = Instance(
    instanceId: Option<string>,
    state: Option<InstanceState>,
    instanceType: Option<string>,
    placement: Option<Placement>,
    publicIpAddress: Option<string>,
    privateIpAddress: Option<string>,
    launchTime: Option<Timestamp>)
  datatype Reservation = Reservation(instances: Option<seq<Instance>>)
  datatype DescribeInstancesResponse = DescribeInstancesResponse(reservations: Option<seq<Reservation>>)

  // S3 list_buckets, RDS describe_db_instances, Lambda list_functions

  datatype Bucket = Bucket(name: Option<string>, creationDate: Option<Timestamp>)
  datatype ListBucketsResponse = ListBucketsResponse(buckets: Option<seq<Bucket>>)

  datatype Endpoint = Endpoint(address: Option<string>)
  datatype DbInstance = DbInstance(
    identifier: Option<string>,
    engine: Option<string>,
    status: Option<string>,
    instanceClass: Option<string>,
    endpoint: Option<Endpoint>,
    availabilityZone: Option<string>,
    createTime: Option<Timestamp>)
  datatype DescribeDbInstancesResponse = DescribeDbInstancesResponse(dbInstances: Option<seq<DbInstance>>)

  datatype LambdaFunction = LambdaFunction(functionName: Option<string>, functionArn: Option<string>, runtime: Option<string>)
  datatype ListFunctionsResponse = ListFunctionsResponse(functions: Option<seq<LambdaFunction>>)

  // EC2 describe_security_groups, ELBv2 describe_load_balancers, IAM list_users, ECS list_clusters

  datatype SecurityGroup = SecurityGroup(groupId: Option<string>, groupName: Option<string>, description: Option<string>, vpcId: Option<string>)
  datatype DescribeSecurityGroupsResponse = DescribeSecurityGroupsResponse(securityGroups: Option<seq<SecurityGroup>>)

  datatype LoadBalancerState = LoadBalancerState(code: Option<string>)
  datatype LoadBalancerDescription = LoadBalancerDescription(
    loadBalancerName: Option<string>,
    dnsName: Option<string>,
    lbType: Option<string>,
    state: Option<LoadBalancerState>,
    scheme: Option<string>,
    createdTime: Option<Timestamp>)
  datatype DescribeLoadBalancersResponse = DescribeLoadBalancersResponse(loadBalancers: Option<seq<LoadBalancerDescription>>)

  datatype User = User(userName: Option<string>, userId: Option<string>, arn: Option<string>, createDate: Option<Timestamp>)
  datatype ListUsersResponse = ListUsersResponse(users: Option<seq<User>>)

  datatype ListClustersResponse = ListClustersResponse(clusterArns: Option<seq<string>>)

  // CloudFront list_distributions, ACM list_certificates

  datatype Distribution = Distribution(id: Option<string>, domainName: Option<string>, status: Option<string>, arn: Option<string>, comment: Option<string>)
  datatype DistributionList = DistributionList(items: Option<seq<Distribution>>)
  datatype ListDistributionsResponse = ListDistributionsResponse(distributionList: Option<DistributionList>)

  datatype CertificateSummary = CertificateSummary(domainName: Option<string>, certificateArn: Option<string>, status: Option<string>, certType: Option<string>)
  datatype ListCertificatesResponse = ListCertificatesResponse(certificateSummaryList: Option<seq<CertificateSummary>>)

  // Walking reservations to instances, in the two ways the scripts do it

  /** `xs` in front of a successful result; a failure stays the same failure. */
  function Prepend<T>(xs: seq<T>, r: Result<seq<T>, string>): Result<seq<T>, string>
  {
    match r
    case Success(ys) => Success(xs + ys)
    case Failure(e) => Failure(e)
  }

  lemma {:induction false} PrependAssoc<T>(xs: seq<T>, ys: seq<T>, r: Result<seq<T>, string>)
    ensures Prepend(xs, Prepend(ys, r)) == Prepend(xs + ys, r)
    ensures Prepend([], r) == r
  {
    if r.Success? {
      assert xs + (ys + r.value) == xs + ys + r.value;
      assert [] + r.value == r.value;
    }
  }

  /**
   * `for reservation in rs: for instance in reservation['Instances']`: the instances of the
   * reservations in order, or a KeyError naming 'Instances' at the first reservation without them.
   */
  function StrictInstances(rs: seq<Reservation>): Result<seq<Instance>, string>
  {
    if |rs| == 0 then Success([])
    else
      match rs[0].instances
      case None => Failure("Instances")
      case Some(first) => Prepend(first, StrictInstances(rs[1..]))
  }

  /** `response['Reservations']` walked strictly. */
  function ResponseInstancesStrict(resp: DescribeInstancesResponse): Result<seq<Instance>, string>
  {
    match resp.reservations
    case None => Failure("Reservations")
    case Some(rs) => StrictInstances(rs)
  }

  /** `reservation.get("Instances", [])`. */
  function InstancesOrEmpty(r: Reservation): seq<Instance>
  {
    r.instances.GetOr([])
  }

  /** `for reservation in rs: for instance in reservation.get("Instances", [])`. */
  function LenientInstances(rs: seq<Reservation>): seq<Instance>
  {
    if |rs| == 0 then [] else InstancesOrEmpty(rs[0]) + LenientInstances(rs[1..])
  }

  /** `response.get("Reservations", [])` walked leniently. */
  function ResponseInstancesLenient(resp: DescribeInstancesResponse): seq<Instance>
  {
    LenientInstances(resp.reservations.GetOr([]))
  }

  /** The lenient walk is the concatenation of every reservation's instance list, in order. */
  lemma {:induction false} LenientIsConcat(rs: seq<Reservation>)
    ensures LenientInstances(rs) == Seqs.Concat(Seqs.Map(rs, InstancesOrEmpty))
  {
    if |rs| > 0 {
      LenientIsConcat(rs[1..]);
      assert Seqs.Map(rs, InstancesOrEmpty)[1..] == Seqs.Map(rs[1..], InstancesOrEmpty);
    }
  }

  /**
   * The strict walk fails exactly when some reservation lacks its 'Instances' key, and when it
   * succeeds it yields what the lenient walk yields.
   */
  lemma {:induction false} StrictAgreesWithLenient(rs: seq<Reservation>)
    ensures StrictInstances(rs).Success? <==> forall i :: 0 <= i < |rs| ==> rs[i].instances.Some?
    ensures StrictInstances(rs).Failure? ==> StrictInstances(rs).error == "Instances"
    ensures StrictInstances(rs).Success? ==> StrictInstances(rs).value == LenientInstances(rs)
  {
    if |rs| > 0 {
      StrictAgreesWithLenient(rs[1..]);
      if rs[0].instances.Some? {
        forall i | 1 <= i < |rs| ensures rs[i].instances == rs[1..][i - 1].instances {}
      }
    }
  }

  /** At the response level: a missing 'Reservations' key fails strictly and reads as empty leniently. */
  lemma {:induction false} ResponseStrictAgreesWithLenient(resp: DescribeInstancesResponse)
    ensures resp.reservations.None? ==> ResponseInstancesStrict(resp) == Failure("Reservations") && ResponseInstancesLenient(resp) == []
    ensures ResponseInstancesStrict(resp).Success? ==> ResponseInstancesStrict(resp).value == ResponseInstancesLenient(resp)
  {
    if resp.reservations.Some? {
      StrictAgreesWithLenient(resp.reservations.value);
    }
  }
}
