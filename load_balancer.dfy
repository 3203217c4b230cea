/**
 * The target report of load-balancer.py: every target of every target group of every load
 * balancer becomes rows. A target whose id looks like an EC2 instance id is resolved through an
 * instance lookup into one row per instance; any other target (an IP address) becomes one row
 * that carries the address.
 */
module LoadBalancer {
  import opened Wrappers
  import opened AwsModel

  // The instance-id pattern ^i-[0-9a-f]{17}$, matched by hand

  predicate IsHexDigit(c: char)
  {
    '0' <= c <= '9' || 'a' <= c <= 'f'
  }

  /** `[0-9a-f]{n}` matched at position `i`. */
  function MatchHexRun(s: string, i: nat, n: nat): (r: bool)
    requires i <= |s|
    ensures r <==> i + n <= |s| && forall k :: i <= k < i + n ==> IsHexDigit(s[k])
    decreases n
  {
    if n == 0 then true
    else if i >= |s| then false
    else
      assert i + n <= |s| ==>
        ((forall k :: i <= k < i + n ==> IsHexDigit(s[k]))
         <==> IsHexDigit(s[i]) && forall k :: i + 1 <= k < i + n ==> IsHexDigit(s[k]));
      IsHexDigit(s[i]) && MatchHexRun(s, i + 1, n - 1)
  }

  /** Python's `$`: the end of the string, or just before a newline that ends it. */
  predicate MatchesEnd(s: string, i: nat)
  {
    i == |s| || (i + 1 == |s| && s[i] == '\n')
  }

  /** `re.match(r'^i-[0-9a-f]{17}$', id)` is truthy. */
  function IsValidInstanceId(id: string): (r: bool)
    ensures r <==>
      && (|id| == 19 || (|id| == 20 && id[19] == '\n'))
      && id[0] == 'i' && id[1] == '-'
      && forall k :: 2 <= k < 19 ==> IsHexDigit(id[k])
  {
    |id| >= 2 && id[0] == 'i' && id[1] == '-' && MatchHexRun(id, 2, 17) && MatchesEnd(id, 19)
  }

  /** Seventeen lower-case hex digits after "i-" are an instance id; sixteen or eighteen are not. */
  lemma {:induction false} InstanceIdLength(h: string)
    requires forall k :: 0 <= k < |h| ==> IsHexDigit(h[k])
    ensures IsValidInstanceId("i-" + h) <==> |h| == 17
  {
    if |h| == 18 {
      assert ("i-" + h)[19] == h[17];
    }
  }

  /** An upper-case hex digit anywhere in the digits rejects the id. */
  lemma {:induction false} UpperCaseRejected(id: string, k: nat)
    requires 2 <= k < 19 && k < |id| && 'A' <= id[k] <= 'F'
    ensures !IsValidInstanceId(id)
  {
  }

  /** Only the prefix "i-" is accepted, at the very start. */
  lemma {:induction false} OtherPrefixRejected(id: string)
    requires |id| < 2 || id[..2] != "i-"
    ensures !IsValidInstanceId(id)
  {
  }

  /** Python's `$` also matches before a final newline, so "i-" + 17 hex digits + "\n" is accepted. */
  lemma {:induction false} TrailingNewlineAccepted(h: string)
    requires |h| == 17 && forall k :: 0 <= k < 17 ==> IsHexDigit(h[k])
    ensures IsValidInstanceId("i-" + h + "\n")
    ensures !IsValidInstanceId("i-" + h + "\n\n")
  {
    var id := "i-" + h + "\n";
    assert id[19] == '\n';
    forall k | 2 <= k < 19 ensures IsHexDigit(id[k]) {
      assert id[k] == h[k - 2];
    }
  }

  // The inputs and the rows

  /** A target group's TargetGroupName and the Target Ids its health descriptions list. */
  datatype TargetGroup = TargetGroup(name: string, targets: seq<string>)

  /** A load balancer's LoadBalancerName and its target groups. */
  datatype Balancer = Balancer(name: string, targetGroups: seq<TargetGroup>)

  /** One row of the "Target Instances" sheet. */
  datatype TargetRow = TargetRow(loadBalancerName: string, targetGroupName: string, instanceId: string, state: string, privateIp: string)

  /** A target together with the load balancer and target group it was found under. */
  datatype TargetRef = TargetRef(loadBalancerName: string, targetGroupName: string, targetId: string)

  /** `describe_instances(InstanceIds=[id])`; None when the call raises. */
  type Lookup = string -> Option<DescribeInstancesResponse>

  /** Both parts succeed, one after the other; any failure aborts. */
  function Then<T>(a: Option<seq<T>>, b: Option<seq<T>>): Option<seq<T>>
  {
    if a.Some? && b.Some? then Some(a.value + b.value) else None
  }

  lemma {:induction false} ThenUnit<T>(a: Option<seq<T>>)
    ensures Then(Some([]), a) == a && Then(a, Some([])) == a
  {
    if a.Some? {
      assert [] + a.value == a.value + [] == a.value;
    }
  }

  lemma {:induction false} ThenAssoc<T>(a: Option<seq<T>>, b: Option<seq<T>>, c: Option<seq<T>>)
    ensures Then(Then(a, b), c) == Then(a, Then(b, c))
  {
    if a.Some? && b.Some? && c.Some? {
      assert a.value + b.value + c.value == a.value + (b.value + c.value);
    }
  }

  /** An instance read as `instance['State']['Name']` and `instance['PrivateIpAddress']` has both keys. */
  predicate HasStateAndAddress(inst: Instance)
  {
    inst.state.Some? && inst.state.value.name.Some? && inst.privateIpAddress.Some?
  }

  /** The row of one instance resolved for `ref`; None for the KeyError of a missing key. */
  function InstanceRow(ref: TargetRef, inst: Instance): Option<seq<TargetRow>>
  {
    if HasStateAndAddress(inst) then
      Some([TargetRow(ref.loadBalancerName, ref.targetGroupName, ref.targetId, inst.state.value.name.value, inst.privateIpAddress.value)])
    else None
  }

  /** The rows of the instances a lookup returned, in order. */
  function InstanceRows(ref: TargetRef, insts: seq<Instance>): Option<seq<TargetRow>>
  {
    if |insts| == 0 then Some([]) else Then(InstanceRow(ref, insts[0]), InstanceRows(ref, insts[1..]))
  }

  /** The row of a target that is not an instance id. */
  function AddressRow(ref: TargetRef): TargetRow
  {
    TargetRow(ref.loadBalancerName, ref.targetGroupName, "N/A", "N/A", ref.targetId)
  }

  /** The rows of a lookup's reservations, reservation by reservation; None for a KeyError. */
  function ReservationRows(ref: TargetRef, rs: seq<Reservation>): Option<seq<TargetRow>>
  {
    if |rs| == 0 then Some([])
    else
      match rs[0].instances
      case None => None
      case Some(insts) => Then(InstanceRows(ref, insts), ReservationRows(ref, rs[1..]))
  }

  /** The rows one target contributes; None when resolving it raises. */
  function TargetRows(ref: TargetRef, lookup: Lookup): Option<seq<TargetRow>>
  {
    if !IsValidInstanceId(ref.targetId) then Some([AddressRow(ref)])
    else
      match lookup(ref.targetId)
      case None => None
      case Some(resp) =>
        match resp.reservations
        case None => None
        case Some(rs) => ReservationRows(ref, rs)
  }

  /** The rows of a sequence of targets, in order; None when any of them raises. */
  function RowsFor(refs: seq<TargetRef>, lookup: Lookup): Option<seq<TargetRow>>
  {
    if |refs| == 0 then Some([]) else Then(TargetRows(refs[0], lookup), RowsFor(refs[1..], lookup))
  }

  /** The targets of one target group, in order. */
  function GroupRefs(lbName: string, tgName: string, targets: seq<string>): seq<TargetRef>
  {
    if |targets| == 0 then [] else [TargetRef(lbName, tgName, targets[0])] + GroupRefs(lbName, tgName, targets[1..])
  }

  /** The targets of the target groups of one load balancer, group by group. */
  function BalancerRefs(lbName: string, groups: seq<TargetGroup>): seq<TargetRef>
  {
    if |groups| == 0 then []
    else GroupRefs(lbName, groups[0].name, groups[0].targets) + BalancerRefs(lbName, groups[1..])
  }

  /** All targets in the order the nested loops visit them: load balancer, target group, target. */
  function TraversalOrder(lbs: seq<Balancer>): seq<TargetRef>
  {
    if |lbs| == 0 then []
    else BalancerRefs(lbs[0].name, lbs[0].targetGroups) + TraversalOrder(lbs[1..])
  }

  // The loops. Each level appends to the rows gathered so far (`data`), as the script appends to
  // `target_instance_data`; None stands for the exception that ends the run.

  /** `for instance in reservation['Instances']: target_instance_data.append(...)`. */
  method EmitInstances(ref: TargetRef, data: seq<TargetRow>, insts: seq<Instance>) returns (out: Option<seq<TargetRow>>)
    ensures out == Then(Some(data), InstanceRows(ref, insts))
  {
    var acc := data;
    var j := 0;
    assert insts[0..] == insts;
    while j < |insts|
      invariant 0 <= j <= |insts|
      invariant Then(Some(data), InstanceRows(ref, insts)) == Then(Some(acc), InstanceRows(ref, insts[j..]))
    {
      assert insts[j..][1..] == insts[j + 1..];
      var row := InstanceRow(ref, insts[j]);
      ThenAssoc(Some(acc), row, InstanceRows(ref, insts[j + 1..]));
      if row.None? {
        return None;
      }
      acc := acc + row.value;
      j := j + 1;
    }
    assert insts[|insts|..] == [];
    ThenUnit(Some(acc));
    return Some(acc);
  }

  /**
   * The rows of one target, resolved as the inner loops do it: classify, look up, then walk
   * reservations and their instances.
   */
  method ResolveTarget(ref: TargetRef, data: seq<TargetRow>, lookup: Lookup) returns (out: Option<seq<TargetRow>>)
    ensures out == Then(Some(data), TargetRows(ref, lookup))
  {
    if !IsValidInstanceId(ref.targetId) {
      return Some(data + [AddressRow(ref)]);
    }
    var details := lookup(ref.targetId);
    if details.None? || details.value.reservations.None? {
      return None;
    }
    var rs := details.value.reservations.value;
    var acc := data;
    var i := 0;
    assert rs[0..] == rs;
    while i < |rs|
      invariant 0 <= i <= |rs|
      invariant Then(Some(data), ReservationRows(ref, rs)) == Then(Some(acc), ReservationRows(ref, rs[i..]))
    {
      assert rs[i..][1..] == rs[i + 1..];
      if rs[i].instances.None? {
        return None;
      }
      var insts := rs[i].instances.value;
      ThenAssoc(Some(acc), InstanceRows(ref, insts), ReservationRows(ref, rs[i + 1..]));
      var next := EmitInstances(ref, acc, insts);
      if next.None? {
        return None;
      }
      acc := next.value;
      i := i + 1;
    }
    assert rs[|rs|..] == [];
    ThenUnit(Some(acc));
    return Some(acc);
  }

  /** `for target in targets`: every target of one target group. */
  method EmitTargetGroup(lbName: string, tg: TargetGroup, data: seq<TargetRow>, lookup: Lookup) returns (out: Option<seq<TargetRow>>)
    ensures out == Then(Some(data), RowsFor(GroupRefs(lbName, tg.name, tg.targets), lookup))
  {
    var acc := data;
    var k := 0;
    assert tg.targets[0..] == tg.targets;
    while k < |tg.targets|
      invariant 0 <= k <= |tg.targets|
      invariant Then(Some(data), RowsFor(GroupRefs(lbName, tg.name, tg.targets), lookup))
        == Then(Some(acc), RowsFor(GroupRefs(lbName, tg.name, tg.targets[k..]), lookup))
    {
      var ref := TargetRef(lbName, tg.name, tg.targets[k]);
      assert tg.targets[k..][1..] == tg.targets[k + 1..];
      var rest := GroupRefs(lbName, tg.name, tg.targets[k + 1..]);
      assert GroupRefs(lbName, tg.name, tg.targets[k..]) == [ref] + rest;
      assert ([ref] + rest)[1..] == rest;
      ThenAssoc(Some(acc), TargetRows(ref, lookup), RowsFor(rest, lookup));
      var next := ResolveTarget(ref, acc, lookup);
      if next.None? {
        return None;
      }
      acc := next.value;
      k := k + 1;
    }
    assert tg.targets[|tg.targets|..] == [];
    ThenUnit(Some(acc));
    return Some(acc);
  }

  /** `for tg in target_groups`: every target group of one load balancer. */
  method EmitLoadBalancer(lb: Balancer, data: seq<TargetRow>, lookup: Lookup) returns (out: Option<seq<TargetRow>>)
    ensures out == Then(Some(data), RowsFor(BalancerRefs(lb.name, lb.targetGroups), lookup))
  {
    var acc := data;
    var j := 0;
    assert lb.targetGroups[0..] == lb.targetGroups;
    while j < |lb.targetGroups|
      invariant 0 <= j <= |lb.targetGroups|
      invariant Then(Some(data), RowsFor(BalancerRefs(lb.name, lb.targetGroups), lookup))
        == Then(Some(acc), RowsFor(BalancerRefs(lb.name, lb.targetGroups[j..]), lookup))
    {
      var tg := lb.targetGroups[j];
      assert lb.targetGroups[j..][1..] == lb.targetGroups[j + 1..];
      RowsForAppend(GroupRefs(lb.name, tg.name, tg.targets), BalancerRefs(lb.name, lb.targetGroups[j + 1..]), lookup);
      ThenAssoc(Some(acc), RowsFor(GroupRefs(lb.name, tg.name, tg.targets), lookup), RowsFor(BalancerRefs(lb.name, lb.targetGroups[j + 1..]), lookup));
      var next := EmitTargetGroup(lb.name, tg, acc, lookup);
      if next.None? {
        return None;
      }
      acc := next.value;
      j := j + 1;
    }
    assert lb.targetGroups[|lb.targetGroups|..] == [];
    ThenUnit(Some(acc));
    return Some(acc);
  }

  /**
   * The load balancers' targets turned into rows: `list_load_balancers_and_resources` up to the
   * write. `listing` is Failure when creating a client or `describe_load_balancers()` raises, and
   * otherwise the response's `LoadBalancers`, if present. None when any step raises, which the
   * function's handler reports instead of writing.
   */
  method ListTargetInstances(listing: Result<Option<seq<Balancer>>, string>, lookup: Lookup) returns (rows: Option<seq<TargetRow>>)
    ensures listing.Failure? ==> rows.None?
    ensures listing.Success? ==> rows == RowsFor(TraversalOrder(listing.value.GetOr([])), lookup)
  {
    if listing.Failure? {
      return None;
    }
    var lbs := listing.value.GetOr([]);
    var data: seq<TargetRow> := [];
    var i := 0;
    assert lbs[0..] == lbs;
    ThenUnit(RowsFor(TraversalOrder(lbs), lookup));
    while i < |lbs|
      invariant 0 <= i <= |lbs|
      invariant RowsFor(TraversalOrder(lbs), lookup) == Then(Some(data), RowsFor(TraversalOrder(lbs[i..]), lookup))
    {
      var lb := lbs[i];
      assert lbs[i..][1..] == lbs[i + 1..];
      RowsForAppend(BalancerRefs(lb.name, lb.targetGroups), TraversalOrder(lbs[i + 1..]), lookup);
      ThenAssoc(Some(data), RowsFor(BalancerRefs(lb.name, lb.targetGroups), lookup), RowsFor(TraversalOrder(lbs[i + 1..]), lookup));
      var next := EmitLoadBalancer(lb, data, lookup);
      if next.None? {
        return None;
      }
      data := next.value;
      i := i + 1;
    }
    assert lbs[|lbs|..] == [];
    ThenUnit(Some(data));
    return Some(data);
  }

  // Properties

  /** The rows of two stretches of instances are the rows of each, one after the other. */
  lemma {:induction false} InstanceRowsAppend(ref: TargetRef, a: seq<Instance>, b: seq<Instance>)
    ensures InstanceRows(ref, a + b) == Then(InstanceRows(ref, a), InstanceRows(ref, b))
  {
    if |a| == 0 {
      assert a + b == b;
      ThenUnit(InstanceRows(ref, b));
    } else {
      assert (a + b)[1..] == a[1..] + b;
      InstanceRowsAppend(ref, a[1..], b);
      ThenAssoc(InstanceRow(ref, a[0]), InstanceRows(ref, a[1..]), InstanceRows(ref, b));
    }
  }

  /** The rows of two stretches of targets are the rows of each, one after the other: earlier rows are never changed. */
  lemma {:induction false} RowsForAppend(a: seq<TargetRef>, b: seq<TargetRef>, lookup: Lookup)
    ensures RowsFor(a + b, lookup) == Then(RowsFor(a, lookup), RowsFor(b, lookup))
  {
    if |a| == 0 {
      assert a + b == b;
      ThenUnit(RowsFor(b, lookup));
    } else {
      assert (a + b)[1..] == a[1..] + b;
      RowsForAppend(a[1..], b, lookup);
      ThenAssoc(TargetRows(a[0], lookup), RowsFor(a[1..], lookup), RowsFor(b, lookup));
    }
  }

  /** Walking reservation by reservation is resolving the strictly flattened instance list. */
  lemma {:induction false} ReservationRowsFlatten(ref: TargetRef, rs: seq<Reservation>)
    ensures ReservationRows(ref, rs) ==
      match StrictInstances(rs)
      case Failure(_) => None
      case Success(insts) => InstanceRows(ref, insts)
  {
    if |rs| > 0 && rs[0].instances.Some? {
      var first := rs[0].instances.value;
      ReservationRowsFlatten(ref, rs[1..]);
      if StrictInstances(rs[1..]).Success? {
        InstanceRowsAppend(ref, first, StrictInstances(rs[1..]).value);
      }
    }
  }

  /**
   * Resolving instances succeeds exactly when every instance has both keys, and then gives one
   * row per instance, in order, each carrying the target id and that instance's state and address.
   */
  lemma {:induction false} InstanceRowsShape(ref: TargetRef, insts: seq<Instance>)
    ensures InstanceRows(ref, insts).Some? <==> forall k :: 0 <= k < |insts| ==> HasStateAndAddress(insts[k])
    ensures InstanceRows(ref, insts).Some? ==>
      var rows := InstanceRows(ref, insts).value;
      && |rows| == |insts|
      && forall k :: 0 <= k < |insts| ==>
        HasStateAndAddress(insts[k]) &&
        rows[k] == TargetRow(ref.loadBalancerName, ref.targetGroupName, ref.targetId,
                             insts[k].state.value.name.value, insts[k].privateIpAddress.value)
  {
    if |insts| > 0 {
      InstanceRowsShape(ref, insts[1..]);
      if InstanceRows(ref, insts).Some? {
        var rows := InstanceRows(ref, insts).value;
        forall k | 1 <= k < |insts|
          ensures rows[k] == TargetRow(ref.loadBalancerName, ref.targetGroupName, ref.targetId,
                                       insts[k].state.value.name.value, insts[k].privateIpAddress.value)
        {
          assert insts[k] == insts[1..][k - 1];
        }
      }
      if forall k :: 0 <= k < |insts| ==> HasStateAndAddress(insts[k]) {
        assert HasStateAndAddress(insts[0]);
        assert forall k :: 0 <= k < |insts| - 1 ==> HasStateAndAddress(insts[1..][k]);
      }
    }
  }

  /** A target that is not an instance id gives exactly one "N/A" row carrying its id as address, and never consults the lookup. */
  lemma {:induction false} AddressTarget(ref: TargetRef, lookup: Lookup, other: Lookup)
    requires !IsValidInstanceId(ref.targetId)
    ensures TargetRows(ref, lookup) == Some([TargetRow(ref.loadBalancerName, ref.targetGroupName, "N/A", "N/A", ref.targetId)])
    ensures TargetRows(ref, lookup) == TargetRows(ref, other)
  {
  }

  /**
   * An instance-id target that resolves gives one row per instance of the lookup's reservations,
   * each with the target id as InstanceID and that instance's State and PrivateIP.
   */
  lemma {:induction false} InstanceTarget(ref: TargetRef, lookup: Lookup)
    requires IsValidInstanceId(ref.targetId)
    requires TargetRows(ref, lookup).Some?
    ensures lookup(ref.targetId).Some? && ResponseInstancesStrict(lookup(ref.targetId).value).Success?
    ensures
      var insts := ResponseInstancesStrict(lookup(ref.targetId).value).value;
      var rows := TargetRows(ref, lookup).value;
      && |rows| == |insts|
      && forall k :: 0 <= k < |insts| ==>
        HasStateAndAddress(insts[k]) &&
        rows[k] == TargetRow(ref.loadBalancerName, ref.targetGroupName, ref.targetId,
                             insts[k].state.value.name.value, insts[k].privateIpAddress.value)
  {
    var rs := lookup(ref.targetId).value.reservations.value;
    ReservationRowsFlatten(ref, rs);
    InstanceRowsShape(ref, StrictInstances(rs).value);
  }

  /** Every row a target contributes carries the names of its load balancer and target group. */
  lemma {:induction false} TargetRowsCarryNames(ref: TargetRef, lookup: Lookup)
    requires TargetRows(ref, lookup).Some?
    ensures forall row :: row in TargetRows(ref, lookup).value ==>
      row.loadBalancerName == ref.loadBalancerName && row.targetGroupName == ref.targetGroupName
  {
    if IsValidInstanceId(ref.targetId) {
      InstanceTarget(ref, lookup);
    }
  }

  /** How many rows a target contributes: one for an address, one per looked-up instance otherwise. */
  function TargetCount(ref: TargetRef, lookup: Lookup): nat
  {
    if !IsValidInstanceId(ref.targetId) then 1
    else
      match lookup(ref.targetId)
      case None => 0
      case Some(resp) =>
        match ResponseInstancesStrict(resp)
        case Failure(_) => 0
        case Success(insts) => |insts|
  }

  /** The sum of TargetCount over a sequence of targets. */
  function ExpectedRows(refs: seq<TargetRef>, lookup: Lookup): nat
  {
    if |refs| == 0 then 0 else TargetCount(refs[0], lookup) + ExpectedRows(refs[1..], lookup)
  }

  /**
   * The total number of rows is the number of address targets plus, over the instance targets,
   * the number of instances each lookup returned; and every row carries the load balancer and
   * target group names of some target.
   */
  lemma {:induction false} RowsForShape(refs: seq<TargetRef>, lookup: Lookup)
    requires RowsFor(refs, lookup).Some?
    ensures |RowsFor(refs, lookup).value| == ExpectedRows(refs, lookup)
    ensures forall row :: row in RowsFor(refs, lookup).value ==>
      exists k :: 0 <= k < |refs| && row.loadBalancerName == refs[k].loadBalancerName && row.targetGroupName == refs[k].targetGroupName
  {
    if |refs| > 0 {
      RowsForShape(refs[1..], lookup);
      var first := TargetRows(refs[0], lookup).value;
      var rest := RowsFor(refs[1..], lookup).value;
      if IsValidInstanceId(refs[0].targetId) {
        InstanceTarget(refs[0], lookup);
      }
      TargetRowsCarryNames(refs[0], lookup);
      forall row: TargetRow | row in first + rest
        ensures exists k :: 0 <= k < |refs| && row.loadBalancerName == refs[k].loadBalancerName && row.targetGroupName == refs[k].targetGroupName
      {
        if row in first {
          assert row.loadBalancerName == refs[0].loadBalancerName && row.targetGroupName == refs[0].targetGroupName;
        } else {
          var k :| 0 <= k < |refs[1..]| && row.loadBalancerName == refs[1..][k].loadBalancerName && row.targetGroupName == refs[1..][k].targetGroupName;
          assert refs[1..][k] == refs[k + 1];
        }
      }
    }
  }

  /** Each target group's targets appear in order, each tagged with its group and load balancer. */
  lemma {:induction false} GroupRefsShape(lbName: string, tgName: string, targets: seq<string>)
    ensures |GroupRefs(lbName, tgName, targets)| == |targets|
    ensures forall k :: 0 <= k < |targets| ==> GroupRefs(lbName, tgName, targets)[k] == TargetRef(lbName, tgName, targets[k])
  {
    if |targets| > 0 {
      GroupRefsShape(lbName, tgName, targets[1..]);
    }
  }
}
