/** The grouping engine as functions on values: how `add_instance`,
    `add_rds_instance` and the region loop of `do_api_calls_update_cache` change the
    inventory (group -> endpoints) and the index (endpoint -> [region, id])
    (playbooks/ec2.py:267-275, 284-325, 346-454). The class `Ec2.Ec2Inventory`
    performs the same updates in place and is proved to agree with these functions. */
module Grouping {
  import opened Strings
  import opened GroupNames
  import opened MultiMap
  import opened Records
  import Route53

  /** The two in-memory maps: `self.inventory` and `self.index`. */
  datatype Store = Store(groups: MultiMap, index: map<string, IndexEntry>)

  /** Where a run of updates got to: the maps, and the fault that stopped it, if any. */
  datatype Progress = Progress(store: Store, fault: Option<Fault>)

  /** `getattr(instance, attr)` for the address attributes. */
  function Address(inst: Instance, attr: AddressAttribute): Option<string>
  {
    match attr
    case PublicDnsName => inst.publicDnsName
    case PrivateDnsName => inst.privateDnsName
    case IpAddress => inst.ipAddress
    case PrivateIpAddress => inst.privateIpAddress
  }

  /** The attribute `add_instance` reads the destination from: the VPC destination
      variable when the instance has a subnet, the plain one otherwise. */
  function DestinationAttribute(inst: Instance, settings: Settings): AddressAttribute
  {
    if inst.subnetId != "" then settings.vpcDestinationVariable else settings.destinationVariable
  }

  /** The destination `add_instance` selects; "" when the selected attribute is `None`. */
  function Destination(inst: Instance, settings: Settings): (r: string)
    ensures r != "" ==> Address(inst, DestinationAttribute(inst, settings)) == Some(r)
    ensures r == "" <==> Address(inst, DestinationAttribute(inst, settings)) in {None, Some("")}
  {
    match Address(inst, DestinationAttribute(inst, settings))
    case Some(a) => a
    case None => ""
  }

  /** The destination is one of the four addresses the Route53 lookup consults. */
  lemma DestinationIsAddress(inst: Instance, settings: Settings)
    ensures Destination(inst, settings) != "" ==> Destination(inst, settings) in Route53.Addresses(inst)
  {
  }

  function TypeGroup(instanceType: string): string { ToSafe("type_" + instanceType) }
  function KeyGroup(keyName: string): string { ToSafe("key_" + keyName) }
  function SecurityGroupGroup(name: string): string { ToSafe("security_group_" + name) }
  function TagGroup(tag: (string, string)): string { ToSafe("tag_" + tag.0 + "=" + tag.1) }
  function FirstInGroup(tag: (string, string)): string { "first_in_" + TagGroup(tag) }
  function EngineGroup(engine: string): string { ToSafe("rds_" + engine) }
  function ParameterGroupGroup(name: string): string { ToSafe("rds_parameter_group_" + name) }

  predicate HasKeyName(inst: Instance)
  {
    inst.keyName.Some? && inst.keyName.value != ""
  }

  /** The group of each security group, in order. */
  function SecurityGroupKeys(gs: seq<SecurityGroup>): (keys: seq<string>)
    ensures |keys| == |gs|
    ensures forall i :: 0 <= i < |gs| ==> keys[i] == SecurityGroupGroup(gs[i].name)
    decreases |gs|
  {
    if |gs| == 0 then [] else SecurityGroupKeys(gs[..|gs| - 1]) + [SecurityGroupGroup(gs[|gs| - 1].name)]
  }

  /** The tag groups of a list of tags. */
  function TagGroups(tags: seq<(string, string)>): (r: set<string>)
    ensures forall i :: 0 <= i < |tags| ==> TagGroup(tags[i]) in r
    ensures forall g :: g in r ==> exists i :: 0 <= i < |tags| && g == TagGroup(tags[i])
    decreases |tags|
  {
    if |tags| == 0 then {}
    else
      var r := TagGroups(tags[..|tags| - 1]) + {TagGroup(tags[|tags| - 1])};
      assert forall i :: 0 <= i < |tags| - 1 ==> tags[..|tags| - 1][i] == tags[i];
      r
  }

  /** The `first_in_` groups of a list of tags. */
  function FirstInGroups(tags: seq<(string, string)>): (r: set<string>)
    ensures forall g :: g in r <==> exists i :: 0 <= i < |tags| && g == FirstInGroup(tags[i])
    decreases |tags|
  {
    if |tags| == 0 then {}
    else
      var r := FirstInGroups(tags[..|tags| - 1]) + {FirstInGroup(tags[|tags| - 1])};
      assert forall i :: 0 <= i < |tags| - 1 ==> tags[..|tags| - 1][i] == tags[i];
      r
  }

  /** The tag group of each tag, in order. */
  function TagGroupList(tags: seq<(string, string)>): (keys: seq<string>)
    ensures |keys| == |tags|
    ensures forall i :: 0 <= i < |tags| ==> keys[i] == TagGroup(tags[i])
    decreases |tags|
  {
    if |tags| == 0 then [] else TagGroupList(tags[..|tags| - 1]) + [TagGroup(tags[|tags| - 1])]
  }

  /** The tag loop of `add_instance`: for each tag, `push` onto its tag group, then
      `keep_first` on the matching `first_in_` group. */
  function PushTags(m: MultiMap, tags: seq<(string, string)>, dest: string): MultiMap
    decreases |tags|
  {
    if |tags| == 0 then m
    else
      var t := tags[|tags| - 1];
      KeepFirst(Push(PushTags(m, tags[..|tags| - 1], dest), TagGroup(t), dest), FirstInGroup(t), dest)
  }

  /** The groups `add_instance` pushes onto before the security groups, in order:
      region, availability zone, type and, when there is one, key pair. Region and zone
      names are not sanitised. */
  function HeadKeys(inst: Instance, region: string): seq<string>
  {
    [region, inst.placement, TypeGroup(inst.instanceType)]
    + (if HasKeyName(inst) then [KeyGroup(inst.keyName.value)] else [])
  }

  /** `add_instance` up to the security groups: the group of the instance id is
      (over)written as `[dest]`, then the head groups are pushed. */
  function InstanceHead(m: MultiMap, inst: Instance, region: string, dest: string): MultiMap
  {
    PushEach(m[inst.id := [dest]], HeadKeys(inst, region), dest)
  }

  /** The Route53 names the instance joins; none when Route53 is disabled. */
  function Route53Groups(inst: Instance, settings: Settings, records: Route53.NameMap): set<string>
  {
    if settings.route53Enabled then Route53.InstanceNames(records, inst) else {}
  }

  /** The last step of `add_instance`: the Route53 names, when Route53 is enabled. Each
      group named after one of the instance's DNS names gains the destination once. */
  function Route53Step(m: MultiMap, inst: Instance, settings: Settings, records: Route53.NameMap, dest: string): (r: MultiMap)
    ensures r.Keys == m.Keys + Route53Groups(inst, settings, records)
    ensures forall g :: Members(r, g) == Members(m, g) + (if g in Route53Groups(inst, settings, records) then [dest] else [])
  {
    if settings.route53Enabled then PushSet(m, Route53.InstanceNames(records, inst), dest) else m
  }

  /** `add_instance` from the security groups on: security groups, tags, Route53 names. */
  function InstanceTail(m: MultiMap, inst: Instance, gs: seq<SecurityGroup>, settings: Settings,
                        records: Route53.NameMap, dest: string): MultiMap
  {
    Route53Step(PushTags(PushEach(m, SecurityGroupKeys(gs), dest), inst.tags, dest), inst, settings, records, dest)
  }

  /** `add_instance(instance, region)`. */
  function AddInstance(s: Store, inst: Instance, region: string, settings: Settings, records: Route53.NameMap): (p: Progress)
    ensures !Addressable(inst, settings) ==> p == Progress(s, None)
    ensures Addressable(inst, settings) ==>
              && p.store.index == s.index[Destination(inst, settings) := IndexEntry(region, inst.id)]
              && p.fault == (if inst.groups.None? then Some(OutdatedClient) else None)
  {
    if inst.state != "running" then Progress(s, None)
    else
      var dest := Destination(inst, settings);
      if dest == "" then Progress(s, None)
      else
        var index := s.index[dest := IndexEntry(region, inst.id)];
        var head := InstanceHead(s.groups, inst, region, dest);
        match inst.groups
        case None => Progress(Store(head, index), Some(OutdatedClient))
        case Some(gs) => Progress(Store(InstanceTail(head, inst, gs, settings, records, dest), index), None)
  }

  /** An instance `add_instance` files: running and with a destination. */
  predicate Addressable(inst: Instance, settings: Settings)
  {
    inst.state == "running" && Destination(inst, settings) != ""
  }

  /** The groups `InstanceTail` pushes onto. */
  function TailGroups(inst: Instance, gs: seq<SecurityGroup>, settings: Settings, records: Route53.NameMap): set<string>
  {
    KeySet(SecurityGroupKeys(gs)) + TagGroups(inst.tags) + Route53Groups(inst, settings, records)
  }

  /** The groups `add_instance` pushes the destination onto one at a time, in order:
      the head groups, then, when the instance has a security-group accessor, its
      security groups and its tag groups. */
  function InstanceKeys(inst: Instance, region: string): seq<string>
  {
    match inst.groups
    case None => HeadKeys(inst, region)
    case Some(gs) => HeadKeys(inst, region) + SecurityGroupKeys(gs) + TagGroupList(inst.tags)
  }

  /** Every group `add_instance` pushes the destination onto, besides the group-of-one
      and the `first_in_` groups: only the head groups when the instance has no
      security-group accessor and the run stops there. */
  function InstancePushedGroups(inst: Instance, region: string, settings: Settings, records: Route53.NameMap): set<string>
  {
    match inst.groups
    case None => KeySet(HeadKeys(inst, region))
    case Some(gs) => KeySet(HeadKeys(inst, region)) + TailGroups(inst, gs, settings, records)
  }

  /** The groups `add_rds_instance` pushes onto before the security group. */
  function DbHeadKeys(db: DbInstance, region: string): seq<string>
  {
    [region, db.availabilityZone, TypeGroup(db.instanceClass)]
  }

  /** The groups `add_rds_instance` pushes onto from the security group on: that
      group, if the instance has one, then engine and parameter group. */
  function DbTailKeys(db: DbInstance): seq<string>
  {
    (if db.securityGroup.DbGroup? then [SecurityGroupGroup(db.securityGroup.name)] else [])
    + [EngineGroup(db.engine), ParameterGroupGroup(db.parameterGroup)]
  }

  /** `add_rds_instance(instance, region)`. */
  function AddDbInstance(s: Store, db: DbInstance, region: string): (p: Progress)
    ensures db.status == "available" && db.endpoint.None? ==> p == Progress(s, Some(MissingEndpoint))
    ensures db.status != "available" || (db.endpoint.Some? && db.endpoint.value == "") ==> p == Progress(s, None)
    ensures DbAddressable(db) ==>
              && p.store.index == s.index[db.endpoint.value := IndexEntry(region, db.id)]
              && p.fault == (if db.securityGroup.NoAccessor? then Some(OutdatedClient) else None)
  {
    if db.status != "available" then Progress(s, None)
    else
      match db.endpoint
      case None => Progress(s, Some(MissingEndpoint))
      case Some(dest) =>
        if dest == "" then Progress(s, None)
        else
          var index := s.index[dest := IndexEntry(region, db.id)];
          var head := PushEach(s.groups[db.id := [dest]], DbHeadKeys(db, region), dest);
          if db.securityGroup.NoAccessor? then Progress(Store(head, index), Some(OutdatedClient))
          else Progress(Store(PushEach(head, DbTailKeys(db), dest), index), None)
  }

  /** The groups `add_rds_instance` pushes the endpoint onto, in order; the run stops
      after the head groups when the instance has no security-group accessor. */
  function DbKeys(db: DbInstance, region: string): seq<string>
  {
    if db.securityGroup.NoAccessor? then DbHeadKeys(db, region) else DbHeadKeys(db, region) + DbTailKeys(db)
  }

  /** A database instance `add_rds_instance` files: available, with a non-empty endpoint. */
  predicate DbAddressable(db: DbInstance)
  {
    db.status == "available" && db.endpoint.Some? && db.endpoint.value != ""
  }

  /** Every group `add_rds_instance` pushes the endpoint onto, besides the group-of-one. */
  function DbPushedGroups(db: DbInstance, region: string): set<string>
  {
    KeySet(DbHeadKeys(db, region)) + KeySet(DbTailKeys(db))
  }

  /** `add_instance` over a list of instances, stopping at the first fault; the only
      fault it raises is an outdated client. */
  function AddInstances(p: Progress, insts: seq<Instance>, region: string, settings: Settings, records: Route53.NameMap): (r: Progress)
    ensures p.fault.Some? ==> r == p
    ensures r.fault.Some? && p.fault.None? ==> r.fault == Some(OutdatedClient)
    decreases |insts|
  {
    if |insts| == 0 then p
    else
      var q := AddInstances(p, insts[..|insts| - 1], region, settings, records);
      if q.fault.Some? then q else AddInstance(q.store, insts[|insts| - 1], region, settings, records)
  }

  /** The reservations of a region, each one's instances in turn. */
  function AddReservations(p: Progress, rs: seq<seq<Instance>>, region: string, settings: Settings, records: Route53.NameMap): (r: Progress)
    ensures p.fault.Some? ==> r == p
    ensures r.fault.Some? && p.fault.None? ==> r.fault == Some(OutdatedClient)
    decreases |rs|
  {
    if |rs| == 0 then p
    else AddInstances(AddReservations(p, rs[..|rs| - 1], region, settings, records), rs[|rs| - 1], region, settings, records)
  }

  /** `add_rds_instance` over a list of database instances, stopping at the first fault;
      the faults it raises are an outdated client and a missing endpoint. */
  function AddDbInstances(p: Progress, dbs: seq<DbInstance>, region: string): (r: Progress)
    ensures p.fault.Some? ==> r == p
    ensures r.fault.Some? && p.fault.None? ==> r.fault in {Some(OutdatedClient), Some(MissingEndpoint)}
    decreases |dbs|
  {
    if |dbs| == 0 then p
    else
      var q := AddDbInstances(p, dbs[..|dbs| - 1], region);
      if q.fault.Some? then q else AddDbInstance(q.store, dbs[|dbs| - 1], region)
  }

  /** `get_instances_by_region`: a region EC2 cannot connect to is fatal. */
  function Ec2Region(s: Store, region: string, settings: Settings, provider: Provider, records: Route53.NameMap): (r: Progress)
    ensures region !in provider.ec2 ==> r == Progress(s, Some(RegionUnsupported(region)))
    ensures region in provider.ec2 ==> r.fault in {None, Some(OutdatedClient)}
  {
    if region !in provider.ec2 then Progress(s, Some(RegionUnsupported(region)))
    else AddReservations(Progress(s, None), provider.ec2[region], region, settings, records)
  }

  /** `get_rds_instances_by_region`: a region RDS cannot connect to is skipped. */
  function RdsRegion(s: Store, region: string, provider: Provider): (r: Progress)
    ensures region !in provider.rds ==> r == Progress(s, None)
    ensures r.fault in {None, Some(OutdatedClient), Some(MissingEndpoint)}
  {
    if region in provider.rds then AddDbInstances(Progress(s, None), provider.rds[region], region)
    else Progress(s, None)
  }

  /** The faults a refresh over `regions` can stop at: an unreachable EC2 region among
      them, an outdated client, or an available RDS instance without an endpoint. */
  predicate RefreshFault(f: Fault, regions: seq<string>)
  {
    f == OutdatedClient || f == MissingEndpoint || (f.RegionUnsupported? && f.region in regions)
  }

  /** The region loop of `do_api_calls_update_cache`, stopping at the first fault. */
  function AddRegions(p: Progress, regions: seq<string>, settings: Settings, provider: Provider, records: Route53.NameMap): (r: Progress)
    ensures p.fault.Some? ==> r == p
    ensures r.fault.Some? && p.fault.None? ==> RefreshFault(r.fault.value, regions)
    decreases |regions|
  {
    if |regions| == 0 then p
    else
      var q := AddRegions(p, regions[..|regions| - 1], settings, provider, records);
      assert regions == regions[..|regions| - 1] + [regions[|regions| - 1]];
      if q.fault.Some? then q
      else
        var e := Ec2Region(q.store, regions[|regions| - 1], settings, provider, records);
        if e.fault.Some? then e else RdsRegion(e.store, regions[|regions| - 1], provider)
  }

  /** The grouping part of a refresh: every configured region, folded onto the maps as
      they are (they are not cleared first). */
  function Refresh(s: Store, settings: Settings, provider: Provider, records: Route53.NameMap): (r: Progress)
    ensures settings.regions == [] ==> r == Progress(s, None)
    ensures r.fault.Some? ==> RefreshFault(r.fault.value, settings.regions)
  {
    AddRegions(Progress(s, None), settings.regions, settings, provider, records)
  }

  // ---------------------------------------------------------------------------
  // Stopping at the first fault

  lemma {:induction false} AddInstancesStops(p: Progress, insts: seq<Instance>, j: int, region: string, settings: Settings, records: Route53.NameMap)
    requires 0 <= j <= |insts|
    requires AddInstances(p, insts[..j], region, settings, records).fault.Some?
    ensures AddInstances(p, insts, region, settings, records) == AddInstances(p, insts[..j], region, settings, records)
    decreases |insts|
  {
    if j < |insts| {
      assert insts[..|insts| - 1][..j] == insts[..j];
      AddInstancesStops(p, insts[..|insts| - 1], j, region, settings, records);
    } else {
      assert insts[..j] == insts;
    }
  }

  lemma {:induction false} AddReservationsStops(p: Progress, rs: seq<seq<Instance>>, j: int, region: string, settings: Settings, records: Route53.NameMap)
    requires 0 <= j <= |rs|
    requires AddReservations(p, rs[..j], region, settings, records).fault.Some?
    ensures AddReservations(p, rs, region, settings, records) == AddReservations(p, rs[..j], region, settings, records)
    decreases |rs|
  {
    if j < |rs| {
      var last := rs[|rs| - 1];
      assert rs[..|rs| - 1][..j] == rs[..j];
      AddReservationsStops(p, rs[..|rs| - 1], j, region, settings, records);
      var q := AddReservations(p, rs[..|rs| - 1], region, settings, records);
      assert last[..0] == [];
      AddInstancesStops(q, last, 0, region, settings, records);
    } else {
      assert rs[..j] == rs;
    }
  }

  lemma {:induction false} AddDbInstancesStops(p: Progress, dbs: seq<DbInstance>, j: int, region: string)
    requires 0 <= j <= |dbs|
    requires AddDbInstances(p, dbs[..j], region).fault.Some?
    ensures AddDbInstances(p, dbs, region) == AddDbInstances(p, dbs[..j], region)
    decreases |dbs|
  {
    if j < |dbs| {
      assert dbs[..|dbs| - 1][..j] == dbs[..j];
      AddDbInstancesStops(p, dbs[..|dbs| - 1], j, region);
    } else {
      assert dbs[..j] == dbs;
    }
  }

  lemma {:induction false} AddRegionsStops(p: Progress, regions: seq<string>, j: int, settings: Settings, provider: Provider, records: Route53.NameMap)
    requires 0 <= j <= |regions|
    requires AddRegions(p, regions[..j], settings, provider, records).fault.Some?
    ensures AddRegions(p, regions, settings, provider, records) == AddRegions(p, regions[..j], settings, provider, records)
    decreases |regions|
  {
    if j < |regions| {
      assert regions[..|regions| - 1][..j] == regions[..j];
      AddRegionsStops(p, regions[..|regions| - 1], j, settings, provider, records);
    } else {
      assert regions[..j] == regions;
    }
  }

  // ---------------------------------------------------------------------------
  // What one `add_instance` does to the maps

  /** Every endpoint listed in a group is a key of the index, and no group is empty. */
  ghost predicate Consistent(s: Store)
  {
    MembersIn(s.groups, s.index.Keys) && NoEmptyGroup(s.groups)
  }

  /** `s'` keeps every group and every index key of `s`, and is consistent if `s` is. */
  ghost predicate Follows(s: Store, s': Store)
  {
    s.groups.Keys <= s'.groups.Keys && s.index.Keys <= s'.index.Keys
    && (Consistent(s) ==> Consistent(s'))
  }

  /** A `first_in_` group is never a tag group: they start with different letters. */
  lemma FirstInIsNoTagGroup(t: (string, string), u: (string, string))
    ensures FirstInGroup(t) != TagGroup(u)
  {
    assert TagGroup(u)[0] == 't';
  }

  /** The tag loop only appends, and keeps the destination last in every tag group. */
  lemma {:induction false} PushTagsShape(m: MultiMap, tags: seq<(string, string)>, dest: string, groups: set<string>, s: set<string>)
    ensures Grows(m, PushTags(m, tags, dest))
    ensures EndsWith(m, groups, dest) ==> EndsWith(PushTags(m, tags, dest), groups + TagGroups(tags), dest)
    ensures MembersIn(m, s) && dest in s ==> MembersIn(PushTags(m, tags, dest), s)
    ensures NoEmptyGroup(m) ==> NoEmptyGroup(PushTags(m, tags, dest))
    decreases |tags|
  {
    var n := |tags|;
    if n > 0 {
      var init := tags[..n - 1];
      var t := tags[n - 1];
      var before := PushTags(m, init, dest);
      var pushed := Push(before, TagGroup(t), dest);
      var after := PushTags(m, tags, dest);
      assert after == KeepFirst(pushed, FirstInGroup(t), dest);
      PushTagsShape(m, init, dest, groups, s);
      PushFacts(before, TagGroup(t), dest, groups + TagGroups(init), s);
      PushFacts(pushed, FirstInGroup(t), dest, groups + TagGroups(init) + {TagGroup(t)}, s);
      assert Grows(m, after) by {
        GrowsTrans(m, before, pushed);
        GrowsTrans(m, pushed, after);
      }
    }
  }

  /** The tag loop touches no group but its tag groups and creates none but those and
      its `first_in_` groups. */
  lemma {:induction false} PushTagsFrame(m: MultiMap, tags: seq<(string, string)>, dest: string)
    ensures forall k :: k !in TagGroups(tags) && k !in FirstInGroups(tags) ==> (k in PushTags(m, tags, dest) <==> k in m)
    ensures forall k :: k in m && k !in TagGroups(tags) ==> k in PushTags(m, tags, dest) && PushTags(m, tags, dest)[k] == m[k]
    decreases |tags|
  {
    var n := |tags|;
    if n > 0 {
      var init := tags[..n - 1];
      PushTagsFrame(m, init, dest);
      assert TagGroups(tags) == TagGroups(init) + {TagGroup(tags[n - 1])};
      assert FirstInGroups(tags) == FirstInGroups(init) + {FirstInGroup(tags[n - 1])};
    }
  }

  /** ... nor one of the tag groups of a list of tags. */
  lemma FirstInNotInTagGroups(t: (string, string), tags: seq<(string, string)>)
    ensures FirstInGroup(t) !in TagGroups(tags)
  {
    forall i | 0 <= i < |tags| ensures FirstInGroup(t) != TagGroup(tags[i]) {
      FirstInIsNoTagGroup(t, tags[i]);
    }
  }

  /** Each `first_in_` group the tag loop creates holds only the destination. */
  lemma {:induction false} PushTagsFirstIn(m: MultiMap, tags: seq<(string, string)>, dest: string, k: string)
    requires k in FirstInGroups(tags) && k !in m
    ensures k in PushTags(m, tags, dest) && PushTags(m, tags, dest)[k] == [dest]
    decreases |tags|
  {
    var n := |tags|;
    var init := tags[..n - 1];
    var t := tags[n - 1];
    var before := PushTags(m, init, dest);
    var pushed := Push(before, TagGroup(t), dest);
    var i :| 0 <= i < n && k == FirstInGroup(tags[i]);
    FirstInIsNoTagGroup(tags[i], t);
    assert k != TagGroup(t);
    if k in FirstInGroups(init) {
      PushTagsFirstIn(m, init, dest, k);
      assert pushed[k] == [dest];
    } else {
      FirstInNotInTagGroups(tags[i], init);
      PushTagsFrame(m, init, dest);
      assert k !in before;
      assert k !in pushed;
    }
  }

  /** One tag of the tag loop, seen from a group that is not its `first_in_` group. */
  lemma PushTagsStep(m: MultiMap, tags: seq<(string, string)>, dest: string, g: string)
    requires |tags| > 0 && g != FirstInGroup(tags[|tags| - 1])
    ensures var t := tags[|tags| - 1];
      Members(PushTags(m, tags, dest), g)
      == Members(PushTags(m, tags[..|tags| - 1], dest), g) + (if TagGroup(t) == g then [dest] else [])
  {
    var t := tags[|tags| - 1];
    var before := PushTags(m, tags[..|tags| - 1], dest);
    var pushed := Push(before, TagGroup(t), dest);
    assert PushTags(m, tags, dest) == KeepFirst(pushed, FirstInGroup(t), dest);
    MembersKeepFirst(pushed, FirstInGroup(t), dest, g);
    MembersPush(before, TagGroup(t), dest, g);
  }

  /** The tag loop seen from a group that is not a `first_in_` group of the tags: the
      group gains the destination once per tag whose tag group it is. */
  lemma {:induction false} PushTagsContents(m: MultiMap, tags: seq<(string, string)>, dest: string, g: string)
    requires g !in FirstInGroups(tags)
    ensures Members(PushTags(m, tags, dest), g) == Members(m, g) + Repeat(dest, Count(TagGroupList(tags), g))
    decreases |tags|
  {
    var n := |tags|;
    if n > 0 {
      var init, t := tags[..n - 1], tags[n - 1];
      var step := if TagGroup(t) == g then [dest] else [];
      var c := Count(TagGroupList(init), g);
      assert g !in FirstInGroups(init) && g != FirstInGroup(t) by {
        assert FirstInGroups(tags) == FirstInGroups(init) + {FirstInGroup(t)};
      }
      PushTagsStep(m, tags, dest, g);
      PushTagsContents(m, init, dest, g);
      assert Repeat(dest, c) + step == Repeat(dest, Count(TagGroupList(tags), g)) by {
        assert TagGroupList(tags) == TagGroupList(init) + [TagGroup(t)];
        RepeatCountSnoc(dest, TagGroupList(init), TagGroup(t), g);
      }
      AppendAssoc(Members(m, g), Repeat(dest, c), step);
    } else {
      AppendAssoc(Members(m, g), [], []);
    }
  }

  /** The Route53 step only appends, and keeps the destination last in its groups. */
  lemma Route53StepShape(m: MultiMap, inst: Instance, settings: Settings, records: Route53.NameMap,
                         dest: string, groups: set<string>, s: set<string>)
    ensures var t := Route53Step(m, inst, settings, records, dest);
      && Grows(m, t)
      && (EndsWith(m, groups, dest) ==> EndsWith(t, groups + Route53Groups(inst, settings, records), dest))
      && (MembersIn(m, s) && dest in s ==> MembersIn(t, s))
      && (NoEmptyGroup(m) ==> NoEmptyGroup(t))
  {
    if settings.route53Enabled {
      PushSetFacts(m, Route53.InstanceNames(records, inst), dest, groups, s);
    } else {
      assert groups + Route53Groups(inst, settings, records) == groups;
    }
  }

  /** The tail of `add_instance` only appends, and adds no endpoint but the destination. */
  lemma InstanceTailGrows(m: MultiMap, inst: Instance, gs: seq<SecurityGroup>, settings: Settings,
                          records: Route53.NameMap, dest: string, s: set<string>)
    ensures var t := InstanceTail(m, inst, gs, settings, records, dest);
      && Grows(m, t)
      && (MembersIn(m, s) && dest in s ==> MembersIn(t, s))
      && (NoEmptyGroup(m) ==> NoEmptyGroup(t))
  {
    var keys := SecurityGroupKeys(gs);
    var m1 := PushEach(m, keys, dest);
    var m2 := PushTags(m1, inst.tags, dest);
    var t := Route53Step(m2, inst, settings, records, dest);
    PushEachFacts(m, keys, dest, {}, s);
    PushTagsShape(m1, inst.tags, dest, {}, s);
    Route53StepShape(m2, inst, settings, records, dest, {}, s);
    GrowsTrans(m, m1, m2);
    GrowsTrans(m, m2, t);
  }

  /** The tail of `add_instance` leaves the destination last in every group it pushes. */
  lemma InstanceTailEnds(m: MultiMap, inst: Instance, gs: seq<SecurityGroup>, settings: Settings,
                         records: Route53.NameMap, dest: string, groups: set<string>)
    requires EndsWith(m, groups, dest)
    ensures EndsWith(InstanceTail(m, inst, gs, settings, records, dest), groups + TailGroups(inst, gs, settings, records), dest)
  {
    var keys := SecurityGroupKeys(gs);
    var m1 := PushEach(m, keys, dest);
    var m2 := PushTags(m1, inst.tags, dest);
    PushEachFacts(m, keys, dest, groups, {});
    PushTagsShape(m1, inst.tags, dest, groups + KeySet(keys), {});
    Route53StepShape(m2, inst, settings, records, dest, groups + KeySet(keys) + TagGroups(inst.tags), {});
    assert groups + TailGroups(inst, gs, settings, records)
        == groups + KeySet(keys) + TagGroups(inst.tags) + Route53Groups(inst, settings, records);
  }

  lemma InstanceTailFrame(m: MultiMap, inst: Instance, gs: seq<SecurityGroup>, settings: Settings,
                          records: Route53.NameMap, dest: string)
    ensures var t := InstanceTail(m, inst, gs, settings, records, dest);
      var pushed := TailGroups(inst, gs, settings, records);
      && (forall k :: k !in pushed && k !in FirstInGroups(inst.tags) ==> (k in t <==> k in m))
      && (forall k :: k in m && k !in pushed ==> k in t && t[k] == m[k])
  {
    var keys := SecurityGroupKeys(gs);
    var m1 := PushEach(m, keys, dest);
    PushEachFacts(m, keys, dest, {}, {});
    PushTagsFrame(m1, inst.tags, dest);
  }

  lemma InstanceTailFirstIn(m: MultiMap, inst: Instance, gs: seq<SecurityGroup>, settings: Settings,
                            records: Route53.NameMap, dest: string, k: string)
    requires k in FirstInGroups(inst.tags) && k !in m && k !in TailGroups(inst, gs, settings, records)
    ensures var t := InstanceTail(m, inst, gs, settings, records, dest);
      k in t && t[k] == [dest]
  {
    var keys := SecurityGroupKeys(gs);
    var m1 := PushEach(m, keys, dest);
    PushEachFacts(m, keys, dest, {}, {});
    assert k !in keys;
    PushTagsFirstIn(m1, inst.tags, dest, k);
  }

  /** A run of pushes after the group-of-one is written: the id group holds `[dest]`
      followed by pushes, other groups only grow, and the destination ends them all. */
  lemma OneThenPushEach(m: MultiMap, id: string, keys: seq<string>, dest: string, s: set<string>)
    ensures var h := PushEach(m[id := [dest]], keys, dest);
      && EndsWith(h, {id} + KeySet(keys), dest)
      && Grows(m - {id}, h)
      && (forall g :: g in m && g != id && g !in keys ==> h[g] == m[g])
      && (forall g :: g in h ==> g in m || g == id || g in keys)
      && (id !in keys ==> h[id] == [dest])
      && (MembersIn(m, s) && dest in s ==> MembersIn(h, s))
      && (NoEmptyGroup(m) ==> NoEmptyGroup(h))
  {
    var m0 := m[id := [dest]];
    if MembersIn(m, s) && dest in s {
      assert MembersIn(m0, s);
    }
    PushEachFacts(m0, keys, dest, {id}, s);
    assert Grows(m - {id}, m0);
    GrowsTrans(m - {id}, m0, PushEach(m0, keys, dest));
  }

  /** `add_instance` on a running instance with a destination and security groups is
      the head pushes then the tail pushes, and records the destination in the index. */
  lemma AddInstanceUnfold(s: Store, inst: Instance, region: string, settings: Settings, records: Route53.NameMap)
    requires Addressable(inst, settings) && inst.groups.Some?
    ensures var dest := Destination(inst, settings);
      AddInstance(s, inst, region, settings, records)
      == Progress(Store(InstanceTail(InstanceHead(s.groups, inst, region, dest), inst, inst.groups.value, settings, records, dest),
                        s.index[dest := IndexEntry(region, inst.id)]), None)
  {
  }

  /** After `add_instance` on a running, addressable instance the index maps the
      destination to (region, id), and the destination ends every group the instance
      belongs to; the group of its id holds the destination alone unless another of its
      groups has the same name. */
  lemma AddInstanceJoins(s: Store, inst: Instance, region: string, settings: Settings, records: Route53.NameMap)
    requires Addressable(inst, settings) && inst.groups.Some?
    ensures var p := AddInstance(s, inst, region, settings, records);
      var dest := Destination(inst, settings);
      var pushed := InstancePushedGroups(inst, region, settings, records);
      && p.fault == None
      && p.store.index == s.index[dest := IndexEntry(region, inst.id)]
      && EndsWith(p.store.groups, {inst.id} + pushed, dest)
      && (inst.id !in pushed ==> p.store.groups[inst.id] == [dest])
  {
    var dest := Destination(inst, settings);
    var gs := inst.groups.value;
    var head := InstanceHead(s.groups, inst, region, dest);
    AddInstanceUnfold(s, inst, region, settings, records);
    OneThenPushEach(s.groups, inst.id, HeadKeys(inst, region), dest, {});
    InstanceTailEnds(head, inst, gs, settings, records, dest, {inst.id} + KeySet(HeadKeys(inst, region)));
    InstanceTailFrame(head, inst, gs, settings, records, dest);
  }

  /** `add_instance` never removes a group nor an endpoint from a group other than the
      group of the instance id: it only appends, and only to groups the instance joins. */
  lemma AddInstanceGrows(s: Store, inst: Instance, region: string, settings: Settings, records: Route53.NameMap)
    ensures var p := AddInstance(s, inst, region, settings, records);
      && Grows(s.groups - {inst.id}, p.store.groups)
      && (forall g :: g in s.groups && g != inst.id && g !in InstancePushedGroups(inst, region, settings, records)
            ==> p.store.groups[g] == s.groups[g])
  {
    if Addressable(inst, settings) {
      var dest := Destination(inst, settings);
      var head := InstanceHead(s.groups, inst, region, dest);
      OneThenPushEach(s.groups, inst.id, HeadKeys(inst, region), dest, {});
      if inst.groups.Some? {
        var gs := inst.groups.value;
        var t := InstanceTail(head, inst, gs, settings, records, dest);
        AddInstanceUnfold(s, inst, region, settings, records);
        InstanceTailGrows(head, inst, gs, settings, records, dest, {});
        InstanceTailFrame(head, inst, gs, settings, records, dest);
        GrowsTrans(s.groups - {inst.id}, head, t);
      }
    }
  }

  /** The only groups `add_instance` creates are the group of the instance id, the
      groups it joins and its `first_in_` groups. */
  lemma AddInstanceNewGroups(s: Store, inst: Instance, region: string, settings: Settings, records: Route53.NameMap)
    ensures forall g :: g in AddInstance(s, inst, region, settings, records).store.groups ==>
              g in s.groups || g == inst.id || g in InstancePushedGroups(inst, region, settings, records) || g in FirstInGroups(inst.tags)
  {
    if Addressable(inst, settings) {
      var dest := Destination(inst, settings);
      var head := InstanceHead(s.groups, inst, region, dest);
      OneThenPushEach(s.groups, inst.id, HeadKeys(inst, region), dest, {});
      if inst.groups.Some? {
        AddInstanceUnfold(s, inst, region, settings, records);
        InstanceTailFrame(head, inst, inst.groups.value, settings, records, dest);
      }
    }
  }

  /** `keep_first` through `add_instance`: a `first_in_` group of one of the instance's
      tags that did not exist is created holding the destination alone (unless the
      instance also joins a group of that name). */
  lemma AddInstanceFirstIn(s: Store, inst: Instance, region: string, settings: Settings, records: Route53.NameMap, g: string)
    requires Addressable(inst, settings) && inst.groups.Some?
    requires g in FirstInGroups(inst.tags) && g !in s.groups && g != inst.id
    requires g !in InstancePushedGroups(inst, region, settings, records)
    ensures var p := AddInstance(s, inst, region, settings, records);
      g in p.store.groups && p.store.groups[g] == [Destination(inst, settings)]
  {
    var dest := Destination(inst, settings);
    var head := InstanceHead(s.groups, inst, region, dest);
    AddInstanceUnfold(s, inst, region, settings, records);
    OneThenPushEach(s.groups, inst.id, HeadKeys(inst, region), dest, {});
    InstanceTailFirstIn(head, inst, inst.groups.value, settings, records, dest, g);
  }

  /** What `add_instance` leaves in each group other than a `first_in_` group: the group
      of the instance id is reset to the destination alone, and every group then gains
      the destination once per time it occurs among the region, zone, type, key-pair,
      security and tag groups, and once more if it is one of the instance's Route53
      names; the other groups are as they were. */
  lemma AddInstanceContents(s: Store, inst: Instance, region: string, settings: Settings, records: Route53.NameMap, g: string)
    requires Addressable(inst, settings)
    requires inst.groups.Some? ==> g !in FirstInGroups(inst.tags)
    ensures var dest := Destination(inst, settings);
      Members(AddInstance(s, inst, region, settings, records).store.groups, g)
      == (if g == inst.id then [dest] else Members(s.groups, g))
         + Repeat(dest, Count(InstanceKeys(inst, region), g))
         + (if inst.groups.Some? && g in Route53Groups(inst, settings, records) then [dest] else [])
  {
    var dest := Destination(inst, settings);
    var m0 := s.groups[inst.id := [dest]];
    var base := if g == inst.id then [dest] else Members(s.groups, g);
    var head := InstanceHead(s.groups, inst, region, dest);
    var c0 := Count(HeadKeys(inst, region), g);
    assert Members(m0, g) == base;
    assert Members(head, g) == base + Repeat(dest, c0) by {
      PushEachContents(m0, HeadKeys(inst, region), dest, g);
    }
    match inst.groups
    case None =>
      AppendAssoc(base + Repeat(dest, c0), [], []);
    case Some(gs) =>
      var sgk, tgl := SecurityGroupKeys(gs), TagGroupList(inst.tags);
      var m1 := PushEach(head, sgk, dest);
      var m2 := PushTags(m1, inst.tags, dest);
      var c1, c2 := Count(sgk, g), Count(tgl, g);
      AddInstanceUnfold(s, inst, region, settings, records);
      assert Members(m1, g) == Members(head, g) + Repeat(dest, c1) by {
        PushEachContents(head, sgk, dest, g);
      }
      assert Members(m2, g) == Members(m1, g) + Repeat(dest, c2) by {
        PushTagsContents(m1, inst.tags, dest, g);
      }
      assert Repeat(dest, c0) + Repeat(dest, c1) + Repeat(dest, c2) == Repeat(dest, Count(InstanceKeys(inst, region), g)) by {
        RepeatCountAppend(dest, HeadKeys(inst, region), sgk, g);
        RepeatCountAppend(dest, HeadKeys(inst, region) + sgk, tgl, g);
      }
      AppendAssoc(base, Repeat(dest, c0), Repeat(dest, c1));
      AppendAssoc(base, Repeat(dest, c0) + Repeat(dest, c1), Repeat(dest, c2));
  }

  /** What `add_rds_instance` leaves in each group: the group of the instance id is reset
      to the endpoint alone, and every group then gains the endpoint once per time it
      occurs among the region, zone, class, security-group, engine and parameter groups
      pushed; the other groups are as they were. */
  lemma AddDbInstanceContents(s: Store, db: DbInstance, region: string, g: string)
    requires DbAddressable(db)
    ensures var dest := db.endpoint.value;
      Members(AddDbInstance(s, db, region).store.groups, g)
      == (if g == db.id then [dest] else Members(s.groups, g)) + Repeat(dest, Count(DbKeys(db, region), g))
  {
    var dest := db.endpoint.value;
    var m0 := s.groups[db.id := [dest]];
    var base := if g == db.id then [dest] else Members(s.groups, g);
    var head := PushEach(m0, DbHeadKeys(db, region), dest);
    var c0 := Count(DbHeadKeys(db, region), g);
    assert Members(head, g) == base + Repeat(dest, c0) by {
      assert Members(m0, g) == base;
      PushEachContents(m0, DbHeadKeys(db, region), dest, g);
    }
    if db.securityGroup.NoAccessor? {
      assert AddDbInstance(s, db, region).store.groups == head;
    } else {
      var c1 := Count(DbTailKeys(db), g);
      assert AddDbInstance(s, db, region).store.groups == PushEach(head, DbTailKeys(db), dest);
      assert Members(PushEach(head, DbTailKeys(db), dest), g) == Members(head, g) + Repeat(dest, c1) by {
        PushEachContents(head, DbTailKeys(db), dest, g);
      }
      assert Repeat(dest, c0) + Repeat(dest, c1) == Repeat(dest, Count(DbKeys(db, region), g)) by {
        RepeatCountAppend(dest, DbHeadKeys(db, region), DbTailKeys(db), g);
      }
      AppendAssoc(base, Repeat(dest, c0), Repeat(dest, c1));
    }
  }

  /** `add_rds_instance` on an available instance with an endpoint and a security-group
      accessor: no fault, and the endpoint ends every group the instance joins; the group
      of its id holds the endpoint alone unless another of its groups has that name. */
  lemma AddDbInstanceJoins(s: Store, db: DbInstance, region: string)
    requires DbAddressable(db) && !db.securityGroup.NoAccessor?
    ensures var p := AddDbInstance(s, db, region);
      var dest := db.endpoint.value;
      && p.fault == None
      && EndsWith(p.store.groups, {db.id} + DbPushedGroups(db, region), dest)
      && (db.id !in DbPushedGroups(db, region) ==> p.store.groups[db.id] == [dest])
  {
    var dest := db.endpoint.value;
    var headKeys, tailKeys := DbHeadKeys(db, region), DbTailKeys(db);
    var head := PushEach(s.groups[db.id := [dest]], headKeys, dest);
    assert AddDbInstance(s, db, region).store.groups == PushEach(head, tailKeys, dest);
    OneThenTwoRuns(s.groups, db.id, headKeys, tailKeys, dest);
  }

  /** The group-of-one followed by two runs of pushes: the destination ends every group
      pushed, and the id group holds it alone when no run pushes that group. */
  lemma OneThenTwoRuns(m: MultiMap, id: string, first: seq<string>, second: seq<string>, dest: string)
    ensures var g := PushEach(PushEach(m[id := [dest]], first, dest), second, dest);
      && EndsWith(g, {id} + (KeySet(first) + KeySet(second)), dest)
      && (id !in KeySet(first) + KeySet(second) ==> id in g && g[id] == [dest])
  {
    var head := PushEach(m[id := [dest]], first, dest);
    OneThenPushEach(m, id, first, dest, {});
    PushEachFacts(head, second, dest, {id} + KeySet(first), {});
    assert {id} + KeySet(first) + KeySet(second) == {id} + (KeySet(first) + KeySet(second));
  }

  /** `add_rds_instance` on an available instance with an endpoint and a security-group
      accessor: every group but the one of its id only grows, and is unchanged unless the
      instance joins it; no group appears but that one and the groups it joins. */
  lemma AddDbInstanceFrame(s: Store, db: DbInstance, region: string)
    requires DbAddressable(db) && !db.securityGroup.NoAccessor?
    ensures var p := AddDbInstance(s, db, region);
      var pushed := DbPushedGroups(db, region);
      && Grows(s.groups - {db.id}, p.store.groups)
      && (forall g :: g in s.groups && g != db.id && g !in pushed ==> p.store.groups[g] == s.groups[g])
      && (forall g :: g in p.store.groups ==> g in s.groups || g == db.id || g in pushed)
  {
    var dest := db.endpoint.value;
    var headKeys, tailKeys := DbHeadKeys(db, region), DbTailKeys(db);
    var head := PushEach(s.groups[db.id := [dest]], headKeys, dest);
    var groups := PushEach(head, tailKeys, dest);
    assert AddDbInstance(s, db, region).store.groups == groups;
    OneThenPushEach(s.groups, db.id, headKeys, dest, {});
    PushEachFacts(head, tailKeys, dest, {}, {});
    GrowsTrans(s.groups - {db.id}, head, groups);
  }

  // ---------------------------------------------------------------------------
  // The maps only accumulate, and stay consistent

  lemma FollowsTrans(a: Store, b: Store, c: Store)
    requires Follows(a, b) && Follows(b, c)
    ensures Follows(a, c)
  {
  }

  /** One `add_instance` keeps every group and index key and keeps the maps consistent. */
  lemma AddInstanceFollows(s: Store, inst: Instance, region: string, settings: Settings, records: Route53.NameMap)
    ensures Follows(s, AddInstance(s, inst, region, settings, records).store)
  {
    if Addressable(inst, settings) {
      var dest := Destination(inst, settings);
      var index := s.index[dest := IndexEntry(region, inst.id)];
      var head := InstanceHead(s.groups, inst, region, dest);
      var p := AddInstance(s, inst, region, settings, records);
      OneThenPushEach(s.groups, inst.id, HeadKeys(inst, region), dest, index.Keys);
      AddInstanceGrows(s, inst, region, settings, records);
      if inst.groups.Some? {
        AddInstanceUnfold(s, inst, region, settings, records);
        InstanceTailGrows(head, inst, inst.groups.value, settings, records, dest, index.Keys);
        InstanceTailFrame(head, inst, inst.groups.value, settings, records, dest);
      }
      assert s.groups.Keys <= p.store.groups.Keys;
    }
  }

  /** One `add_rds_instance` keeps every group and index key and keeps the maps consistent. */
  lemma AddDbInstanceFollows(s: Store, db: DbInstance, region: string)
    ensures Follows(s, AddDbInstance(s, db, region).store)
  {
    if DbAddressable(db) {
      var dest := db.endpoint.value;
      var index := s.index[dest := IndexEntry(region, db.id)];
      var head := PushEach(s.groups[db.id := [dest]], DbHeadKeys(db, region), dest);
      OneThenPushEach(s.groups, db.id, DbHeadKeys(db, region), dest, index.Keys);
      PushEachFacts(head, DbTailKeys(db), dest, {}, index.Keys);
      if MembersIn(s.groups, s.index.Keys) {
        assert MembersIn(s.groups, index.Keys);
      }
    }
  }

  lemma {:induction false} AddInstancesFollows(p: Progress, insts: seq<Instance>, region: string, settings: Settings, records: Route53.NameMap)
    ensures Follows(p.store, AddInstances(p, insts, region, settings, records).store)
    decreases |insts|
  {
    var n := |insts|;
    if n > 0 {
      var q := AddInstances(p, insts[..n - 1], region, settings, records);
      AddInstancesFollows(p, insts[..n - 1], region, settings, records);
      if q.fault.None? {
        AddInstanceFollows(q.store, insts[n - 1], region, settings, records);
        FollowsTrans(p.store, q.store, AddInstances(p, insts, region, settings, records).store);
      }
    }
  }

  lemma {:induction false} AddReservationsFollows(p: Progress, rs: seq<seq<Instance>>, region: string, settings: Settings, records: Route53.NameMap)
    ensures Follows(p.store, AddReservations(p, rs, region, settings, records).store)
    decreases |rs|
  {
    var n := |rs|;
    if n > 0 {
      var q := AddReservations(p, rs[..n - 1], region, settings, records);
      AddReservationsFollows(p, rs[..n - 1], region, settings, records);
      AddInstancesFollows(q, rs[n - 1], region, settings, records);
      FollowsTrans(p.store, q.store, AddReservations(p, rs, region, settings, records).store);
    }
  }

  lemma {:induction false} AddDbInstancesFollows(p: Progress, dbs: seq<DbInstance>, region: string)
    ensures Follows(p.store, AddDbInstances(p, dbs, region).store)
    decreases |dbs|
  {
    var n := |dbs|;
    if n > 0 {
      var q := AddDbInstances(p, dbs[..n - 1], region);
      AddDbInstancesFollows(p, dbs[..n - 1], region);
      if q.fault.None? {
        AddDbInstanceFollows(q.store, dbs[n - 1], region);
        FollowsTrans(p.store, q.store, AddDbInstances(p, dbs, region).store);
      }
    }
  }

  lemma RegionFollows(s: Store, region: string, settings: Settings, provider: Provider, records: Route53.NameMap)
    ensures Follows(s, Ec2Region(s, region, settings, provider, records).store)
    ensures Follows(s, RdsRegion(s, region, provider).store)
  {
    if region in provider.ec2 {
      AddReservationsFollows(Progress(s, None), provider.ec2[region], region, settings, records);
    }
    if region in provider.rds {
      AddDbInstancesFollows(Progress(s, None), provider.rds[region], region);
    }
  }

  lemma {:induction false} AddRegionsFollows(p: Progress, regions: seq<string>, settings: Settings, provider: Provider, records: Route53.NameMap)
    ensures Follows(p.store, AddRegions(p, regions, settings, provider, records).store)
    decreases |regions|
  {
    var n := |regions|;
    if n > 0 {
      var q := AddRegions(p, regions[..n - 1], settings, provider, records);
      AddRegionsFollows(p, regions[..n - 1], settings, provider, records);
      if q.fault.None? {
        var e := Ec2Region(q.store, regions[n - 1], settings, provider, records);
        RegionFollows(q.store, regions[n - 1], settings, provider, records);
        RegionFollows(e.store, regions[n - 1], settings, provider, records);
        FollowsTrans(p.store, q.store, e.store);
        FollowsTrans(p.store, e.store, AddRegions(p, regions, settings, provider, records).store);
      }
    }
  }

  /** A refresh, whether it completes or stops at a fault, folds onto the maps it is
      given: it removes no group and no index key, and it keeps consistent maps
      consistent (every listed endpoint indexed, no group empty). */
  lemma RefreshAccumulates(s: Store, settings: Settings, provider: Provider, records: Route53.NameMap)
    ensures var r := Refresh(s, settings, provider, records).store;
      && s.groups.Keys <= r.groups.Keys && s.index.Keys <= r.index.Keys
      && (Consistent(s) ==> Consistent(r))
  {
    AddRegionsFollows(Progress(s, None), settings.regions, settings, provider, records);
  }

  // ---------------------------------------------------------------------------
  // A refresh that completes indexes every addressable record

  ghost predicate InstancesIndexed(keys: set<string>, insts: seq<Instance>, settings: Settings)
  {
    forall i :: 0 <= i < |insts| && Addressable(insts[i], settings) ==> Destination(insts[i], settings) in keys
  }

  ghost predicate ReservationsIndexed(keys: set<string>, rs: seq<seq<Instance>>, settings: Settings)
  {
    forall k :: 0 <= k < |rs| ==> InstancesIndexed(keys, rs[k], settings)
  }

  ghost predicate DbInstancesIndexed(keys: set<string>, dbs: seq<DbInstance>)
  {
    forall i :: 0 <= i < |dbs| && DbAddressable(dbs[i]) ==> dbs[i].endpoint.value in keys
  }

  /** Every addressable EC2 and RDS record the provider returns for `region` is indexed,
      and EC2 can connect to the region. */
  ghost predicate RegionIndexed(keys: set<string>, region: string, settings: Settings, provider: Provider)
  {
    && region in provider.ec2
    && ReservationsIndexed(keys, provider.ec2[region], settings)
    && (region in provider.rds ==> DbInstancesIndexed(keys, provider.rds[region]))
  }

  lemma {:induction false} AddInstancesIndexes(p: Progress, insts: seq<Instance>, region: string, settings: Settings, records: Route53.NameMap)
    ensures var r := AddInstances(p, insts, region, settings, records);
      r.fault.None? ==> InstancesIndexed(r.store.index.Keys, insts, settings)
    decreases |insts|
  {
    var n := |insts|;
    var r := AddInstances(p, insts, region, settings, records);
    if n > 0 && r.fault.None? {
      var q := AddInstances(p, insts[..n - 1], region, settings, records);
      AddInstancesIndexes(p, insts[..n - 1], region, settings, records);
      AddInstanceFollows(q.store, insts[n - 1], region, settings, records);
      forall i | 0 <= i < n && Addressable(insts[i], settings) ensures Destination(insts[i], settings) in r.store.index.Keys {
        if i < n - 1 {
          assert insts[..n - 1][i] == insts[i];
        }
      }
    }
  }

  lemma {:induction false} AddReservationsIndexes(p: Progress, rs: seq<seq<Instance>>, region: string, settings: Settings, records: Route53.NameMap)
    ensures var r := AddReservations(p, rs, region, settings, records);
      r.fault.None? ==> ReservationsIndexed(r.store.index.Keys, rs, settings)
    decreases |rs|
  {
    var n := |rs|;
    var r := AddReservations(p, rs, region, settings, records);
    if n > 0 && r.fault.None? {
      var q := AddReservations(p, rs[..n - 1], region, settings, records);
      AddReservationsIndexes(p, rs[..n - 1], region, settings, records);
      AddInstancesFollows(q, rs[n - 1], region, settings, records);
      AddInstancesIndexes(q, rs[n - 1], region, settings, records);
      forall k | 0 <= k < n ensures InstancesIndexed(r.store.index.Keys, rs[k], settings) {
        if k < n - 1 {
          assert rs[..n - 1][k] == rs[k];
          assert InstancesIndexed(q.store.index.Keys, rs[k], settings);
        }
      }
    }
  }

  lemma {:induction false} AddDbInstancesIndexes(p: Progress, dbs: seq<DbInstance>, region: string)
    ensures var r := AddDbInstances(p, dbs, region);
      r.fault.None? ==> DbInstancesIndexed(r.store.index.Keys, dbs)
    decreases |dbs|
  {
    var n := |dbs|;
    var r := AddDbInstances(p, dbs, region);
    if n > 0 && r.fault.None? {
      var q := AddDbInstances(p, dbs[..n - 1], region);
      AddDbInstancesIndexes(p, dbs[..n - 1], region);
      AddDbInstanceFollows(q.store, dbs[n - 1], region);
      forall i | 0 <= i < n && DbAddressable(dbs[i]) ensures dbs[i].endpoint.value in r.store.index.Keys {
        if i < n - 1 {
          assert dbs[..n - 1][i] == dbs[i];
        }
      }
    }
  }

  lemma RegionIndexes(s: Store, region: string, settings: Settings, provider: Provider, records: Route53.NameMap)
    ensures var e := Ec2Region(s, region, settings, provider, records);
      var r := RdsRegion(e.store, region, provider);
      e.fault.None? && r.fault.None? ==> RegionIndexed(r.store.index.Keys, region, settings, provider)
  {
    var e := Ec2Region(s, region, settings, provider, records);
    var r := RdsRegion(e.store, region, provider);
    if e.fault.None? && r.fault.None? {
      AddReservationsIndexes(Progress(s, None), provider.ec2[region], region, settings, records);
      RegionFollows(e.store, region, settings, provider, records);
      assert ReservationsIndexed(e.store.index.Keys, provider.ec2[region], settings);
      if region in provider.rds {
        AddDbInstancesIndexes(Progress(e.store, None), provider.rds[region], region);
      }
    }
  }

  lemma RegionIndexedMono(a: set<string>, b: set<string>, region: string, settings: Settings, provider: Provider)
    requires a <= b && RegionIndexed(a, region, settings, provider)
    ensures RegionIndexed(b, region, settings, provider)
  {
    forall k | 0 <= k < |provider.ec2[region]| ensures InstancesIndexed(b, provider.ec2[region][k], settings) {
      assert InstancesIndexed(a, provider.ec2[region][k], settings);
    }
  }

  lemma {:induction false} AddRegionsIndexes(p: Progress, regions: seq<string>, settings: Settings, provider: Provider, records: Route53.NameMap)
    ensures var r := AddRegions(p, regions, settings, provider, records);
      r.fault.None? ==> forall i :: 0 <= i < |regions| ==> RegionIndexed(r.store.index.Keys, regions[i], settings, provider)
    decreases |regions|
  {
    var n := |regions|;
    var r := AddRegions(p, regions, settings, provider, records);
    if n > 0 && r.fault.None? {
      var q := AddRegions(p, regions[..n - 1], settings, provider, records);
      var e := Ec2Region(q.store, regions[n - 1], settings, provider, records);
      AddRegionsIndexes(p, regions[..n - 1], settings, provider, records);
      RegionFollows(q.store, regions[n - 1], settings, provider, records);
      RegionFollows(e.store, regions[n - 1], settings, provider, records);
      RegionIndexes(q.store, regions[n - 1], settings, provider, records);
      forall i | 0 <= i < n ensures RegionIndexed(r.store.index.Keys, regions[i], settings, provider) {
        if i < n - 1 {
          assert regions[..n - 1][i] == regions[i];
          RegionIndexedMono(q.store.index.Keys, r.store.index.Keys, regions[i], settings, provider);
        }
      }
    }
  }

  /** A refresh that completes has connected to every configured region and indexed
      every running EC2 instance with a destination and every available RDS instance
      with an endpoint that those regions returned. */
  lemma RefreshIndexesAll(s: Store, settings: Settings, provider: Provider, records: Route53.NameMap)
    ensures var r := Refresh(s, settings, provider, records);
      r.fault.None? ==> forall i :: 0 <= i < |settings.regions| ==> RegionIndexed(r.store.index.Keys, settings.regions[i], settings, provider)
  {
    AddRegionsIndexes(Progress(s, None), settings.regions, settings, provider, records);
  }

  /** With an empty index, consistent maps have no group at all: this is why loading the
      index from the cache, which `get_host_info` does only when the index is empty,
      never leaves a listed endpoint unindexed. */
  lemma EmptyIndexNoGroups(s: Store)
    requires Consistent(s)
    ensures s.index == map[] ==> s.groups == map[]
  {
    forall g | g in s.groups ensures s.groups[g][0] in s.index.Keys {
      assert s.groups[g][0] in s.groups[g];
    }
    assert s.index == map[] ==> s.index.Keys == {};
  }
}
