/** `Ec2Inventory` itself: the object whose methods fill `self.inventory`,
    `self.index` and `self.route53_records` in place (playbooks/ec2.py:134-616). Each
    method is proved to leave its fields exactly as the matching function of
    `Grouping`, `Route53`, `Cache` or `HostVars` describes, so that the properties proved
    there hold of the object. The clock, the cloud and the cache files are parameters or
    fields: `now`, a `Provider` value and a `Cache.Disk` value. */
module Ec2 {
  import opened Strings
  import opened GroupNames
  import opened MultiMap
  import MM = MultiMap
  import opened Records
  import opened Grouping
  import Route53
  import Cache
  import HostVars

  /** What the script prints: the inventory listing, or the variables of one host. */
  datatype Output =
    | Listing(listing: Cache.Rendered<seq<string>>)
    | HostInfo(details: Cache.Rendered<HostVars.HostValue>)

  class Ec2Inventory {
    const settings: Settings
    const args: Args
    var inventory: MultiMap
    var index: map<string, IndexEntry>
    var route53Records: Route53.NameMap
    var disk: Cache.Disk
    /** How many times `do_api_calls_update_cache` has run on this object. */
    ghost var refreshes: nat

    /** The two maps the grouping functions act on. */
    function Current(): Store
      reads this
    {
      Store(inventory, index)
    }

    /** Every endpoint listed in a group is indexed, and no group is empty. */
    ghost predicate Valid()
      reads this
    {
      Consistent(Current())
    }

    /** The object before the main execution path runs: empty maps. */
    constructor(settings: Settings, args: Args, disk: Cache.Disk)
      ensures this.settings == settings && this.args == args && this.disk == disk
      ensures inventory == map[] && index == map[] && route53Records == map[]
      ensures refreshes == 0
      ensures Valid()
    {
      this.settings := settings;
      this.args := args;
      this.disk := disk;
      inventory := map[];
      index := map[];
      route53Records := map[];
      refreshes := 0;
    }

    /** `push` on `self.inventory`. */
    method Push(key: string, element: string)
      modifies this`inventory
      ensures inventory == MM.Push(old(inventory), key, element)
    {
      if key in inventory {
        inventory := inventory[key := inventory[key] + [element]];
      } else {
        inventory := inventory[key := [element]];
      }
    }

    /** `keep_first` on `self.inventory`. */
    method KeepFirst(key: string, element: string)
      modifies this`inventory
      ensures inventory == MM.KeepFirst(old(inventory), key, element)
    {
      if key !in inventory {
        inventory := inventory[key := [element]];
      }
    }

    /** `get_instance_route53_names`: every name the Route53 map records for one of the
        instance's four addresses. */
    method GetInstanceRoute53Names(inst: Instance) returns (names: set<string>)
      ensures names == Route53.InstanceNames(route53Records, inst)
      ensures forall n :: n in names <==>
                exists a :: a in Route53.Addresses(inst) && a in route53Records && n in route53Records[a]
    {
      var values := Route53.AddressValues(inst);
      names := {};
      var i := 0;
      while i < |values|
        invariant 0 <= i <= |values|
        invariant names == Route53.NamesOfAll(route53Records, values[..i])
      {
        var value := values[i];
        if value.Some? && value.value in route53Records {
          names := names + route53Records[value.value];
        }
        assert values[..i + 1][..i] == values[..i];
        i := i + 1;
      }
      assert values[..i] == values;
      Route53.InstanceNamesExact(route53Records, inst);
    }

    /** `add_instance(instance, region)`: the maps change exactly as
        `Grouping.AddInstance` says, and the fault it reports is the one the code exits on. */
    method AddInstance(inst: Instance, region: string) returns (fault: Option<Fault>)
      modifies this`inventory, this`index
      ensures Progress(Current(), fault) == Grouping.AddInstance(old(Current()), inst, region, settings, route53Records)
    {
      fault := None;
      if inst.state != "running" {
        return;
      }
      var attr := if inst.subnetId != "" then settings.vpcDestinationVariable else settings.destinationVariable;
      var address := Address(inst, attr);
      if address.None? || address.value == "" {
        return;
      }
      var dest := address.value;
      index := index[dest := IndexEntry(region, inst.id)];
      inventory := inventory[inst.id := [dest]];

      PushHead(inst, region, dest);
      if inst.groups.None? {
        fault := Some(OutdatedClient);
        return;
      }
      PushSecurityGroups(inst.groups.value, dest);
      PushTagGroups(inst.tags, dest);
      if settings.route53Enabled {
        PushRoute53Names(inst, dest);
      }
    }

    /** The pushes of `add_instance` before the security groups: region, availability
        zone, instance type and, when there is one, key pair. */
    method PushHead(inst: Instance, region: string, dest: string)
      modifies this`inventory
      ensures inventory == PushEach(old(inventory), HeadKeys(inst, region), dest)
    {
      ghost var start := inventory;
      ghost var keys: seq<string> := [];
      PushEachSnoc(start, keys, region, dest);
      Push(region, dest);
      keys := keys + [region];
      PushEachSnoc(start, keys, inst.placement, dest);
      Push(inst.placement, dest);
      keys := keys + [inst.placement];
      var typeKey := ToSafe("type_" + inst.instanceType);
      PushEachSnoc(start, keys, typeKey, dest);
      Push(typeKey, dest);
      keys := keys + [typeKey];
      if inst.keyName.Some? && inst.keyName.value != "" {
        var keyKey := ToSafe("key_" + inst.keyName.value);
        PushEachSnoc(start, keys, keyKey, dest);
        Push(keyKey, dest);
        keys := keys + [keyKey];
      }
      assert keys == HeadKeys(inst, region);
    }

    /** The security-group loop of `add_instance`. */
    method PushSecurityGroups(gs: seq<SecurityGroup>, dest: string)
      modifies this`inventory
      ensures inventory == PushEach(old(inventory), SecurityGroupKeys(gs), dest)
    {
      ghost var start := inventory;
      var i := 0;
      while i < |gs|
        invariant 0 <= i <= |gs|
        invariant inventory == PushEach(start, SecurityGroupKeys(gs[..i]), dest)
      {
        var key := ToSafe("security_group_" + gs[i].name);
        assert gs[..i + 1][..i] == gs[..i];
        assert SecurityGroupKeys(gs[..i + 1]) == SecurityGroupKeys(gs[..i]) + [key];
        PushEachSnoc(start, SecurityGroupKeys(gs[..i]), key, dest);
        Push(key, dest);
        i := i + 1;
      }
      assert gs[..i] == gs;
    }

    /** The tag loop of `add_instance`: the tag group, then its `first_in_` group. */
    method PushTagGroups(tags: seq<(string, string)>, dest: string)
      modifies this`inventory
      ensures inventory == PushTags(old(inventory), tags, dest)
    {
      ghost var start := inventory;
      var j := 0;
      while j < |tags|
        invariant 0 <= j <= |tags|
        invariant inventory == PushTags(start, tags[..j], dest)
      {
        var (k, v) := tags[j];
        var key := ToSafe("tag_" + k + "=" + v);
        assert key == TagGroup(tags[j]) && "first_in_" + key == FirstInGroup(tags[j]);
        assert tags[..j + 1][..j] == tags[..j] && tags[..j + 1][j] == tags[j];
        ghost var before := inventory;
        Push(key, dest);
        KeepFirst("first_in_" + key, dest);
        assert inventory == MM.KeepFirst(MM.Push(before, TagGroup(tags[j]), dest), FirstInGroup(tags[j]), dest);
        j := j + 1;
      }
      assert tags[..j] == tags;
    }

    /** The Route53 part of `add_instance`. */
    method PushRoute53Names(inst: Instance, dest: string)
      modifies this`inventory
      ensures inventory == PushSet(old(inventory), Route53.InstanceNames(route53Records, inst), dest)
    {
      var names := GetInstanceRoute53Names(inst);
      PushNames(names, dest);
    }

    /** The loop over the Route53 names of `add_instance`: one `push` per name, in any
        order. */
    method PushNames(names: set<string>, dest: string)
      modifies this`inventory
      ensures inventory == PushSet(old(inventory), names, dest)
    {
      ghost var start := inventory;
      var todo := names;
      while todo != {}
        invariant todo <= names
        invariant inventory == PushSet(start, names - todo, dest)
        decreases |todo|
      {
        var name :| name in todo;
        PushSetStep(start, names - todo, name, dest);
        assert names - todo + {name} == names - (todo - {name});
        Push(name, dest);
        todo := todo - {name};
      }
      assert names - todo == names;
    }

    /** `add_rds_instance(instance, region)`: the maps change exactly as
        `Grouping.AddDbInstance` says. */
    method AddRdsInstance(db: DbInstance, region: string) returns (fault: Option<Fault>)
      modifies this`inventory, this`index
      ensures Progress(Current(), fault) == AddDbInstance(old(Current()), db, region)
    {
      fault := None;
      if db.status != "available" {
        return;
      }
      if db.endpoint.None? {
        fault := Some(MissingEndpoint);
        return;
      }
      var dest := db.endpoint.value;
      if dest == "" {
        return;
      }
      index := index[dest := IndexEntry(region, db.id)];
      inventory := inventory[db.id := [dest]];

      PushDbHead(db, region, dest);
      if db.securityGroup.NoAccessor? {
        fault := Some(OutdatedClient);
        return;
      }
      PushDbTail(db, dest);
    }

    /** The region, zone and type pushes of `add_rds_instance`. */
    method PushDbHead(db: DbInstance, region: string, dest: string)
      modifies this`inventory
      ensures inventory == PushEach(old(inventory), DbHeadKeys(db, region), dest)
    {
      ghost var start := inventory;
      ghost var keys: seq<string> := [];
      PushEachSnoc(start, keys, region, dest);
      Push(region, dest);
      keys := keys + [region];
      PushEachSnoc(start, keys, db.availabilityZone, dest);
      Push(db.availabilityZone, dest);
      keys := keys + [db.availabilityZone];
      var typeKey := ToSafe("type_" + db.instanceClass);
      PushEachSnoc(start, keys, typeKey, dest);
      Push(typeKey, dest);
      keys := keys + [typeKey];
      assert keys == DbHeadKeys(db, region);
    }

    /** The security-group, engine and parameter-group pushes of `add_rds_instance`. */
    method PushDbTail(db: DbInstance, dest: string)
      modifies this`inventory
      ensures inventory == PushEach(old(inventory), DbTailKeys(db), dest)
    {
      ghost var start := inventory;
      ghost var keys: seq<string> := [];
      if db.securityGroup.DbGroup? {
        var key := ToSafe("security_group_" + db.securityGroup.name);
        PushEachSnoc(start, keys, key, dest);
        Push(key, dest);
        keys := keys + [key];
      }
      var engineKey := ToSafe("rds_" + db.engine);
      PushEachSnoc(start, keys, engineKey, dest);
      Push(engineKey, dest);
      keys := keys + [engineKey];
      var parameterKey := ToSafe("rds_parameter_group_" + db.parameterGroup);
      PushEachSnoc(start, keys, parameterKey, dest);
      Push(parameterKey, dest);
      keys := keys + [parameterKey];
      assert keys == DbTailKeys(db);
    }

    /** `get_route53_records`: the map is rebuilt from nothing out of the zones that are
        not excluded; it relates an address to a name exactly when such a zone has a
        record set with that name listing that address. */
    method GetRoute53Records(zones: seq<Zone>)
      modifies this`route53Records
      ensures route53Records == Route53.NameMapOf(zones, settings.route53ExcludedZones)
      ensures forall v, n :: v in route53Records && n in route53Records[v] <==>
                Route53.PointsTo(zones, settings.route53ExcludedZones, v, n)
    {
      var excluded := settings.route53ExcludedZones;
      route53Records := map[];
      var i := 0;
      while i < |zones|
        invariant 0 <= i <= |zones|
        invariant route53Records == Route53.AddZones(map[], zones[..i], excluded)
      {
        assert zones[..i + 1][..i] == zones[..i];
        if DropLast(zones[i].name) !in excluded {
          AddZoneRecordSets(zones[i].recordSets);
        }
        i := i + 1;
      }
      assert zones[..i] == zones;
      Route53.NameMapExact(zones, excluded);
    }

    /** The record-set loop of `get_route53_records`, for one zone. */
    method AddZoneRecordSets(sets: seq<RecordSet>)
      modifies this`route53Records
      ensures route53Records == Route53.AddRecordSets(old(route53Records), sets)
    {
      ghost var start := route53Records;
      var j := 0;
      while j < |sets|
        invariant 0 <= j <= |sets|
        invariant route53Records == Route53.AddRecordSets(start, sets[..j])
      {
        assert sets[..j + 1][..j] == sets[..j];
        var name := sets[j].name;
        if |name| > 0 && name[|name| - 1] == '.' {
          name := name[..|name| - 1];
        }
        AddResourceRecords(name, sets[j].resourceRecords);
        j := j + 1;
      }
      assert sets[..j] == sets;
    }

    /** The resource loop of `get_route53_records`, for one record set: `name` joins
        the set of every address the record set lists. */
    method AddResourceRecords(name: string, resources: seq<string>)
      modifies this`route53Records
      ensures route53Records == Route53.AddValues(old(route53Records), name, resources)
    {
      ghost var start := route53Records;
      var k := 0;
      while k < |resources|
        invariant 0 <= k <= |resources|
        invariant route53Records == Route53.AddValues(start, name, resources[..k])
      {
        assert resources[..k + 1][..k] == resources[..k];
        var resource := resources[k];
        if resource !in route53Records {
          route53Records := route53Records[resource := {}];
        }
        route53Records := route53Records[resource := route53Records[resource] + {name}];
        k := k + 1;
      }
      assert resources[..k] == resources;
    }

    /** `get_instances_by_region(region)`: `add_instance` on every instance of every
        reservation, stopping at the first fault; a region EC2 cannot connect to is a
        fault. */
    method GetInstancesByRegion(provider: Provider, region: string) returns (fault: Option<Fault>)
      modifies this`inventory, this`index
      ensures Progress(Current(), fault) == Ec2Region(old(Current()), region, settings, provider, route53Records)
    {
      if region !in provider.ec2 {
        return Some(RegionUnsupported(region));
      }
      var reservations := provider.ec2[region];
      ghost var start := Progress(Current(), None);
      fault := None;
      var i := 0;
      while i < |reservations|
        invariant 0 <= i <= |reservations|
        invariant fault.None?
        invariant Progress(Current(), None) == AddReservations(start, reservations[..i], region, settings, route53Records)
      {
        assert reservations[..i + 1][..i] == reservations[..i];
        fault := AddReservation(reservations[i], region);
        if fault.Some? {
          AddReservationsStops(start, reservations, i + 1, region, settings, route53Records);
          return;
        }
        i := i + 1;
      }
      assert reservations[..i] == reservations;
    }

    /** The instance loop of `get_instances_by_region`, for one reservation. */
    method AddReservation(instances: seq<Instance>, region: string) returns (fault: Option<Fault>)
      modifies this`inventory, this`index
      ensures Progress(Current(), fault) == AddInstances(Progress(old(Current()), None), instances, region, settings, route53Records)
    {
      ghost var start := Progress(Current(), None);
      fault := None;
      var j := 0;
      while j < |instances|
        invariant 0 <= j <= |instances|
        invariant fault.None?
        invariant Progress(Current(), None) == AddInstances(start, instances[..j], region, settings, route53Records)
      {
        assert instances[..j + 1][..j] == instances[..j];
        fault := AddInstance(instances[j], region);
        if fault.Some? {
          AddInstancesStops(start, instances, j + 1, region, settings, route53Records);
          return;
        }
        j := j + 1;
      }
      assert instances[..j] == instances;
    }

    /** `get_rds_instances_by_region(region)`: `add_rds_instance` on every database
        instance, stopping at the first fault; a region RDS cannot connect to is skipped. */
    method GetRdsInstancesByRegion(provider: Provider, region: string) returns (fault: Option<Fault>)
      modifies this`inventory, this`index
      ensures Progress(Current(), fault) == RdsRegion(old(Current()), region, provider)
    {
      fault := None;
      if region !in provider.rds {
        return;
      }
      var dbs := provider.rds[region];
      ghost var start := Progress(Current(), None);
      var i := 0;
      while i < |dbs|
        invariant 0 <= i <= |dbs|
        invariant fault.None?
        invariant Progress(Current(), None) == AddDbInstances(start, dbs[..i], region)
      {
        assert dbs[..i + 1][..i] == dbs[..i];
        fault := AddRdsInstance(dbs[i], region);
        if fault.Some? {
          AddDbInstancesStops(start, dbs, i + 1, region);
          return;
        }
        i := i + 1;
      }
      assert dbs[..i] == dbs;
    }

    /** `do_api_calls_update_cache`: rebuild the Route53 map when enabled, fold every
        region onto the maps as they are, and, when no region stopped the run, write the
        cache files. The maps only grow and stay consistent. */
    method DoApiCallsUpdateCache(provider: Provider, now: int) returns (fault: Option<Fault>)
      requires Valid()
      modifies this`inventory, this`index, this`route53Records, this`disk, this`refreshes
      ensures refreshes == old(refreshes) + 1
      ensures route53Records == if settings.route53Enabled
                                then Route53.NameMapOf(provider.zones, settings.route53ExcludedZones)
                                else old(route53Records)
      ensures Progress(Current(), fault) == Refresh(old(Current()), settings, provider, route53Records)
      ensures fault.None? ==> disk == Cache.WriteCache(old(disk), args.tagsOnly, inventory, index, now)
      ensures fault.Some? ==> disk == old(disk)
      ensures old(inventory).Keys <= inventory.Keys && old(index).Keys <= index.Keys
      ensures Valid()
    {
      refreshes := refreshes + 1;
      if settings.route53Enabled {
        GetRoute53Records(provider.zones);
      }
      RefreshAccumulates(Current(), settings, provider, route53Records);
      fault := FetchRegions(provider);
      if fault.None? {
        WriteToCache(now);
      }
    }

    /** The region loop of `do_api_calls_update_cache`: EC2 then RDS for each region,
        stopping at the first fault. */
    method FetchRegions(provider: Provider) returns (fault: Option<Fault>)
      modifies this`inventory, this`index
      ensures Progress(Current(), fault) == Refresh(old(Current()), settings, provider, route53Records)
    {
      ghost var start := Current();
      var regions := settings.regions;
      fault := None;
      var i := 0;
      while i < |regions|
        invariant 0 <= i <= |regions|
        invariant fault.None?
        invariant Progress(Current(), None) == Grouping.AddRegions(Progress(start, None), regions[..i], settings, provider, route53Records)
      {
        assert regions[..i + 1][..i] == regions[..i];
        fault := GetInstancesByRegion(provider, regions[i]);
        if fault.Some? {
          Grouping.AddRegionsStops(Progress(start, None), regions, i + 1, settings, provider, route53Records);
          return;
        }
        fault := GetRdsInstancesByRegion(provider, regions[i]);
        if fault.Some? {
          Grouping.AddRegionsStops(Progress(start, None), regions, i + 1, settings, provider, route53Records);
          return;
        }
        i := i + 1;
      }
      assert regions[..i] == regions;
    }

    /** The two `write_to_cache` calls that end `do_api_calls_update_cache`: the
        inventory to the file `--tags-only` selects, then the index, stored whole. */
    method WriteToCache(now: int)
      modifies this`disk
      ensures disk == Cache.WriteCache(old(disk), args.tagsOnly, inventory, index, now)
    {
      var rendered := Cache.JsonFormatDict(args.tagsOnly, inventory);
      if args.tagsOnly {
        disk := disk.(tags := Cache.Present(now, rendered));
      } else {
        disk := disk.(cache := Cache.Present(now, rendered));
      }
      disk := disk.(index := Cache.Present(now, Cache.Whole(index)));
    }

    /** `load_index_from_cache`: replace the index by the cached one, or stop when the
        cached index cannot be read. */
    method LoadIndexFromCache() returns (fault: Option<Fault>)
      modifies this`index
      ensures Cache.LoadIndex(disk).Ok? ==> fault.None? && index == Cache.LoadIndex(disk).value
      ensures Cache.LoadIndex(disk).Err? ==> fault == Some(Cache.LoadIndex(disk).fault) && index == old(index)
    {
      match Cache.LoadIndex(disk)
      case Ok(m) =>
        index := m;
        fault := None;
      case Err(f) =>
        fault := Some(f);
    }

    /** `get_instance(region, instance_id)`: the first instance with that identifier in
        the first reservation that holds one. */
    method GetInstance(provider: Provider, entry: IndexEntry) returns (r: Result<Instance>)
      ensures r == HostVars.LookupInstance(provider, entry)
      ensures r.Ok? ==> r.value.id == entry.id
    {
      if entry.region !in provider.ec2 {
        return Err(RegionUnsupported(entry.region));
      }
      var reservations := provider.ec2[entry.region];
      var i := 0;
      while i < |reservations|
        invariant 0 <= i <= |reservations|
        invariant HostVars.FindInstance(reservations, entry.id) == HostVars.FindInstance(reservations[i..], entry.id)
      {
        var instances := reservations[i];
        var j := 0;
        while j < |instances|
          invariant 0 <= j <= |instances|
          invariant HostVars.FindIn(instances, entry.id) == HostVars.FindIn(instances[j..], entry.id)
        {
          if instances[j].id == entry.id {
            return Ok(instances[j]);
          }
          assert instances[j..][1..] == instances[j + 1..];
          j := j + 1;
        }
        assert reservations[i..][1..] == reservations[i + 1..];
        i := i + 1;
      }
      return Err(HostRecordMissing);
    }

    /** `get_host_info`: settle the index (load it from the cache when the one in memory
        is empty); when the host is not in it, refresh exactly once and answer `{}` if it
        is still absent; otherwise flatten the host's instance. */
    method GetHostInfo(provider: Provider, now: int) returns (r: Result<Cache.Rendered<HostVars.HostValue>>)
      requires args.host.Some? && Valid()
      modifies this`inventory, this`index, this`route53Records, this`disk, this`refreshes
      ensures Valid()
      ensures var settled := HostVars.SettledIndex(old(index), old(disk));
        settled.Err? ==>
          && r == Err(settled.fault)
          && refreshes == old(refreshes)
          && inventory == old(inventory) && index == old(index)
          && route53Records == old(route53Records) && disk == old(disk)
      ensures var settled := HostVars.SettledIndex(old(index), old(disk));
        settled.Ok? && args.host.value in settled.value ==>
          && r == HostVars.HostDetails(settled.value, args.host.value, args.tagsOnly, provider)
          && refreshes == old(refreshes)
          && inventory == old(inventory) && index == settled.value
          && route53Records == old(route53Records) && disk == old(disk)
      ensures var settled := HostVars.SettledIndex(old(index), old(disk));
        settled.Ok? && args.host.value !in settled.value ==>
          var p := Refresh(Store(old(inventory), settled.value), settings, provider, route53Records);
          && r == (if p.fault.Some? then Err(p.fault.value)
                   else HostVars.HostDetails(p.store.index, args.host.value, args.tagsOnly, provider))
          && refreshes == old(refreshes) + 1
          && Current() == p.store
          && route53Records == (if settings.route53Enabled
                                then Route53.NameMapOf(provider.zones, settings.route53ExcludedZones)
                                else old(route53Records))
          && disk == (if p.fault.Some? then old(disk)
                      else Cache.WriteCache(old(disk), args.tagsOnly, p.store.groups, p.store.index, now))
    {
      var host := args.host.value;
      if index == map[] {
        EmptyIndexNoGroups(Current());
        var loaded := LoadIndexFromCache();
        if loaded.Some? {
          return Err(loaded.value);
        }
      }
      if host !in index {
        var fault := DoApiCallsUpdateCache(provider, now);
        if fault.Some? {
          return Err(fault.value);
        }
        if host !in index {
          return Ok(Cache.JsonFormatDict(args.tagsOnly, map[]));
        }
      }
      var found := GetInstance(provider, index[host]);
      if found.Err? {
        return Err(found.fault);
      }
      var instanceVars := HostVars.InstanceVariables(found.value.attributes);
      r := Ok(Cache.JsonFormatDict(args.tagsOnly, instanceVars));
    }

    /** The main execution path of `__init__` on a fresh object: refresh when asked to or
        when the cache is stale, then answer. In list mode the answer is the rendering of
        the refreshed inventory, or the cached listing when no refresh was due. */
    method Run(provider: Provider, now: int) returns (out: Result<Output>)
      requires inventory == map[] && index == map[] && refreshes == 0
      modifies this`inventory, this`index, this`route53Records, this`disk, this`refreshes
      ensures refreshes <= 2
      ensures var refresh := args.refreshCache || !Cache.IsCacheValid(args.tagsOnly, old(disk), settings.cacheMaxAge, now);
        var listMode := args.host.None? || args.host.value == "";
        && (listMode && refresh ==>
              var p := Refresh(Store(map[], map[]), settings, provider, route53Records);
              && out == (if p.fault.Some? then Err(p.fault.value)
                         else Ok(Listing(Cache.JsonFormatDict(args.tagsOnly, p.store.groups))))
              && Current() == p.store
              && route53Records == (if settings.route53Enabled
                                    then Route53.NameMapOf(provider.zones, settings.route53ExcludedZones)
                                    else old(route53Records))
              && disk == (if p.fault.Some? then old(disk)
                          else Cache.WriteCache(old(disk), args.tagsOnly, p.store.groups, p.store.index, now)))
        && (listMode && !refresh ==>
              && out == Ok(Listing(Cache.InventoryFile(args.tagsOnly, old(disk)).content))
              && inventory == map[] && index == map[]
              && route53Records == old(route53Records) && disk == old(disk))
        && (!listMode && out.Ok? ==> out.value.HostInfo?)
    {
      if args.refreshCache || !Cache.IsCacheValid(args.tagsOnly, disk, settings.cacheMaxAge, now) {
        var fault := DoApiCallsUpdateCache(provider, now);
        if fault.Some? {
          return Err(fault.value);
        }
      }
      if args.host.Some? && args.host.value != "" {
        var details := GetHostInfo(provider, now);
        if details.Err? {
          return Err(details.fault);
        }
        return Ok(HostInfo(details.value));
      }
      if inventory == map[] {
        Cache.WriteCacheRoundTrip(old(disk), args.tagsOnly, inventory, index, now, 1);
        var cached := Cache.ReadInventory(args.tagsOnly, disk);
        return match cached
          case Ok(listing) => Ok(Listing(listing))
          case Err(f) => Err(f);
      }
      return Ok(Listing(Cache.JsonFormatDict(args.tagsOnly, inventory)));
    }
  }
}
