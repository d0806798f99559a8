# EC2 dynamic inventory, modelled in Dafny

`playbooks/ec2.py` is an Ansible dynamic-inventory script. Its class `Ec2Inventory`
asks EC2, RDS and Route53 what runs in each configured region. It files every
addressable instance under a set of groups: its id, region, zone, type, key pair,
security groups, tags, `first_in_` tag groups and DNS names. Alongside the groups it
keeps an index from each endpoint to `(region, instance id)`. It writes both maps to
cache files with a maximum age. The script then prints either the whole grouped
inventory, or the flattened `ec2_*` variables of one host.

This project models that core:

- `GroupNames`: `to_safe`, the sanitiser behind every group name.
- `MultiMap`: the inventory's map from group to endpoint list, with `push` and
  `keep_first`.
- `Route53`: the address-to-DNS-names map and the lookup of one instance's names.
- `Grouping`: `add_instance`, `add_rds_instance` and the per-region and all-region
  folds that feed them, written as pure functions over a `Store` (the pair inventory
  and index). A `Progress` records whether the run stopped, and why.
- `Cache`: `json_format_dict` (including its tags-only key filter), `is_cache_valid`,
  writing the cache and reading it back, and `load_index_from_cache`.
- `HostVars`: `get_instance` and the attribute flatten of `get_host_info`.
- `Ec2`: the class `Ec2Inventory` itself. Its fields `inventory`, `index`,
  `route53Records` and `disk` are updated in place by its methods. Each method is
  proved to leave its fields exactly as the matching function above describes.
  `Run` is the constructor's main path.
- `Scenarios`: concrete end-to-end runs, namely one and then two running instances
  tagged `env=prod`, and the cache-age boundary.

Python's `sys.exit` and escaping exceptions become a `Fault`. Once a fold has faulted,
it changes nothing more. The cloud is a `Provider` value, the clock is the integer
`now`, and the three cache files are a `Cache.Disk` value held in the object's `disk`
field.

Two behaviours of the code are easy to misread; the model keeps them as written:

- A refresh does not rebuild the inventory and the index wholesale. It folds onto
  whatever the object already holds (`Grouping.Refresh` starts from the current
  `Store`). In `get_host_info` this is the index just loaded from the cache, so stale
  entries survive the refresh and are written back.
- An RDS region that `rds.connect_to_region` cannot reach is skipped, not fatal
  (`Grouping.RdsRegion`).

## Model

| member | source | states |
|---|---|---|
| GroupNames.ToSafe | playbooks/ec2.py:601-605 | the result has the input's length, and each character is kept when it is in `[A-Za-z0-9-]` and becomes `_` otherwise |
| GroupNames.ToSafeAlphabet | playbooks/ec2.py:605 | every result of `to_safe` is a group name over `[A-Za-z0-9_-]` |
| GroupNames.ToSafeFixedPoints | playbooks/ec2.py:605 | `to_safe` leaves a word unchanged exactly when the word is already over `[A-Za-z0-9_-]` |
| GroupNames.ToSafeIdempotent | playbooks/ec2.py:605 | `to_safe(to_safe(w)) == to_safe(w)` for every word |
| GroupNames.ToSafeConcat | playbooks/ec2.py:605 | `to_safe` works character by character: it distributes over concatenation |
| GroupNames.ToSafePrefix | playbooks/ec2.py:377 | a prefix that is already safe, such as `type_` or `tag_`, passes through `to_safe` unchanged |
| Strings.Contains | playbooks/ec2.py:612 | `'tag_' in key` holds exactly when `tag_` occurs at some position of the key |
| Strings.Strip | playbooks/ec2.py:531 | `strip()` yields a contiguous slice of the input with only whitespace cut from either end, and the result neither starts nor ends with whitespace |
| Strings.SplitJoin | playbooks/ec2.py:546-547 | splitting a comma-joined non-empty list gives back the list, provided no item contains a comma |
| MultiMap.Push | playbooks/ec2.py:558-565 | `push` appends the element to the key's list, creating the list when absent, and changes no other key |
| MultiMap.KeepFirst | playbooks/ec2.py:567-569 | `keep_first` creates `[element]` only when the key is absent, and otherwise changes nothing |
| MultiMap.PushRepeated | playbooks/ec2.py:558-565 | N pushes onto one key leave exactly the N elements, in call order, after what was there; no other key changes |
| MultiMap.KeepFirstRepeated | playbooks/ec2.py:567-569 | N `keep_first` calls on one key keep only the first call's element, or what was already there; no other key changes |
| MultiMap.PushSet | playbooks/ec2.py:402-403 | pushing under every key of a set appends the element to each of those lists and leaves the other keys as they were |
| MultiMap.PushSetStep | playbooks/ec2.py:402-403 | pushing the keys of a set one at a time, in any order, builds the same map, so the order of Python set iteration does not matter |
| MultiMap.PushFacts | playbooks/ec2.py:558-569 | one `push` or `keep_first` only appends, keeps the element last in the groups that ended with it, and adds no other endpoint |
| MultiMap.PushEachFacts | playbooks/ec2.py:371-387 | a run of pushes only appends, leaves keys it does not push untouched, and leaves the element last in every pushed group |
| MultiMap.PushSetFacts | playbooks/ec2.py:400-403 | the same facts for the pushes of the Route53 names |
| MultiMap.GrowsTrans | playbooks/ec2.py:558-565 | appending twice is still only appending |
| MultiMap.PushEachContents | playbooks/ec2.py:558-565 | after `push` of one element over a list of keys, each key's list is what it held before followed by the element once for every time the key occurs in the list |
| Route53.SetPairsExact | playbooks/ec2.py:472-480 | a (value, name) pair comes from the record sets exactly when some record set, minus one trailing dot, has that name and lists that value |
| Route53.AddName | playbooks/ec2.py:479-480 | `setdefault(value, set()).add(name)`: the value becomes a key, its set gains the name and nothing else, and every other entry is unchanged |
| Route53.AddValues | playbooks/ec2.py:478-480 | after one record set, a value is a key exactly when it was one or the set lists it; no set shrinks, and every listed value holds the set's name |
| Route53.AddRecordSets | playbooks/ec2.py:472-480 | after a zone's record sets, no entry is lost or shrinks, and every value of every set holds that set's name without its trailing dot |
| Route53.AddZones | playbooks/ec2.py:464-480 | the loop over the zones loses no entry and shrinks no set, and no zones leave the map as it was |
| Route53.NameMapOf | playbooks/ec2.py:457-480 | `get_route53_records` holds exactly the (value, name) pairs of the included zones, and no value with an empty name set |
| Route53.ZonePairsExact | playbooks/ec2.py:464-480 | a pair comes from the zones exactly when some zone outside the exclusion list has a record set that points the name at the value |
| Route53.ZonePairsSound | playbooks/ec2.py:464-480 | every pair collected from the zones points a record name at a value in a zone that is not excluded |
| Route53.ZonePairsComplete | playbooks/ec2.py:464-480 | every record of a zone that is not excluded contributes its pair |
| Route53.AddNamePairs | playbooks/ec2.py:479-480 | `setdefault(value, set()).add(name)` adds exactly that pair and never leaves an empty entry |
| Route53.AddValuesPairs | playbooks/ec2.py:478-480 | one record set adds exactly its (value, name) pairs |
| Route53.AddRecordSetsPairs | playbooks/ec2.py:472-480 | the record sets of a zone add exactly their pairs |
| Route53.AddZonesPairs | playbooks/ec2.py:469-480 | the zones add exactly the pairs of the included zones |
| Route53.NameMapExact | playbooks/ec2.py:457-480 | in the map built from `{}`, name n is listed under value v exactly when an included zone has a record set named n listing v; the map holds no value that no such record set lists |
| Route53.NamesOfAll | playbooks/ec2.py:493-500 | the collected names are exactly the names listed under those attribute values that are present in the map |
| Route53.InstanceNamesExact | playbooks/ec2.py:483-502 | an instance's Route53 names are exactly the names listed under one of its four address attributes |
| Route53.InstanceNames | playbooks/ec2.py:483-502 | a name is returned exactly when the map lists it under one of the instance's four address attributes |
| Grouping.SecurityGroupKeys | playbooks/ec2.py:385-387 | one sanitised `security_group_<name>` key per security group, in order |
| Grouping.TagGroups | playbooks/ec2.py:394-396 | the tag groups are exactly the sanitised `tag_<k>=<v>` names of the tags |
| Grouping.FirstInGroups | playbooks/ec2.py:397 | the `first_in_` groups are exactly `first_in_` followed by a tag group |
| Grouping.TagGroupList | playbooks/ec2.py:394-395 | one sanitised `tag_<k>=<v>` key per tag, in the tags' order |
| Grouping.Destination | playbooks/ec2.py:354-362 | the destination is the value of the VPC destination attribute when the instance has a subnet, and of the plain one otherwise; it is empty exactly when that attribute is `None` or empty |
| Grouping.DestinationIsAddress | playbooks/ec2.py:354-358 | a non-empty destination is one of the instance's four address attributes |
| Grouping.Route53Step | playbooks/ec2.py:399-403 | the Route53 step adds the instance's name groups as keys, and appends the destination once to each of them and to no other group |
| Grouping.AddInstance | playbooks/ec2.py:346-403 | an instance that is not running or has no destination changes nothing; otherwise the index maps the destination to (region, id), and the run stops with an outdated-client fault when the instance has no security-group accessor |
| Grouping.AddDbInstance | playbooks/ec2.py:406-454 | an unavailable instance, or an available one whose endpoint is empty, changes nothing; an available one without an endpoint stops the run with the missing-endpoint fault and changes nothing; otherwise the index maps the endpoint to (region, id), and a missing security-group accessor stops the run |
| Grouping.AddInstances | playbooks/ec2.py:303-304 | the instances of a reservation: a run that has stopped stays as it is, and the only fault they raise is the outdated-client one |
| Grouping.AddReservations | playbooks/ec2.py:300-304 | the same for all reservations of a region |
| Grouping.AddDbInstances | playbooks/ec2.py:319-321 | the same for the database instances of a region, whose faults are the outdated-client and the missing-endpoint ones |
| Grouping.Ec2Region | playbooks/ec2.py:284-310 | a region EC2 cannot reach stops the run with that region's fault and changes nothing; otherwise the only fault is the outdated-client one |
| Grouping.RdsRegion | playbooks/ec2.py:312-325 | a region RDS cannot reach is skipped and changes nothing; the only faults are the outdated-client and the missing-endpoint ones |
| Grouping.AddRegions | playbooks/ec2.py:273-275 | a stopped run stays as it is, and a fault raised is one of those, naming a region of the loop when it is an unreachable region |
| Grouping.Refresh | playbooks/ec2.py:267-282 | no configured region means no change and no fault; any fault is one of the above, naming a configured region when it is an unreachable region |
| Grouping.AddInstancesStops | playbooks/ec2.py:303-304 | once an `add_instance` has stopped the run, the rest of the reservation changes nothing |
| Grouping.AddReservationsStops | playbooks/ec2.py:300-304 | once the run has stopped, the remaining reservations change nothing |
| Grouping.AddDbInstancesStops | playbooks/ec2.py:319-321 | once the run has stopped, the remaining database instances change nothing |
| Grouping.AddRegionsStops | playbooks/ec2.py:273-275 | once a region has stopped the run, the remaining regions change nothing |
| Grouping.FirstInIsNoTagGroup | playbooks/ec2.py:395-397 | a `first_in_` group never has the name of a tag group |
| Grouping.FirstInNotInTagGroups | playbooks/ec2.py:395-397 | a `first_in_` group is none of the tag groups of a tag list |
| Grouping.PushTagsShape | playbooks/ec2.py:394-398 | the tag loop only appends, leaves the destination last in every tag group, and adds no other endpoint |
| Grouping.PushTagsFrame | playbooks/ec2.py:394-398 | the tag loop creates no group but its tag and `first_in_` groups, and leaves every existing group that is not a tag group unchanged, so an existing `first_in_` group is never written again |
| Grouping.PushTagsFirstIn | playbooks/ec2.py:397 | a `first_in_` group the tag loop creates holds the destination alone |
| Grouping.PushTagsStep | playbooks/ec2.py:393-398 | one more tag appends the destination to its tag group, and to no other group but its `first_in_` group |
| Grouping.PushTagsContents | playbooks/ec2.py:393-398 | outside the `first_in_` groups, the tag loop leaves each group as it was followed by the destination once per tag whose group it is |
| Grouping.Route53StepShape | playbooks/ec2.py:400-403 | the Route53 step only appends, and leaves the destination last in every name group |
| Grouping.InstanceTailGrows | playbooks/ec2.py:384-403 | security groups, tags and Route53 names only append, and add no endpoint but the destination |
| Grouping.InstanceTailEnds | playbooks/ec2.py:384-403 | after them the destination is last in every group they push |
| Grouping.InstanceTailFrame | playbooks/ec2.py:384-403 | they create no group but those they push and the `first_in_` groups, and change no group they do not push |
| Grouping.InstanceTailFirstIn | playbooks/ec2.py:394-398 | a new `first_in_` group, which no other step pushes, ends up holding the destination alone |
| Grouping.OneThenPushEach | playbooks/ec2.py:367-381 | after the group-of-one and the head pushes, the destination ends every group pushed, the id group is `[dest]` unless pushed again, and other groups are untouched |
| Grouping.AddInstanceJoins | playbooks/ec2.py:364-403 | after the add, the index maps the destination to (region, id), the destination ends every group the instance joins, and the id group is `[dest]` unless another of its groups has that name |
| Grouping.AddInstanceGrows | playbooks/ec2.py:367-403 | apart from the id group, the add only appends, and only to the groups the instance joins |
| Grouping.AddInstanceNewGroups | playbooks/ec2.py:367-403 | the add creates no group but the id group, the groups the instance joins and its `first_in_` groups |
| Grouping.AddInstanceFirstIn | playbooks/ec2.py:397 | a `first_in_` group that did not exist, and that no other group of the instance shares, is created holding the destination alone |
| Grouping.AddInstanceContents | playbooks/ec2.py:346-403 | outside the `first_in_` groups, each group after the add is exactly: `[dest]` for the id group and the old list otherwise, then the destination once per push onto it (the head pushes, and with a security-group accessor also the security-group and tag pushes), then once more when the instance has that accessor and the group is one of its Route53 names |
| Grouping.AddDbInstanceJoins | playbooks/ec2.py:425-454 | an addressable database instance with a security-group accessor is filed without a fault, its endpoint ends every group it joins, and its id group is `[endpoint]` unless shared |
| Grouping.OneThenTwoRuns | playbooks/ec2.py:428-454 | the group-of-one followed by two runs of pushes leaves the endpoint last in every group pushed, and alone in the id group unless that group is pushed |
| Grouping.AddDbInstanceFrame | playbooks/ec2.py:428-454 | apart from the id group, `add_rds_instance` only appends, changes only the groups the instance joins, and creates no other group |
| Grouping.AddDbInstanceContents | playbooks/ec2.py:406-454 | each group after the add is exactly `[endpoint]` for the id group and the old list otherwise, followed by the endpoint once per push onto it |
| Grouping.AddInstanceFollows | playbooks/ec2.py:346-403 | `add_instance` keeps every group and index key, and keeps the maps consistent (every listed endpoint indexed, no group empty) when they were |
| Grouping.AddDbInstanceFollows | playbooks/ec2.py:406-454 | the same for `add_rds_instance` |
| Grouping.AddInstancesFollows | playbooks/ec2.py:303-304 | the same for the instances of a reservation |
| Grouping.AddReservationsFollows | playbooks/ec2.py:300-304 | the same for all reservations of a region |
| Grouping.AddDbInstancesFollows | playbooks/ec2.py:319-321 | the same for the database instances of a region |
| Grouping.RegionFollows | playbooks/ec2.py:284-325 | the same for the EC2 and RDS passes over one region |
| Grouping.AddRegionsFollows | playbooks/ec2.py:273-275 | the same for the loop over the regions |
| Grouping.FollowsTrans | playbooks/ec2.py:273-275 | keeping keys and consistency composes |
| Grouping.RefreshAccumulates | playbooks/ec2.py:267-282 | a refresh keeps every group and index key it starts from, and keeps a consistent state consistent |
| Grouping.AddInstancesIndexes | playbooks/ec2.py:303-304 | when the run does not stop, every running, addressable instance of a reservation ends up in the index |
| Grouping.AddReservationsIndexes | playbooks/ec2.py:300-304 | the same for every reservation of a region |
| Grouping.AddDbInstancesIndexes | playbooks/ec2.py:319-321 | the same for every addressable database instance of a region |
| Grouping.RegionIndexes | playbooks/ec2.py:284-325 | the same for both passes over one region |
| Grouping.RegionIndexedMono | playbooks/ec2.py:273-275 | a region stays fully indexed when more endpoints are indexed, so later regions do not undo an earlier one |
| Grouping.AddRegionsIndexes | playbooks/ec2.py:273-275 | the same for every region of the loop |
| Grouping.RefreshIndexesAll | playbooks/ec2.py:267-275 | a refresh that does not stop indexes every addressable instance of every configured region |
| Grouping.EmptyIndexNoGroups | playbooks/ec2.py:508-510 | in a consistent store an empty index means an empty inventory, which is what lets `get_host_info` test only the index |
| Cache.TagKeysOf | playbooks/ec2.py:611-612 | the tags-only projection keeps exactly the keys that contain `tag_` |
| Cache.JsonFormatDict | playbooks/ec2.py:608-616 | without `--tags-only` the whole dictionary is rendered; with it, a key list holding exactly the keys that contain `tag_` |
| Cache.IsCacheValid | playbooks/ec2.py:167-182 | valid exactly when the selected inventory file exists, its mtime plus the maximum age is after now, and the index file exists |
| Cache.MissingIndexInvalidates | playbooks/ec2.py:179-182 | without the index file the cache is never valid, however fresh the inventory file is |
| Cache.WriteCacheAsWritten | playbooks/ec2.py:277-282 | as the code writes it, the index file also goes through `json_format_dict` |
| Cache.IndexLostUnderTagsOnly | playbooks/ec2.py:282 | under `--tags-only` that index never reads back, and every endpoint without `tag_` in it is missing from the file |
| Cache.IndexLostExample | playbooks/ec2.py:282 | concretely, `{"1.2.3.4": ["us-east-1", "i-1"]}` is stored as an empty key list |
| Cache.WriteCache | playbooks/ec2.py:277-282 | the inventory goes to the file `--tags-only` selects, the other inventory file is untouched, and the index is stored whole |
| Cache.ReadInventory | playbooks/ec2.py:571-579 | `get_inventory_from_cache` returns the selected file's stored rendering verbatim, and fails exactly when the file is missing |
| Cache.LoadIndex | playbooks/ec2.py:582-587 | the index loads exactly when the index file exists and holds a dictionary, and then it is that dictionary; otherwise the fault is the unreadable index |
| Cache.WriteCacheRoundTrip | playbooks/ec2.py:277-282 | right after a write, the cache is valid for any positive maximum age, the index reads back as written, and the inventory reads back as rendered |
| Cache.TagPrefixOccurs | playbooks/ec2.py:395-397 | `tag_` occurs in every tag group and every `first_in_` group |
| Cache.TagsOnlyKeepsTagGroups | playbooks/ec2.py:611-612 | the tags-only listing keeps every tag group and `first_in_` group of the inventory |
| HostVars.SecurityGroupIds | playbooks/ec2.py:543-544 | the ids of the security groups, one per group, in order |
| HostVars.SecurityGroupNames | playbooks/ec2.py:543-545 | the names of the security groups, one per group, in order |
| HostVars.TagVars | playbooks/ec2.py:536-539 | every tag gets its `ec2_tag_` variable, no variable is removed, and the last tag's value is stored under its name |
| HostVars.TagVarsValue | playbooks/ec2.py:536-539 | a tag whose variable name no later tag shares keeps its own value, so the last tag of a name wins |
| HostVars.TagVarsFrame | playbooks/ec2.py:536-539 | the tag loop writes only the tags' own variables: every variable no tag names keeps its value, and every variable added is some tag's `ec2_tag_` name |
| HostVars.GroupVars | playbooks/ec2.py:540-547 | adds exactly the two string variables `ec2_security_group_ids` and `ec2_security_group_names`, changes no other, and they split back into the ids and the names when there is a group and no comma |
| HostVars.FlattenAttribute | playbooks/ec2.py:523-549 | no variable is removed; a dropped value (an unhandled type, or a region, tags or groups value under another name) changes nothing; a string is stored stripped, `None` as "", an integer or boolean as it is, and a region under `ec2_region` as its name; a scalar or region step adds exactly its own key; tags under `ec2_tags` become the tag variables, and groups under `ec2_groups` the two group variables |
| HostVars.FlattenAttributeFrame | playbooks/ec2.py:528-533 | a step that stores one value leaves every other variable as it was |
| HostVars.Flatten | playbooks/ec2.py:522-549 | every variable of a flattened instance is named `ec2_...` over `[A-Za-z0-9_-]` |
| HostVars.InstanceVariables | playbooks/ec2.py:522-553 | the attribute loop builds exactly the flatten of the instance's attributes |
| HostVars.TagVariables | playbooks/ec2.py:536-539 | the tag loop's result equals `TagVars`, so (with `TagVarsValue` and `TagVarsFrame`) one `ec2_tag_` variable per tag, the last tag of a name winning, and no other variable touched |
| HostVars.GroupVariables | playbooks/ec2.py:540-547 | the security-group loop stores exactly the comma-joined ids and names, in order |
| HostVars.Ec2KeyIsVariableName | playbooks/ec2.py:525 | `to_safe('ec2_' + key)` keeps the `ec2_` prefix and is a safe name |
| HostVars.TagVarsNames | playbooks/ec2.py:537-539 | every tag variable is named `ec2_...` over `[A-Za-z0-9_-]` |
| HostVars.FlattenAttributeNames | playbooks/ec2.py:525-549 | one flatten step adds only variables named `ec2_...` over `[A-Za-z0-9_-]` |
| HostVars.FlattenNames | playbooks/ec2.py:522-553 | every host variable is named `ec2_...` over `[A-Za-z0-9_-]` |
| HostVars.GroupsStored | playbooks/ec2.py:540-547 | the `groups` attribute is stored as two comma-joined strings, the ids and the names |
| HostVars.GroupListsSplit | playbooks/ec2.py:546-547 | those comma-joined strings split back into the id list and the name list |
| HostVars.GroupsRoundTrip | playbooks/ec2.py:540-547 | the two stored strings split back into the ids and the names, in order, when there is a group and no id or name contains a comma |
| HostVars.FindIn | playbooks/ec2.py:342-343 | the found instance carries the id and belongs to the reservation; when none is found, no instance of the reservation has the id |
| HostVars.FindInstance | playbooks/ec2.py:340-343 | the found instance carries the id and is in some reservation; when none is found, no reservation holds the id |
| HostVars.LookupInstance | playbooks/ec2.py:327-343 | an unreachable region gives that region's fault; in a reachable one the lookup succeeds exactly when some reservation holds the id, returns the first instance with it, and otherwise fails with the missing-record fault |
| HostVars.SettledIndex | playbooks/ec2.py:508-510 | a non-empty index is kept; an empty one is replaced by the cached index when that reads, and the run stops with the unreadable-index fault only when it does not |
| HostVars.HostDetails | playbooks/ec2.py:512-555 | a host missing from the index yields the empty dictionary; a found host yields the rendering of its instance's flattened attributes when the lookup succeeds, and the lookup's fault when it fails |
| Ec2.Ec2Inventory.constructor | playbooks/ec2.py:134-146 | a new inventory starts with empty groups, index and Route53 map, has made no refresh, and is consistent |
| Ec2.Ec2Inventory.Push | playbooks/ec2.py:558-565 | `push` on the object's inventory is `MultiMap.Push` |
| Ec2.Ec2Inventory.KeepFirst | playbooks/ec2.py:567-569 | `keep_first` on the object's inventory is `MultiMap.KeepFirst` |
| Ec2.Ec2Inventory.GetInstanceRoute53Names | playbooks/ec2.py:483-502 | the names returned are exactly those the Route53 map lists under one of the instance's addresses |
| Ec2.Ec2Inventory.AddInstance | playbooks/ec2.py:346-403 | the object's inventory, index and fault afterwards are exactly `Grouping.AddInstance` of its state before |
| Ec2.Ec2Inventory.PushHead | playbooks/ec2.py:370-381 | pushes the destination onto the region, zone, type and key-pair groups, in that order |
| Ec2.Ec2Inventory.PushSecurityGroups | playbooks/ec2.py:384-387 | pushes the destination onto each security-group group, in order |
| Ec2.Ec2Inventory.PushTagGroups | playbooks/ec2.py:393-397 | per tag, a `push` onto its tag group, then a `keep_first` onto its `first_in_` group |
| Ec2.Ec2Inventory.PushRoute53Names | playbooks/ec2.py:399-403 | pushes the destination onto every Route53 name of the instance |
| Ec2.Ec2Inventory.PushNames | playbooks/ec2.py:402-403 | pushes the destination onto every name of a set |
| Ec2.Ec2Inventory.AddRdsInstance | playbooks/ec2.py:406-454 | the object's inventory, index and fault afterwards are exactly `Grouping.AddDbInstance` of its state before |
| Ec2.Ec2Inventory.PushDbHead | playbooks/ec2.py:430-437 | pushes the endpoint onto the region, zone and type groups, in that order |
| Ec2.Ec2Inventory.PushDbTail | playbooks/ec2.py:439-454 | pushes the endpoint onto the security-group group when there is one, then the engine and parameter-group groups |
| Ec2.Ec2Inventory.GetRoute53Records | playbooks/ec2.py:457-480 | the object's Route53 map is rebuilt from scratch, and lists name n under value v exactly when an included zone has a record set named n listing v |
| Ec2.Ec2Inventory.AddZoneRecordSets | playbooks/ec2.py:472-480 | adds the record sets of one zone |
| Ec2.Ec2Inventory.AddResourceRecords | playbooks/ec2.py:478-480 | adds one record set's values under its name |
| Ec2.Ec2Inventory.GetInstancesByRegion | playbooks/ec2.py:284-310 | the object ends as `Grouping.Ec2Region` of its state before: an unreachable region stops the run, otherwise every instance of every reservation is added in order |
| Ec2.Ec2Inventory.AddReservation | playbooks/ec2.py:302-304 | adds the instances of one reservation in order, stopping at the first fault |
| Ec2.Ec2Inventory.GetRdsInstancesByRegion | playbooks/ec2.py:312-325 | the object ends as `Grouping.RdsRegion` of its state before: an unreachable region is skipped, otherwise every database instance is added in order |
| Ec2.Ec2Inventory.DoApiCallsUpdateCache | playbooks/ec2.py:267-282 | one refresh: the Route53 map is rebuilt when enabled, the regions are folded onto the current state, and the cache is written only when no fault stopped the run; the maps keep every key and stay consistent |
| Ec2.Ec2Inventory.FetchRegions | playbooks/ec2.py:273-275 | the loop over the configured regions, EC2 then RDS in each, stopping at the first fault |
| Ec2.Ec2Inventory.WriteToCache | playbooks/ec2.py:277-282 | the disk afterwards is `Cache.WriteCache` of the disk before |
| Ec2.Ec2Inventory.LoadIndexFromCache | playbooks/ec2.py:582-587 | the index becomes the cached index when it is readable; otherwise the run stops and the index is unchanged |
| Ec2.Ec2Inventory.GetInstance | playbooks/ec2.py:327-343 | the instance re-fetched is `HostVars.LookupInstance` of the indexed (region, id), and carries that id |
| Ec2.Ec2Inventory.GetHostInfo | playbooks/ec2.py:505-555 | loads the index when empty, and an unreadable one stops with nothing changed; a known host gets its details with no refresh and nothing else changed; an unknown host causes exactly one refresh, after which the maps, the Route53 map and the disk are those of that refresh, and it yields the host's details or the empty dictionary |
| Ec2.Ec2Inventory.Run | playbooks/ec2.py:134-164 | at most two refreshes; when a refresh was forced or the cache is stale, the listing is the rendering of the freshly built inventory and the object's maps, Route53 map and disk are that refresh's; otherwise the listing is the cached file's content verbatim and nothing changes |
| Scenarios.ExampleTypeGroup | playbooks/ec2.py:377 | type `t2.micro` files under `type_t2_micro` |
| Scenarios.ExampleTagGroup | playbooks/ec2.py:395 | tag `env=prod` files under `tag_env_prod` |
| Scenarios.ExampleGroupNames | playbooks/ec2.py:377-397 | the type, tag and `first_in_tag_env_prod` group names of the example |
| Scenarios.RecordSteps | playbooks/ec2.py:365-397 | the example instance is filed by the group-of-one, three pushes, one tag push and one `keep_first` |
| Scenarios.ExampleHead | playbooks/ec2.py:367-377 | the example's group-of-one is followed by exactly the region, zone and type pushes |
| Scenarios.ExampleTail | playbooks/ec2.py:384-403 | the example has no security group or Route53 name, so the rest is one tag push and one `keep_first` |
| Scenarios.FirstRecordFiled | playbooks/ec2.py:346-403 | one running instance at 1.2.3.4 yields exactly the six groups `i-1`, `us-east-1`, `us-east-1a`, `type_t2_micro`, `tag_env_prod` and `first_in_tag_env_prod`, each `["1.2.3.4"]`, and the index entry for 1.2.3.4 |
| Scenarios.SecondRecordFiled | playbooks/ec2.py:346-403 | a second instance at 5.6.7.8 with the same tag makes `tag_env_prod` `["1.2.3.4", "5.6.7.8"]` and leaves `first_in_tag_env_prod` at `["1.2.3.4"]` |
| Scenarios.SecondOntoFirst | playbooks/ec2.py:346-403 | filing the second instance onto the six groups the first one left gives those group contents and both index entries |
| Scenarios.RefreshOfExampleRegion | playbooks/ec2.py:267-304 | a refresh of a region holding both instances yields the same two groups |
| Scenarios.CacheAgeBoundary | playbooks/ec2.py:167-182 | with mtime 100 and maximum age 300 the cache is valid at 399 and stale at 400; without the index file, or under `--tags-only` with no tags file, it is invalid |

## Left out

- Command-line and ini-file parsing (`parse_cli_args`, `read_settings`, ec2.py:185-264) are not modelled. Their outcome is the `Settings` and `Args` values, and the region list is taken as given (the `all` expansion included).
- boto itself, the Eucalyptus connection branch and `APIVersion` are not modelled. The cloud is a `Provider` value. A region EC2 cannot reach is a region missing from `provider.ec2`; the same holds for RDS.
- `BotoServerError` handling (ec2.py:306-310, 322-325) is not modelled: the provider value never fails mid-call.
- `sorted(reservation.instances)` is not modelled: each reservation in the provider is taken to be in the order that sort produces.
- The JSON text is not modelled: pretty-printing, `sort_keys` and the printing itself. `Cache.Rendered` keeps the dictionary, or under `--tags-only` the set of keys, so the order of that key list is not modelled.
- The file system is not modelled: paths, `AWS_PROFILE` prefixes, `os.makedirs`, and partial or concurrent writes. The three cache files are a `Cache.Disk` value, and modification times and the clock are integers.
- The top-level retry loop (ec2.py:620-627) is not modelled: a fault ends the modelled run.
- HostVars.LookupInstance: a host whose index entry is an RDS endpoint, or an instance no longer returned, yields the fault `HostRecordMissing`. The code instead flattens `None` and raises.
- HostVars.FlattenAttribute: the attribute dictionary is a list of typed values in iteration order. A region, tags or groups value under a key that is none of `ec2_region`, `ec2_tags` and `ec2_groups` is dropped, as the final `else: pass` of ec2.py:548 does. A value under one of those three keys that is not of the kind the key names (tags under `ec2_region`, an unhandled type under `ec2_groups`) is also dropped, where the code reads `.name`, iterates it as a dictionary or reads `.id` from its items, and raises for most such values.
- Cache.LoadIndex: an index file holding a key list, which is what a `--tags-only` refresh writes (see Findings), stops the run at once with `IndexUnreadable`. The code loads the list as the index: a host that is one of the listed keys raises `TypeError` at ec2.py:519; any other host triggers a refresh, which raises `TypeError` at the first instance it files (ec2.py:365, 426), and when it files none either raises `AttributeError` writing the index under `--tags-only` (ec2.py:612) or answers `{}`.
- Strings.IsSpace: every string is stripped of the `unicode` whitespace set; a value of Python 2's byte type `str` would lose only ASCII whitespace.
- Grouping.Destination: the destination and VPC destination variables may name only the four address attributes (`Records.AddressAttribute`); the code `getattr`s whatever attribute name the settings give (ec2.py:356-358).
- Route53.InstanceNames: an instance always has its four address attributes (`None` when unset), so the `AttributeError` branch of ec2.py:494-497 does not arise.
- Ec2.Ec2Inventory.Run: in host mode it only states that the output is host information. The host path is specified in full by `Ec2.Ec2Inventory.GetHostInfo`.
- Ec2.Ec2Inventory.DoApiCallsUpdateCache: writes the index whole (`Cache.WriteCache`), not as `json_format_dict` renders it under `--tags-only`; see Findings.

## Findings

| source | as written | input that shows it | evidently intended | confidence | as-written member | corrected member |
|---|---|---|---|---|---|---|
| playbooks/ec2.py:282 | the index is written through `json_format_dict`, which under `--tags-only` replaces the dictionary by the list of its keys that contain `tag_` | `--tags-only` with index `{"1.2.3.4": ["us-east-1", "i-1"]}`: the index file holds `[]`, so no endpoint can be looked up from the cache | store the index dictionary whole, as without `--tags-only` | high, not executed | Cache.IndexLostUnderTagsOnly | Cache.WriteCacheRoundTrip |
