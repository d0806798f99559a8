/** The Route53 map: address -> set of DNS names pointing at it
    (`get_route53_records`, playbooks/ec2.py:457-480), and the per-instance lookup
    (`get_instance_route53_names`, playbooks/ec2.py:483-502). */
module Route53 {
  import opened Strings
  import opened Records

  type NameMap = map<string, set<string>>

  /** A zone takes part unless its name minus its last character (the trailing dot) is
      in the exclusion list. */
  predicate Included(zone: Zone, excluded: seq<string>)
  {
    DropLast(zone.name) !in excluded
  }

  /** A record-set name with one trailing dot removed. */
  function RecordName(rs: RecordSet): string
  {
    if |rs.name| > 0 && rs.name[|rs.name| - 1] == '.' then rs.name[..|rs.name| - 1] else rs.name
  }

  /** `setdefault(value, set()).add(name)`: `value` gains `name`, every other entry
      stays as it was. */
  function AddName(m: NameMap, value: string, name: string): (r: NameMap)
    ensures r.Keys == m.Keys + {value}
    ensures name in r[value]
    ensures forall v :: v in m ==> m[v] <= r[v]
    ensures forall v :: v in m && v != value ==> r[v] == m[v]
    ensures value in m ==> r[value] == m[value] + {name}
    ensures value !in m ==> r[value] == {name}
  {
    m[value := (if value in m then m[value] else {}) + {name}]
  }

  /** One record set: each of its values gains the record-set name. */
  function AddValues(m: NameMap, name: string, values: seq<string>): (r: NameMap)
    ensures forall v :: v in r <==> v in m || v in values
    ensures forall v :: v in m ==> m[v] <= r[v]
    ensures forall v :: v in values ==> name in r[v]
    decreases |values|
  {
    if |values| == 0 then m
    else
      var init := values[..|values| - 1];
      assert values == init + [values[|values| - 1]];
      AddName(AddValues(m, name, init), values[|values| - 1], name)
  }

  /** The record sets of one zone, in order: the map only gains names. */
  function AddRecordSets(m: NameMap, sets: seq<RecordSet>): (r: NameMap)
    ensures forall v :: v in m ==> v in r && m[v] <= r[v]
    ensures forall j, v :: 0 <= j < |sets| && v in sets[j].resourceRecords ==> v in r && RecordName(sets[j]) in r[v]
    decreases |sets|
  {
    if |sets| == 0 then m
    else
      var last := sets[|sets| - 1];
      AddValues(AddRecordSets(m, sets[..|sets| - 1]), RecordName(last), last.resourceRecords)
  }

  /** The zones, in order, skipping the excluded ones: the map only gains names. */
  function AddZones(m: NameMap, zones: seq<Zone>, excluded: seq<string>): (r: NameMap)
    ensures forall v :: v in m ==> v in r && m[v] <= r[v]
    ensures zones == [] ==> r == m
    decreases |zones|
  {
    if |zones| == 0 then m
    else
      var before := AddZones(m, zones[..|zones| - 1], excluded);
      var last := zones[|zones| - 1];
      if Included(last, excluded) then AddRecordSets(before, last.recordSets) else before
  }

  /** The map `get_route53_records` builds, starting from `{}`: it relates exactly the
      pairs of the zones not excluded, and holds no address without a name. */
  function NameMapOf(zones: seq<Zone>, excluded: seq<string>): (r: NameMap)
    ensures Pairs(r) == ZonePairs(zones, excluded)
    ensures NoEmptyEntry(r)
  {
    AddZonesPairs(map[], zones, excluded);
    assert Pairs(map[]) == {};
    AddZones(map[], zones, excluded)
  }

  /** The (address, name) pairs a name map relates. */
  function Pairs(m: NameMap): set<(string, string)>
  {
    set v, n | v in m.Keys && n in m[v] :: (v, n)
  }

  /** No address maps to an empty set of names. */
  ghost predicate NoEmptyEntry(m: NameMap)
  {
    forall v :: v in m ==> m[v] != {}
  }

  /** The pairs one record set contributes. */
  function ValuePairs(name: string, values: seq<string>): (r: set<(string, string)>)
    ensures forall v, n :: (v, n) in r <==> v in values && n == name
    decreases |values|
  {
    if |values| == 0 then {}
    else ValuePairs(name, values[..|values| - 1]) + {(values[|values| - 1], name)}
  }

  /** Record set `j` of `sets` names `name` and lists `value`. */
  ghost predicate SetPointsAt(sets: seq<RecordSet>, value: string, name: string, j: int)
  {
    0 <= j < |sets| && value in sets[j].resourceRecords && name == RecordName(sets[j])
  }

  /** The pairs a zone's record sets contribute. */
  function SetPairs(sets: seq<RecordSet>): set<(string, string)>
    decreases |sets|
  {
    if |sets| == 0 then {}
    else SetPairs(sets[..|sets| - 1]) + ValuePairs(RecordName(sets[|sets| - 1]), sets[|sets| - 1].resourceRecords)
  }

  /** A pair of the record sets comes from the sets before the last one, or from the last. */
  lemma SetPairsSnoc(sets: seq<RecordSet>, v: string, n: string)
    requires |sets| > 0
    ensures var last := sets[|sets| - 1];
      (v, n) in SetPairs(sets)
      <==> (v, n) in SetPairs(sets[..|sets| - 1]) || (v in last.resourceRecords && n == RecordName(last))
  {
  }

  lemma {:induction false} SetPairsExact(sets: seq<RecordSet>, v: string, n: string)
    ensures (v, n) in SetPairs(sets) <==> exists j :: SetPointsAt(sets, v, n, j)
    decreases |sets|
  {
    var k := |sets|;
    if k > 0 {
      var init := sets[..k - 1];
      SetPairsExact(init, v, n);
      SetPairsSnoc(sets, v, n);
      assert (v, n) in SetPairs(sets) ==> exists j :: SetPointsAt(sets, v, n, j) by {
        if (v, n) in SetPairs(init) {
          var j :| SetPointsAt(init, v, n, j);
          assert SetPointsAt(sets, v, n, j);
        } else if (v, n) in SetPairs(sets) {
          assert SetPointsAt(sets, v, n, k - 1);
        }
      }
      assert (exists j :: SetPointsAt(sets, v, n, j)) ==> (v, n) in SetPairs(sets) by {
        if exists j :: SetPointsAt(sets, v, n, j) {
          var j :| SetPointsAt(sets, v, n, j);
          if j < k - 1 {
            assert SetPointsAt(init, v, n, j);
          }
        }
      }
    }
  }

  /** Record set `j` of zone `i`, a zone not excluded, names `name` and lists `value`. */
  ghost predicate PointsAt(zones: seq<Zone>, excluded: seq<string>, value: string, name: string, i: int, j: int)
  {
    0 <= i < |zones| && Included(zones[i], excluded) && SetPointsAt(zones[i].recordSets, value, name, j)
  }

  /** Some record set of an included zone makes `name` point at `value`. */
  ghost predicate PointsTo(zones: seq<Zone>, excluded: seq<string>, value: string, name: string)
  {
    exists i, j :: PointsAt(zones, excluded, value, name, i, j)
  }

  /** The pairs the included zones contribute. */
  function ZonePairs(zones: seq<Zone>, excluded: seq<string>): set<(string, string)>
    decreases |zones|
  {
    if |zones| == 0 then {}
    else
      var last := zones[|zones| - 1];
      ZonePairs(zones[..|zones| - 1], excluded) + (if Included(last, excluded) then SetPairs(last.recordSets) else {})
  }

  lemma ZonePairsExact(zones: seq<Zone>, excluded: seq<string>, v: string, n: string)
    ensures (v, n) in ZonePairs(zones, excluded) <==> PointsTo(zones, excluded, v, n)
  {
    if (v, n) in ZonePairs(zones, excluded) {
      ZonePairsSound(zones, excluded, v, n);
    }
    if PointsTo(zones, excluded, v, n) {
      var i, j :| PointsAt(zones, excluded, v, n, i, j);
      ZonePairsComplete(zones, excluded, v, n, i, j);
    }
  }

  /** A pair of the zones comes from the zones before the last one, or from the last. */
  lemma ZonePairsSnoc(zones: seq<Zone>, excluded: seq<string>, v: string, n: string)
    requires |zones| > 0
    ensures var last := zones[|zones| - 1];
      (v, n) in ZonePairs(zones, excluded)
      <==> (v, n) in ZonePairs(zones[..|zones| - 1], excluded) || (Included(last, excluded) && (v, n) in SetPairs(last.recordSets))
  {
  }

  lemma {:induction false} ZonePairsSound(zones: seq<Zone>, excluded: seq<string>, v: string, n: string)
    requires (v, n) in ZonePairs(zones, excluded)
    ensures PointsTo(zones, excluded, v, n)
    decreases |zones|
  {
    var k := |zones|;
    var init := zones[..k - 1];
    var last := zones[k - 1];
    ZonePairsSnoc(zones, excluded, v, n);
    if (v, n) in ZonePairs(init, excluded) {
      ZonePairsSound(init, excluded, v, n);
      var i, j :| PointsAt(init, excluded, v, n, i, j);
      assert init[i] == zones[i];
      assert PointsAt(zones, excluded, v, n, i, j);
    } else {
      SetPairsExact(last.recordSets, v, n);
      var j :| SetPointsAt(last.recordSets, v, n, j);
      assert PointsAt(zones, excluded, v, n, k - 1, j);
    }
  }

  lemma {:induction false} ZonePairsComplete(zones: seq<Zone>, excluded: seq<string>, v: string, n: string, i: int, j: int)
    requires PointsAt(zones, excluded, v, n, i, j)
    ensures (v, n) in ZonePairs(zones, excluded)
    decreases |zones|
  {
    var k := |zones|;
    var init := zones[..k - 1];
    ZonePairsSnoc(zones, excluded, v, n);
    if i < k - 1 {
      assert init[i] == zones[i];
      assert PointsAt(init, excluded, v, n, i, j);
      ZonePairsComplete(init, excluded, v, n, i, j);
    } else {
      SetPairsExact(zones[k - 1].recordSets, v, n);
    }
  }

  lemma AddNamePairs(m: NameMap, value: string, name: string)
    ensures Pairs(AddName(m, value, name)) == Pairs(m) + {(value, name)}
    ensures NoEmptyEntry(m) ==> NoEmptyEntry(AddName(m, value, name))
  {
    var a := AddName(m, value, name);
    forall p | p in Pairs(a) ensures p in Pairs(m) + {(value, name)} {
      var (v, n) := p;
      if v != value { assert v in m && n in m[v]; }
    }
    forall p | p in Pairs(m) + {(value, name)} ensures p in Pairs(a) {
      var (v, n) := p;
      assert v in a && n in a[v];
    }
  }

  lemma {:induction false} AddValuesPairs(m: NameMap, name: string, values: seq<string>)
    ensures Pairs(AddValues(m, name, values)) == Pairs(m) + ValuePairs(name, values)
    ensures NoEmptyEntry(m) ==> NoEmptyEntry(AddValues(m, name, values))
    decreases |values|
  {
    var k := |values|;
    if k > 0 {
      AddValuesPairs(m, name, values[..k - 1]);
      AddNamePairs(AddValues(m, name, values[..k - 1]), values[k - 1], name);
    }
  }

  lemma {:induction false} AddRecordSetsPairs(m: NameMap, sets: seq<RecordSet>)
    ensures Pairs(AddRecordSets(m, sets)) == Pairs(m) + SetPairs(sets)
    ensures NoEmptyEntry(m) ==> NoEmptyEntry(AddRecordSets(m, sets))
    decreases |sets|
  {
    var k := |sets|;
    if k > 0 {
      AddRecordSetsPairs(m, sets[..k - 1]);
      AddValuesPairs(AddRecordSets(m, sets[..k - 1]), RecordName(sets[k - 1]), sets[k - 1].resourceRecords);
    }
  }

  lemma {:induction false} AddZonesPairs(m: NameMap, zones: seq<Zone>, excluded: seq<string>)
    ensures Pairs(AddZones(m, zones, excluded)) == Pairs(m) + ZonePairs(zones, excluded)
    ensures NoEmptyEntry(m) ==> NoEmptyEntry(AddZones(m, zones, excluded))
    decreases |zones|
  {
    var k := |zones|;
    if k > 0 {
      AddZonesPairs(m, zones[..k - 1], excluded);
      if Included(zones[k - 1], excluded) {
        AddRecordSetsPairs(AddZones(m, zones[..k - 1], excluded), zones[k - 1].recordSets);
      }
    }
  }

  /** The Route53 map relates an address to a name exactly when a record set of a zone
      that is not excluded, with that name (one trailing dot removed), lists the address;
      and it holds no address that no such record set lists. */
  lemma NameMapExact(zones: seq<Zone>, excluded: seq<string>)
    ensures forall v, n :: v in NameMapOf(zones, excluded) && n in NameMapOf(zones, excluded)[v]
              <==> PointsTo(zones, excluded, v, n)
    ensures forall v :: v in NameMapOf(zones, excluded) ==> exists n :: PointsTo(zones, excluded, v, n)
  {
    var m := NameMapOf(zones, excluded);
    AddZonesPairs(map[], zones, excluded);
    assert Pairs(map[]) == {};
    forall v, n ensures v in m && n in m[v] <==> PointsTo(zones, excluded, v, n) {
      ZonePairsExact(zones, excluded, v, n);
      assert v in m && n in m[v] <==> (v, n) in Pairs(m);
    }
    forall v | v in m ensures exists n :: PointsTo(zones, excluded, v, n) {
      var n :| n in m[v];
      assert (v, n) in Pairs(m);
      ZonePairsExact(zones, excluded, v, n);
    }
  }

  /** The four address attributes `get_instance_route53_names` consults, those present. */
  function Addresses(inst: Instance): set<string>
  {
    (if inst.publicDnsName.Some? then {inst.publicDnsName.value} else {})
    + (if inst.privateDnsName.Some? then {inst.privateDnsName.value} else {})
    + (if inst.ipAddress.Some? then {inst.ipAddress.value} else {})
    + (if inst.privateIpAddress.Some? then {inst.privateIpAddress.value} else {})
  }

  /** The values of the four address attributes `get_instance_route53_names`
      consults, in its order. */
  function AddressValues(inst: Instance): seq<Option<string>>
  {
    [inst.publicDnsName, inst.privateDnsName, inst.ipAddress, inst.privateIpAddress]
  }

  /** The names recorded for one attribute value, if it is present and known. */
  function NamesOf(records: NameMap, value: Option<string>): set<string>
  {
    if value.Some? && value.value in records then records[value.value] else {}
  }

  /** The union of the names recorded for each of `values`. */
  function NamesOfAll(records: NameMap, values: seq<Option<string>>): (names: set<string>)
    ensures forall n :: n in names <==>
              exists i :: 0 <= i < |values| && values[i].Some? && values[i].value in records && n in records[values[i].value]
    decreases |values|
  {
    if |values| == 0 then {}
    else
      var r := NamesOfAll(records, values[..|values| - 1]) + NamesOf(records, values[|values| - 1]);
      assert forall i :: 0 <= i < |values| - 1 ==> values[..|values| - 1][i] == values[i];
      r
  }

  /** `get_instance_route53_names`: the union of the names recorded for the public and
      private DNS names and IP addresses of the instance, skipping absent ones. */
  lemma InstanceNamesExact(records: NameMap, inst: Instance)
    ensures forall n :: n in NamesOfAll(records, AddressValues(inst)) <==>
              exists a :: a in Addresses(inst) && a in records && n in records[a]
  {
    var vs := AddressValues(inst);
    forall n ensures n in NamesOfAll(records, vs) <==> exists a :: a in Addresses(inst) && a in records && n in records[a] {
      if exists a :: a in Addresses(inst) && a in records && n in records[a] {
        var a :| a in Addresses(inst) && a in records && n in records[a];
        var i := if vs[0] == Some(a) then 0 else if vs[1] == Some(a) then 1 else if vs[2] == Some(a) then 2 else 3;
        assert vs[i] == Some(a);
      }
    }
  }

  /** The names of an instance, as `add_instance` groups it: every name recorded for one
      of its four addresses. */
  function InstanceNames(records: NameMap, inst: Instance): (names: set<string>)
    ensures forall n :: n in names <==> exists a :: a in Addresses(inst) && a in records && n in records[a]
  {
    InstanceNamesExact(records, inst);
    NamesOfAll(records, AddressValues(inst))
  }
}
