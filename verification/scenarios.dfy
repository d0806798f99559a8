/** Worked cases of the model: two running instances sharing a tag, filed one after
    the other and then through a whole refresh, and the cache-age boundary. */
module Scenarios {
  import opened Strings
  import opened GroupNames
  import opened MultiMap
  import opened Records
  import opened Grouping
  import Cache

  /** One region, the public IP address as destination, Route53 off, five minutes of
      cache. */
  function ExampleSettings(): Settings
  {
    Settings(["us-east-1"], IpAddress, IpAddress, false, [], 300)
  }

  /** A running `t2.micro` in `us-east-1a`, outside any VPC, tagged `env=prod`, with no
      key pair and no security group. */
  function Record(id: string, address: string): Instance
  {
    Instance(id, "running", "", None, None, Some(address), None, "us-east-1a", "t2.micro",
             None, Some([]), [("env", "prod")], [])
  }

  /** `to_safe` maps `w` to `r` when it maps each character of `w` to that of `r`. */
  lemma SafeEqual(w: string, r: string)
    requires |w| == |r|
    requires forall i :: 0 <= i < |w| ==> SafeChar(w[i]) == r[i]
    ensures ToSafe(w) == r
  {
  }

  lemma ExampleTypeGroup()
    ensures TypeGroup("t2.micro") == "type_t2_micro"
  {
    var w := "type_t2.micro";
    var r := "type_t2_micro";
    assert "type_" + "t2.micro" == w;
    assert w[0] == 't' && w[1] == 'y' && w[2] == 'p' && w[3] == 'e' && w[4] == '_' && w[5] == 't' && w[6] == '2'
        && w[7] == '.' && w[8] == 'm' && w[9] == 'i' && w[10] == 'c' && w[11] == 'r' && w[12] == 'o';
    assert r[0] == 't' && r[1] == 'y' && r[2] == 'p' && r[3] == 'e' && r[4] == '_' && r[5] == 't' && r[6] == '2'
        && r[7] == '_' && r[8] == 'm' && r[9] == 'i' && r[10] == 'c' && r[11] == 'r' && r[12] == 'o';
    SafeEqual(w, r);
  }

  lemma ExampleTagGroup()
    ensures TagGroup(("env", "prod")) == "tag_env_prod"
  {
    var w := "tag_env=prod";
    var r := "tag_env_prod";
    assert "tag_" + "env" + "=" + "prod" == w;
    assert w[0] == 't' && w[1] == 'a' && w[2] == 'g' && w[3] == '_' && w[4] == 'e' && w[5] == 'n' && w[6] == 'v'
        && w[7] == '=' && w[8] == 'p' && w[9] == 'r' && w[10] == 'o' && w[11] == 'd';
    assert r[0] == 't' && r[1] == 'a' && r[2] == 'g' && r[3] == '_' && r[4] == 'e' && r[5] == 'n' && r[6] == 'v'
        && r[7] == '_' && r[8] == 'p' && r[9] == 'r' && r[10] == 'o' && r[11] == 'd';
    SafeEqual(w, r);
  }

  /** The sanitised names the two records are filed under. */
  lemma ExampleGroupNames()
    ensures TypeGroup("t2.micro") == "type_t2_micro"
    ensures TagGroup(("env", "prod")) == "tag_env_prod"
    ensures FirstInGroup(("env", "prod")) == "first_in_tag_env_prod"
  {
    ExampleTypeGroup();
    ExampleTagGroup();
    assert "first_in_" + "tag_env_prod" == "first_in_tag_env_prod";
  }

  /** Filing one of the example records, spelled out push by push. */
  lemma RecordSteps(s: Store, id: string, address: string)
    requires address != ""
    ensures var p := AddInstance(s, Record(id, address), "us-east-1", ExampleSettings(), map[]);
      var m := s.groups[id := [address]];
      var m3 := Push(Push(Push(m, "us-east-1", address), "us-east-1a", address), "type_t2_micro", address);
      && p.fault == None
      && p.store.index == s.index[address := IndexEntry("us-east-1", id)]
      && p.store.groups == KeepFirst(Push(m3, "tag_env_prod", address), "first_in_tag_env_prod", address)
  {
    var inst := Record(id, address);
    assert Destination(inst, ExampleSettings()) == address;
    AddInstanceUnfold(s, inst, "us-east-1", ExampleSettings(), map[]);
    ExampleHead(s.groups, id, address);
    ExampleTail(InstanceHead(s.groups, inst, "us-east-1", address), id, address);
  }

  /** The group-of-one and the head pushes of an example record: region, zone, type. */
  lemma ExampleHead(g: MultiMap, id: string, address: string)
    ensures InstanceHead(g, Record(id, address), "us-east-1", address)
            == Push(Push(Push(g[id := [address]], "us-east-1", address), "us-east-1a", address), "type_t2_micro", address)
  {
    ExampleTypeGroup();
    var m := g[id := [address]];
    var keys := HeadKeys(Record(id, address), "us-east-1");
    assert keys == ["us-east-1", "us-east-1a", "type_t2_micro"];
    PushEachSnoc(m, [], "us-east-1", address);
    assert [] + ["us-east-1"] == ["us-east-1"];
    PushEachSnoc(m, ["us-east-1"], "us-east-1a", address);
    assert ["us-east-1"] + ["us-east-1a"] == ["us-east-1", "us-east-1a"];
    PushEachSnoc(m, ["us-east-1", "us-east-1a"], "type_t2_micro", address);
    assert ["us-east-1", "us-east-1a"] + ["type_t2_micro"] == keys;
  }

  /** The rest of an example record: no security group, one tag push and one
      `keep_first`, and no Route53 name. */
  lemma ExampleTail(head: MultiMap, id: string, address: string)
    ensures InstanceTail(head, Record(id, address), [], ExampleSettings(), map[], address)
            == KeepFirst(Push(head, "tag_env_prod", address), "first_in_tag_env_prod", address)
  {
    ExampleGroupNames();
    var inst := Record(id, address);
    assert SecurityGroupKeys([]) == [];
    assert inst.tags[..0] == [];
    assert PushTags(head, inst.tags, address) == KeepFirst(Push(head, "tag_env_prod", address), "first_in_tag_env_prod", address);
    assert InstanceTail(head, inst, [], ExampleSettings(), map[], address) == PushTags(head, inst.tags, address);
  }

  /** The first record: it joins its group-of-one, its region, zone, type, tag and
      `first_in_` groups, each holding only its address, and the index maps the address
      to the region and the instance. */
  lemma FirstRecordFiled()
    ensures var p := AddInstance(Store(map[], map[]), Record("i-1", "1.2.3.4"), "us-east-1", ExampleSettings(), map[]);
      && p.fault == None
      && p.store.index == map["1.2.3.4" := IndexEntry("us-east-1", "i-1")]
      && p.store.groups == map["i-1" := ["1.2.3.4"], "us-east-1" := ["1.2.3.4"],
                               "us-east-1a" := ["1.2.3.4"], "type_t2_micro" := ["1.2.3.4"],
                               "tag_env_prod" := ["1.2.3.4"], "first_in_tag_env_prod" := ["1.2.3.4"]]
  {
    RecordSteps(Store(map[], map[]), "i-1", "1.2.3.4");
    assert |"i-1"| == 3 && |"us-east-1"| == 9 && |"us-east-1a"| == 10;
    assert |"type_t2_micro"| == 13 && |"tag_env_prod"| == 12 && |"first_in_tag_env_prod"| == 21;
    FreshPushes("i-1", "us-east-1", "us-east-1a", "type_t2_micro", "tag_env_prod", "first_in_tag_env_prod", "1.2.3.4");
  }

  /** Filing onto groups none of which exists yet creates each with `[a]` alone. */
  lemma FreshPushes(id: string, r: string, z: string, t: string, g: string, f: string, a: string)
    requires id != r && id != z && id != t && id != g && id != f
    requires r != z && r != t && r != g && r != f
    requires z != t && z != g && z != f
    requires t != g && t != f && g != f
    ensures KeepFirst(Push(Push(Push(Push(map[id := [a]], r, a), z, a), t, a), g, a), f, a)
            == map[id := [a], r := [a], z := [a], t := [a], g := [a], f := [a]]
  {
    var m1 := map[id := [a]];
    assert Push(m1, r, a) == m1[r := [a]];
    var m2 := m1[r := [a]];
    assert Push(m2, z, a) == m2[z := [a]];
    var m3 := m2[z := [a]];
    assert Push(m3, t, a) == m3[t := [a]];
    var m4 := m3[t := [a]];
    assert Push(m4, g, a) == m4[g := [a]];
    var m5 := m4[g := [a]];
    assert KeepFirst(m5, f, a) == m5[f := [a]];
  }

  /** The second record with the same tag: the tag group lists both addresses in
      filing order, while the `first_in_` group keeps the first one only. */
  lemma SecondRecordFiled()
    ensures var p1 := AddInstance(Store(map[], map[]), Record("i-1", "1.2.3.4"), "us-east-1", ExampleSettings(), map[]);
      var p2 := AddInstance(p1.store, Record("i-2", "5.6.7.8"), "us-east-1", ExampleSettings(), map[]);
      && p2.fault == None
      && "tag_env_prod" in p2.store.groups && p2.store.groups["tag_env_prod"] == ["1.2.3.4", "5.6.7.8"]
      && "first_in_tag_env_prod" in p2.store.groups && p2.store.groups["first_in_tag_env_prod"] == ["1.2.3.4"]
      && "us-east-1" in p2.store.groups && p2.store.groups["us-east-1"] == ["1.2.3.4", "5.6.7.8"]
      && "i-2" in p2.store.groups && p2.store.groups["i-2"] == ["5.6.7.8"]
      && p2.store.index == map["1.2.3.4" := IndexEntry("us-east-1", "i-1"), "5.6.7.8" := IndexEntry("us-east-1", "i-2")]
  {
    var p1 := AddInstance(Store(map[], map[]), Record("i-1", "1.2.3.4"), "us-east-1", ExampleSettings(), map[]);
    FirstRecordFiled();
    SecondOntoFirst(p1.store);
  }

  /** Filing the second record onto the store the first one left. */
  lemma SecondOntoFirst(s: Store)
    requires s.groups == map["i-1" := ["1.2.3.4"], "us-east-1" := ["1.2.3.4"],
                             "us-east-1a" := ["1.2.3.4"], "type_t2_micro" := ["1.2.3.4"],
                             "tag_env_prod" := ["1.2.3.4"], "first_in_tag_env_prod" := ["1.2.3.4"]]
    requires s.index == map["1.2.3.4" := IndexEntry("us-east-1", "i-1")]
    ensures var p2 := AddInstance(s, Record("i-2", "5.6.7.8"), "us-east-1", ExampleSettings(), map[]);
      && p2.fault == None
      && "tag_env_prod" in p2.store.groups && p2.store.groups["tag_env_prod"] == ["1.2.3.4", "5.6.7.8"]
      && "first_in_tag_env_prod" in p2.store.groups && p2.store.groups["first_in_tag_env_prod"] == ["1.2.3.4"]
      && "us-east-1" in p2.store.groups && p2.store.groups["us-east-1"] == ["1.2.3.4", "5.6.7.8"]
      && "i-2" in p2.store.groups && p2.store.groups["i-2"] == ["5.6.7.8"]
      && p2.store.index == map["1.2.3.4" := IndexEntry("us-east-1", "i-1"), "5.6.7.8" := IndexEntry("us-east-1", "i-2")]
  {
    var a, b := "1.2.3.4", "5.6.7.8";
    var id, id2, r, z, t, g, f := "i-1", "i-2", "us-east-1", "us-east-1a", "type_t2_micro", "tag_env_prod", "first_in_tag_env_prod";
    RecordSteps(s, id2, b);
    assert |id| == 3 && |id2| == 3 && id[2] != id2[2];
    assert |r| == 9 && |z| == 10 && |t| == 13 && |g| == 12 && |f| == 21;
    SecondPushes(s.groups, id, id2, r, z, t, g, f, a, b);
  }

  /** Filing a second address onto the groups of the first: the shared groups grow,
      the `first_in_` group does not. */
  lemma SecondPushes(m: MultiMap, id: string, id2: string, r: string, z: string, t: string, g: string, f: string, a: string, b: string)
    requires id != r && id != z && id != t && id != g && id != f
    requires id2 != id && id2 != r && id2 != z && id2 != t && id2 != g && id2 != f
    requires r != z && r != t && r != g && r != f
    requires z != t && z != g && z != f
    requires t != g && t != f && g != f
    requires m == map[id := [a], r := [a], z := [a], t := [a], g := [a], f := [a]]
    ensures var m2 := KeepFirst(Push(Push(Push(Push(m[id2 := [b]], r, b), z, b), t, b), g, b), f, b);
      && g in m2 && f in m2 && r in m2 && id2 in m2
      && m2[g] == [a, b] && m2[f] == [a] && m2[r] == [a, b] && m2[id2] == [b]
  {
    var m1 := m[id2 := [b]];
    assert r in m1 && g in m1 && f in m1 && m1[r] == [a] && m1[g] == [a] && m1[f] == [a] && m1[id2] == [b];
    var m2 := Push(m1, r, b);
    assert m2[r] == [a, b] && m2[g] == [a] && m2[f] == [a] && m2[id2] == [b];
    var m3 := Push(m2, z, b);
    assert m3[r] == [a, b] && m3[g] == [a] && m3[f] == [a] && m3[id2] == [b];
    var m4 := Push(m3, t, b);
    assert m4[r] == [a, b] && m4[g] == [a] && m4[f] == [a] && m4[id2] == [b];
    var m5 := Push(m4, g, b);
    assert m5[r] == [a, b] && m5[g] == [a, b] && m5[f] == [a] && m5[id2] == [b];
    assert KeepFirst(m5, f, b) == m5;
  }

  /** A whole refresh of one region whose only reservation holds both records gives
      the same groups as filing them one after the other. */
  lemma RefreshOfExampleRegion()
    ensures var provider := Provider(map["us-east-1" := [[Record("i-1", "1.2.3.4"), Record("i-2", "5.6.7.8")]]], map[], []);
      var r := Refresh(Store(map[], map[]), ExampleSettings(), provider, map[]);
      && r.fault == None
      && "tag_env_prod" in r.store.groups && r.store.groups["tag_env_prod"] == ["1.2.3.4", "5.6.7.8"]
      && "first_in_tag_env_prod" in r.store.groups && r.store.groups["first_in_tag_env_prod"] == ["1.2.3.4"]
  {
    var settings := ExampleSettings();
    var provider := Provider(map["us-east-1" := [[Record("i-1", "1.2.3.4"), Record("i-2", "5.6.7.8")]]], map[], []);
    var insts := [Record("i-1", "1.2.3.4"), Record("i-2", "5.6.7.8")];
    var start := Progress(Store(map[], map[]), None);
    var p1 := AddInstance(Store(map[], map[]), insts[0], "us-east-1", settings, map[]);
    SecondRecordFiled();
    assert insts[..1] == [insts[0]] && insts[..1][..0] == [];
    assert AddInstances(start, insts[..1], "us-east-1", settings, map[]) == p1;
    assert [insts][..0] == [];
    assert AddReservations(start, [insts], "us-east-1", settings, map[]) == AddInstances(start, insts, "us-east-1", settings, map[]);
    assert settings.regions[..0] == [];
  }

  /** A cache written at time 100 with a maximum age of 300 is valid up to time 399
      and stale from time 400 on; without the index file it is never valid. */
  lemma CacheAgeBoundary()
    ensures var disk := Cache.Disk(Cache.Present(100, Cache.Whole(map[])), Cache.Missing, Cache.Present(100, Cache.Whole(map[])));
      && Cache.IsCacheValid(false, disk, 300, 399)
      && !Cache.IsCacheValid(false, disk, 300, 400)
      && !Cache.IsCacheValid(false, disk.(index := Cache.Missing), 300, 399)
      && !Cache.IsCacheValid(true, disk, 300, 399)
  {
  }
}
