/** Host details: the instance `get_instance` fetches again by region and id, and how
    `get_host_info` flattens its attributes into `ec2_` variables
    (playbooks/ec2.py:327-343, 505-555). */
module HostVars {
  import opened Strings
  import opened GroupNames
  import opened Records
  import Cache

  /** The values a host variable can take. */
  datatype HostValue = IntVar(i: int) | BoolVar(b: bool) | StrVar(s: string)

  type Vars = map<string, HostValue>

  /** The variable a tag is stored under: `ec2_tag_<key>`, sanitised. */
  function TagVarName(tag: (string, string)): string
  {
    ToSafe("ec2_tag_" + tag.0)
  }

  /** The tag loop of the flatten: each tag becomes `ec2_tag_<key>` (sanitised) holding
      the tag value as it is; the last tag wins when two keys sanitise alike. */
  function TagVars(vars: Vars, tags: seq<(string, string)>): (r: Vars)
    ensures forall i :: 0 <= i < |tags| ==> TagVarName(tags[i]) in r
    ensures forall k :: k in vars ==> k in r
    ensures |tags| > 0 ==> r[TagVarName(tags[|tags| - 1])] == StrVar(tags[|tags| - 1].1)
    decreases |tags|
  {
    if |tags| == 0 then vars
    else
      var t := tags[|tags| - 1];
      assert forall i :: 0 <= i < |tags| - 1 ==> tags[..|tags| - 1][i] == tags[i];
      TagVars(vars, tags[..|tags| - 1])[TagVarName(t) := StrVar(t.1)]
  }

  function SecurityGroupIds(gs: seq<SecurityGroup>): (r: seq<string>)
    ensures |r| == |gs| && forall i :: 0 <= i < |gs| ==> r[i] == gs[i].id
    decreases |gs|
  {
    if |gs| == 0 then [] else SecurityGroupIds(gs[..|gs| - 1]) + [gs[|gs| - 1].id]
  }

  function SecurityGroupNames(gs: seq<SecurityGroup>): (r: seq<string>)
    ensures |r| == |gs| && forall i :: 0 <= i < |gs| ==> r[i] == gs[i].name
    decreases |gs|
  {
    if |gs| == 0 then [] else SecurityGroupNames(gs[..|gs| - 1]) + [gs[|gs| - 1].name]
  }

  /** The security groups as two comma-joined lists, ids and names; every other
      variable stays as it was. */
  function GroupVars(vars: Vars, gs: seq<SecurityGroup>): (r: Vars)
    ensures r.Keys == vars.Keys + {"ec2_security_group_ids", "ec2_security_group_names"}
    ensures forall k :: k in vars && k != "ec2_security_group_ids" && k != "ec2_security_group_names" ==> r[k] == vars[k]
    ensures r["ec2_security_group_ids"].StrVar? && r["ec2_security_group_names"].StrVar?
    ensures |gs| > 0 && (forall i :: 0 <= i < |gs| ==> ',' !in gs[i].id && ',' !in gs[i].name) ==>
              && Split(r["ec2_security_group_ids"].s, ',') == SecurityGroupIds(gs)
              && Split(r["ec2_security_group_names"].s, ',') == SecurityGroupNames(gs)
  {
    assert |"ec2_security_group_ids"| != |"ec2_security_group_names"|;
    var r := vars["ec2_security_group_ids" := StrVar(Join(SecurityGroupIds(gs), ','))]
                 ["ec2_security_group_names" := StrVar(Join(SecurityGroupNames(gs), ','))];
    if |gs| > 0 && (forall i :: 0 <= i < |gs| ==> ',' !in gs[i].id && ',' !in gs[i].name) then
      GroupListsSplit(gs); r
    else r
  }

  /** The values the flatten drops: a region, tags or security groups under a name other
      than their own, and every type it does not handle. */
  predicate Dropped(key: string, value: AttrValue)
  {
    || value.Other?
    || (value.Region? && key != "ec2_region")
    || (value.Tags? && key != "ec2_tags")
    || (value.Groups? && key != "ec2_groups")
  }

  /** One step of the flatten, for the attribute `name` holding `value`: integers and
      booleans pass through, strings are stripped, `None` becomes "", the region (under
      `ec2_region`) becomes its name, the tags (under `ec2_tags`) become one variable per
      tag, the security groups (under `ec2_groups`) become two comma-joined lists; any
      other value is dropped. No variable is ever removed. */
  function FlattenAttribute(vars: Vars, name: string, value: AttrValue): (r: Vars)
    ensures vars.Keys <= r.Keys
    ensures Dropped(ToSafe("ec2_" + name), value) ==> r == vars
    ensures var key := ToSafe("ec2_" + name);
      && (value.Str? ==> key in r && r[key] == StrVar(Strip(value.s)))
      && (value.Null? ==> key in r && r[key] == StrVar(""))
      && (value.Int? ==> key in r && r[key] == IntVar(value.i))
      && (value.Bool? ==> key in r && r[key] == BoolVar(value.b))
      && (value.Region? && key == "ec2_region" ==> key in r && r[key] == StrVar(value.name))
    ensures value.Tags? && ToSafe("ec2_" + name) == "ec2_tags" ==> r == TagVars(vars, value.tags)
    ensures value.Groups? && ToSafe("ec2_" + name) == "ec2_groups" ==> r == GroupVars(vars, value.groups)
  {
    var key := ToSafe("ec2_" + name);
    match value
    case Int(i) => vars[key := IntVar(i)]
    case Bool(b) => vars[key := BoolVar(b)]
    case Str(s) => vars[key := StrVar(Strip(s))]
    case Null => vars[key := StrVar("")]
    case Region(n) => if key == "ec2_region" then vars[key := StrVar(n)] else vars
    case Tags(tags) => if key == "ec2_tags" then TagVars(vars, tags) else vars
    case Groups(gs) =>
      if key == "ec2_groups" then GroupVars(vars, gs) else vars
    case Other => vars
  }

  /** A step that stores one value, rather than the tags or the security groups, leaves
      every other variable as it was. */
  lemma FlattenAttributeFrame(vars: Vars, name: string, value: AttrValue, k: string)
    requires !value.Tags? && !value.Groups?
    requires k in vars && k != ToSafe("ec2_" + name)
    ensures k in FlattenAttribute(vars, name, value) && FlattenAttribute(vars, name, value)[k] == vars[k]
  {
  }

  /** The flatten of an attribute list, in iteration order, from `vars`. */
  function FlattenFrom(vars: Vars, attrs: seq<(string, AttrValue)>): Vars
    decreases |attrs|
  {
    if |attrs| == 0 then vars
    else
      var a := attrs[|attrs| - 1];
      FlattenAttribute(FlattenFrom(vars, attrs[..|attrs| - 1]), a.0, a.1)
  }

  /** The variables `get_host_info` builds for an instance: all named `ec2_...` over
      `[A-Za-z0-9_-]`. */
  function Flatten(attrs: seq<(string, AttrValue)>): (r: Vars)
    ensures forall k :: k in r ==> IsVariableName(k)
  {
    FlattenNames(attrs);
    FlattenFrom(map[], attrs)
  }

  /** The attribute loop of `get_host_info`. */
  method InstanceVariables(attrs: seq<(string, AttrValue)>) returns (vars: Vars)
    ensures vars == Flatten(attrs)
  {
    vars := map[];
    var i := 0;
    while i < |attrs|
      invariant 0 <= i <= |attrs|
      invariant vars == FlattenFrom(map[], attrs[..i])
    {
      var name := attrs[i].0;
      var value := attrs[i].1;
      var key := ToSafe("ec2_" + name);
      assert attrs[..i + 1][..i] == attrs[..i];
      match value {
        case Int(n) => vars := vars[key := IntVar(n)];
        case Bool(b) => vars := vars[key := BoolVar(b)];
        case Str(s) => vars := vars[key := StrVar(Strip(s))];
        case Null => vars := vars[key := StrVar("")];
        case Region(n) =>
          if key == "ec2_region" {
            vars := vars[key := StrVar(n)];
          }
        case Tags(tags) =>
          if key == "ec2_tags" {
            vars := TagVariables(vars, tags);
          }
        case Groups(gs) =>
          if key == "ec2_groups" {
            vars := GroupVariables(vars, gs);
          }
        case Other =>
      }
      i := i + 1;
    }
    assert attrs[..i] == attrs;
  }

  /** The tag loop of `get_host_info`: one `ec2_tag_` variable per tag, in order. */
  method TagVariables(vars: Vars, tags: seq<(string, string)>) returns (r: Vars)
    ensures r == TagVars(vars, tags)
  {
    r := vars;
    var j := 0;
    while j < |tags|
      invariant 0 <= j <= |tags|
      invariant r == TagVars(vars, tags[..j])
    {
      assert tags[..j + 1][..j] == tags[..j];
      r := r[ToSafe("ec2_tag_" + tags[j].0) := StrVar(tags[j].1)];
      j := j + 1;
    }
    assert tags[..j] == tags;
  }

  /** The security-group loop of `get_host_info`: the ids and the names collected in
      order, then stored comma-joined. */
  method GroupVariables(vars: Vars, gs: seq<SecurityGroup>) returns (r: Vars)
    ensures r == GroupVars(vars, gs)
  {
    var ids: seq<string> := [];
    var names: seq<string> := [];
    var j := 0;
    while j < |gs|
      invariant 0 <= j <= |gs|
      invariant ids == SecurityGroupIds(gs[..j]) && names == SecurityGroupNames(gs[..j])
    {
      assert gs[..j + 1][..j] == gs[..j];
      ids := ids + [gs[j].id];
      names := names + [gs[j].name];
      j := j + 1;
    }
    assert gs[..j] == gs;
    r := vars["ec2_security_group_ids" := StrVar(Join(ids, ','))];
    r := r["ec2_security_group_names" := StrVar(Join(names, ','))];
  }

  /** The name starts with `ec2_`. */
  predicate HasEc2Prefix(k: string)
  {
    |k| >= 4 && k[..4] == "ec2_"
  }

  /** A host variable name: `ec2_` followed by characters of `[A-Za-z0-9_-]`. */
  predicate IsVariableName(k: string)
  {
    HasEc2Prefix(k) && IsGroupName(k)
  }

  /** Sanitising keeps an `ec2_` prefix and yields a variable name. */
  lemma Ec2KeyIsVariableName(prefix: string, rest: string)
    requires IsGroupName(prefix) && HasEc2Prefix(prefix)
    ensures IsVariableName(ToSafe(prefix + rest))
  {
    ToSafePrefix(prefix, rest);
    ToSafeAlphabet(prefix + rest);
    assert (prefix + ToSafe(rest))[..4] == prefix[..4];
  }

  lemma {:induction false} TagVarsNames(vars: Vars, tags: seq<(string, string)>)
    requires forall k :: k in vars ==> IsVariableName(k)
    ensures forall k :: k in TagVars(vars, tags) ==> IsVariableName(k)
    decreases |tags|
  {
    if |tags| > 0 {
      TagVarsNames(vars, tags[..|tags| - 1]);
      Ec2KeyIsVariableName("ec2_tag_", tags[|tags| - 1].0);
    }
  }

  /** Each tag's value is what its variable holds, unless a later tag's key sanitises to
      the same name. */
  lemma {:induction false} TagVarsValue(vars: Vars, tags: seq<(string, string)>, i: int)
    requires 0 <= i < |tags|
    requires forall j :: i < j < |tags| ==> TagVarName(tags[j]) != TagVarName(tags[i])
    ensures TagVars(vars, tags)[TagVarName(tags[i])] == StrVar(tags[i].1)
    decreases |tags|
  {
    var n := |tags|;
    if i < n - 1 {
      var init := tags[..n - 1];
      assert init[i] == tags[i];
      assert forall j :: i < j < |init| ==> init[j] == tags[j];
      TagVarsValue(vars, init, i);
    }
  }

  /** The tag loop writes only the tags' own variables: every variable no tag names keeps
      its value, and every variable it adds is some tag's `ec2_tag_` name. */
  lemma {:induction false} TagVarsFrame(vars: Vars, tags: seq<(string, string)>)
    ensures forall k :: k in vars && (forall i :: 0 <= i < |tags| ==> TagVarName(tags[i]) != k) ==>
              TagVars(vars, tags)[k] == vars[k]
    ensures forall k :: k in TagVars(vars, tags) ==>
              k in vars || exists i :: 0 <= i < |tags| && TagVarName(tags[i]) == k
    decreases |tags|
  {
    var n := |tags|;
    if n > 0 {
      var init := tags[..n - 1];
      TagVarsFrame(vars, init);
      assert forall i :: 0 <= i < |init| ==> init[i] == tags[i];
      var r := TagVars(vars, tags);
      forall k | k in vars && (forall i :: 0 <= i < n ==> TagVarName(tags[i]) != k)
        ensures r[k] == vars[k]
      {
        assert TagVarName(tags[n - 1]) != k;
      }
      forall k | k in r
        ensures k in vars || exists i :: 0 <= i < n && TagVarName(tags[i]) == k
      {
        if k != TagVarName(tags[n - 1]) {
          assert k in TagVars(vars, init);
        }
      }
    }
  }

  /** One flatten step names its variables `ec2_...` over `[A-Za-z0-9_-]`. */
  lemma FlattenAttributeNames(vars: Vars, name: string, value: AttrValue)
    requires forall k :: k in vars ==> IsVariableName(k)
    ensures forall k :: k in FlattenAttribute(vars, name, value) ==> IsVariableName(k)
  {
    match value
    case Tags(tags) => TagsStepNames(vars, name, tags);
    case Groups(gs) => GroupsStepNames(vars, name, gs);
    case _ => ValueStepNames(vars, name, value);
  }

  lemma TagsStepNames(vars: Vars, name: string, tags: seq<(string, string)>)
    requires forall k :: k in vars ==> IsVariableName(k)
    ensures forall k :: k in FlattenAttribute(vars, name, Tags(tags)) ==> IsVariableName(k)
  {
    if ToSafe("ec2_" + name) == "ec2_tags" {
      TagVarsNames(vars, tags);
    }
  }

  lemma GroupsStepNames(vars: Vars, name: string, gs: seq<SecurityGroup>)
    requires forall k :: k in vars ==> IsVariableName(k)
    ensures forall k :: k in FlattenAttribute(vars, name, Groups(gs)) ==> IsVariableName(k)
  {
    if ToSafe("ec2_" + name) == "ec2_groups" {
      SecurityGroupVarNames();
      assert FlattenAttribute(vars, name, Groups(gs)).Keys == vars.Keys + {"ec2_security_group_ids", "ec2_security_group_names"};
    }
  }

  lemma SecurityGroupVarNames()
    ensures IsVariableName("ec2_security_group_ids") && IsVariableName("ec2_security_group_names")
  {
  }

  lemma ValueStepNames(vars: Vars, name: string, value: AttrValue)
    requires forall k :: k in vars ==> IsVariableName(k)
    requires !value.Tags? && !value.Groups?
    ensures forall k :: k in FlattenAttribute(vars, name, value) ==> IsVariableName(k)
  {
    Ec2KeyIsVariableName("ec2_", name);
  }

  /** Every variable the flatten produces is named `ec2_...` over `[A-Za-z0-9_-]`. */
  lemma {:induction false} FlattenNames(attrs: seq<(string, AttrValue)>)
    ensures forall k :: k in FlattenFrom(map[], attrs) ==> IsVariableName(k)
    decreases |attrs|
  {
    if |attrs| > 0 {
      var a := attrs[|attrs| - 1];
      FlattenNames(attrs[..|attrs| - 1]);
      FlattenAttributeNames(FlattenFrom(map[], attrs[..|attrs| - 1]), a.0, a.1);
    }
  }

  lemma GroupsKey()
    ensures ToSafe("ec2_" + "groups") == "ec2_groups"
  {
    var key := "ec2_" + "groups";
    assert key == "ec2_groups";
    assert IsGroupName(key);
    ToSafeFixedPoints(key);
  }

  /** The security groups are stored as two comma-joined lists, ids and names. */
  lemma GroupsStored(vars: Vars, gs: seq<SecurityGroup>)
    ensures var v := FlattenAttribute(vars, "groups", Groups(gs));
      && "ec2_security_group_ids" in v && "ec2_security_group_names" in v
      && v["ec2_security_group_ids"] == StrVar(Join(SecurityGroupIds(gs), ','))
      && v["ec2_security_group_names"] == StrVar(Join(SecurityGroupNames(gs), ','))
  {
    GroupsKey();
    assert |"ec2_security_group_ids"| != |"ec2_security_group_names"|;
  }

  /** The comma-joined ids and names split back into the lists, when there is at least
      one group and no id or name contains a comma. */
  lemma GroupListsSplit(gs: seq<SecurityGroup>)
    requires |gs| > 0
    requires forall i :: 0 <= i < |gs| ==> ',' !in gs[i].id && ',' !in gs[i].name
    ensures Split(Join(SecurityGroupIds(gs), ','), ',') == SecurityGroupIds(gs)
    ensures Split(Join(SecurityGroupNames(gs), ','), ',') == SecurityGroupNames(gs)
  {
    var ids, names := SecurityGroupIds(gs), SecurityGroupNames(gs);
    assert forall i :: 0 <= i < |ids| ==> ',' !in ids[i];
    assert forall i :: 0 <= i < |names| ==> ',' !in names[i];
    SplitJoin(ids, ',');
    SplitJoin(names, ',');
  }

  /** The comma-joined security groups split back into the ids and the names, in order,
      when there is at least one group and no id or name contains a comma. */
  lemma GroupsRoundTrip(vars: Vars, gs: seq<SecurityGroup>)
    requires |gs| > 0
    requires forall i :: 0 <= i < |gs| ==> ',' !in gs[i].id && ',' !in gs[i].name
    ensures var v := FlattenAttribute(vars, "groups", Groups(gs));
      && "ec2_security_group_ids" in v && "ec2_security_group_names" in v
      && v["ec2_security_group_ids"].StrVar? && v["ec2_security_group_names"].StrVar?
      && Split(v["ec2_security_group_ids"].s, ',') == SecurityGroupIds(gs)
      && Split(v["ec2_security_group_names"].s, ',') == SecurityGroupNames(gs)
  {
    GroupsStored(vars, gs);
    GroupListsSplit(gs);
  }

  /** The first instance with identifier `id` in the first reservation that has one:
      what `get_all_instances([id])` followed by "first instance of the first
      reservation" yields. */
  function FindInstance(rs: seq<seq<Instance>>, id: string): (r: Option<Instance>)
    ensures r.Some? ==> r.value.id == id && exists k, j :: 0 <= k < |rs| && 0 <= j < |rs[k]| && rs[k][j] == r.value
    ensures r.None? ==> forall k, j :: 0 <= k < |rs| && 0 <= j < |rs[k]| ==> rs[k][j].id != id
    decreases |rs|
  {
    if |rs| == 0 then None
    else
      match FindIn(rs[0], id)
      case Some(inst) => Some(inst)
      case None =>
        var r := FindInstance(rs[1..], id);
        assert forall k :: 1 <= k < |rs| ==> rs[1..][k - 1] == rs[k];
        r
  }

  /** The first instance with identifier `id` in one reservation. */
  function FindIn(insts: seq<Instance>, id: string): (r: Option<Instance>)
    ensures r.Some? ==> r.value.id == id && r.value in insts
    ensures r.None? ==> forall j :: 0 <= j < |insts| ==> insts[j].id != id
    decreases |insts|
  {
    if |insts| == 0 then None
    else if insts[0].id == id then Some(insts[0])
    else
      var r := FindIn(insts[1..], id);
      assert forall j :: 1 <= j < |insts| ==> insts[1..][j - 1] == insts[j];
      r
  }

  /** `get_instance(region, id)`: a region EC2 cannot connect to stops the run; so does
      an id no reservation holds (the code then flattens `None` and fails). */
  function LookupInstance(provider: Provider, entry: IndexEntry): (r: Result<Instance>)
    ensures r.Ok? ==> entry.region in provider.ec2 && r.value.id == entry.id
    ensures entry.region !in provider.ec2 ==> r == Err(RegionUnsupported(entry.region))
    ensures entry.region in provider.ec2 ==>
              var rs: seq<seq<Instance>> := provider.ec2[entry.region];
              && (r.Ok? <==> exists k, j :: 0 <= k < |rs| && 0 <= j < |rs[k]| && rs[k][j].id == entry.id)
              && (r.Ok? ==> FindInstance(rs, entry.id) == Some(r.value))
              && (r.Err? ==> r == Err(HostRecordMissing))
  {
    if entry.region !in provider.ec2 then Err(RegionUnsupported(entry.region))
    else
      match FindInstance(provider.ec2[entry.region], entry.id)
      case None => Err(HostRecordMissing)
      case Some(inst) => Ok(inst)
  }

  /** The answer of `get_host_info` once the index is settled: an empty dictionary for a
      host the index does not know, the flattened variables of its instance otherwise. */
  function HostDetails(index: map<string, IndexEntry>, host: string, tagsOnly: bool, provider: Provider): (r: Result<Cache.Rendered<HostValue>>)
    ensures host !in index ==> r == Ok(Cache.JsonFormatDict(tagsOnly, map[]))
    ensures host in index && LookupInstance(provider, index[host]).Ok? ==>
              r == Ok(Cache.JsonFormatDict(tagsOnly, Flatten(LookupInstance(provider, index[host]).value.attributes)))
    ensures host in index && LookupInstance(provider, index[host]).Err? ==>
              r == Err(LookupInstance(provider, index[host]).fault)
  {
    if host !in index then Ok(Cache.JsonFormatDict(tagsOnly, map[]))
    else
      match LookupInstance(provider, index[host])
      case Err(f) => Err(f)
      case Ok(inst) => Ok(Cache.JsonFormatDict(tagsOnly, Flatten(inst.attributes)))
  }

  /** The index `get_host_info` looks the host up in first: the one in memory, or the
      cached one when the one in memory is empty. */
  function SettledIndex(index: map<string, IndexEntry>, disk: Cache.Disk): (r: Result<map<string, IndexEntry>>)
    ensures index != map[] ==> r == Ok(index)
    ensures r.Err? ==> index == map[] && r.fault == IndexUnreadable
    ensures index == map[] && disk.index.Present? && disk.index.content.Whole? ==> r == Ok(disk.index.content.data)
  {
    if index == map[] then Cache.LoadIndex(disk) else Ok(index)
  }
}
