/** The cache files: what `json_format_dict` renders, what `write_to_cache` stores,
    how `is_cache_valid` judges the files, and how the index and the inventory are read
    back (playbooks/ec2.py:167-182, 571-598, 608-616). The disk is a value: each file is
    missing or present with its modification time and its rendered content. */
module Cache {
  import opened Strings
  import opened GroupNames
  import opened MultiMap
  import opened Records
  import Grouping

  datatype File<T> = Missing | Present(mtime: int, content: T)

  /** What `json_format_dict` produces: the whole dictionary, or under `--tags-only` the
      list of its keys that contain `tag_` (the order of that list is not modelled). */
  datatype Rendered<V> = Whole(data: map<string, V>) | TagKeys(keys: set<string>)

  /** The three cache files: the inventory, its tags-only projection, and the index. */
  datatype Disk = Disk(
    cache: File<Rendered<seq<string>>>,
    tags: File<Rendered<seq<string>>>,
    index: File<Rendered<IndexEntry>>)

  /** The keys of `data` that contain `tag_` somewhere. */
  function TagKeysOf<V>(data: map<string, V>): (r: set<string>)
    ensures forall k :: k in r <==> k in data && exists i :: OccursAt(k, "tag_", i)
  {
    set k | k in data.Keys && Contains(k, "tag_")
  }

  /** `json_format_dict(data, True)`, without the JSON text. */
  function JsonFormatDict<V>(tagsOnly: bool, data: map<string, V>): (r: Rendered<V>)
    ensures !tagsOnly ==> r == Whole(data)
    ensures tagsOnly ==> r.TagKeys? && forall k :: k in r.keys <==> k in data && Contains(k, "tag_")
  {
    if tagsOnly then TagKeys(TagKeysOf(data)) else Whole(data)
  }

  /** The inventory file `is_cache_valid` and `get_inventory_from_cache` use. */
  function InventoryFile(tagsOnly: bool, disk: Disk): File<Rendered<seq<string>>>
  {
    if tagsOnly then disk.tags else disk.cache
  }

  /** `is_cache_valid`, with the clock reading `now` as a parameter. */
  function IsCacheValid(tagsOnly: bool, disk: Disk, maxAge: int, now: int): (r: bool)
    ensures r <==> && InventoryFile(tagsOnly, disk).Present?
                   && InventoryFile(tagsOnly, disk).mtime + maxAge > now
                   && disk.index.Present?
  {
    var toCheck := InventoryFile(tagsOnly, disk);
    if toCheck.Present? then
      if toCheck.mtime + maxAge > now then
        if disk.index.Present? then true else false
      else false
    else false
  }

  /** The end of `do_api_calls_update_cache` as the code writes it: the inventory goes
      to the file `--tags-only` selects, and the index goes through `json_format_dict`
      as well, so under `--tags-only` only its keys containing `tag_` are stored. */
  function WriteCacheAsWritten(disk: Disk, tagsOnly: bool, inventory: MultiMap, index: map<string, IndexEntry>, now: int): (d: Disk)
    ensures d.index == Present(now, JsonFormatDict(tagsOnly, index))
  {
    var inv := Present(now, JsonFormatDict(tagsOnly, inventory));
    var written := if tagsOnly then disk.(tags := inv) else disk.(cache := inv);
    written.(index := Present(now, JsonFormatDict(tagsOnly, index)))
  }

  /** The end of `do_api_calls_update_cache` as intended: the inventory goes to the file
      `--tags-only` selects, rendered by `json_format_dict`, and the index is stored
      whole, so that `load_index_from_cache` can read it back. */
  function WriteCache(disk: Disk, tagsOnly: bool, inventory: MultiMap, index: map<string, IndexEntry>, now: int): (d: Disk)
    ensures InventoryFile(tagsOnly, d) == Present(now, JsonFormatDict(tagsOnly, inventory))
    ensures InventoryFile(!tagsOnly, d) == InventoryFile(!tagsOnly, disk)
    ensures d.index == Present(now, Whole(index))
  {
    var inv := Present(now, JsonFormatDict(tagsOnly, inventory));
    var written := if tagsOnly then disk.(tags := inv) else disk.(cache := inv);
    written.(index := Present(now, Whole(index)))
  }

  /** `load_index_from_cache`: the dictionary the index file holds. A missing file stops
      the run; so, in this model, does a file holding the list a `--tags-only` run
      writes. */
  function LoadIndex(disk: Disk): (r: Result<map<string, IndexEntry>>)
    ensures r.Ok? <==> disk.index.Present? && disk.index.content.Whole?
    ensures r.Ok? ==> r.value == disk.index.content.data
    ensures r.Err? ==> r.fault == IndexUnreadable
  {
    match disk.index
    case Missing => Err(IndexUnreadable)
    case Present(_, Whole(m)) => Ok(m)
    case Present(_, TagKeys(_)) => Err(IndexUnreadable)
  }

  /** `get_inventory_from_cache`: the stored rendering of the selected file, verbatim. */
  function ReadInventory(tagsOnly: bool, disk: Disk): (r: Result<Rendered<seq<string>>>)
    ensures InventoryFile(tagsOnly, disk).Missing? <==> r == Err(CacheUnreadable)
    ensures InventoryFile(tagsOnly, disk).Present? ==> r == Ok(InventoryFile(tagsOnly, disk).content)
  {
    match InventoryFile(tagsOnly, disk)
    case Missing => Err(CacheUnreadable)
    case Present(_, content) => Ok(content)
  }

  /** Written caches are fresh: right after a write, `is_cache_valid` holds for any
      positive maximum age, and the index reads back exactly as it was written. */
  lemma WriteCacheRoundTrip(disk: Disk, tagsOnly: bool, inventory: MultiMap, index: map<string, IndexEntry>, now: int, maxAge: int)
    requires maxAge > 0
    ensures var d := WriteCache(disk, tagsOnly, inventory, index, now);
      && IsCacheValid(tagsOnly, d, maxAge, now)
      && LoadIndex(d) == Ok(index)
      && ReadInventory(tagsOnly, d) == Ok(JsonFormatDict(tagsOnly, inventory))
  {
  }

  /** Deleting the index file alone makes the cache invalid, however fresh the
      inventory file is. */
  lemma MissingIndexInvalidates(disk: Disk, tagsOnly: bool, maxAge: int, now: int)
    ensures !IsCacheValid(tagsOnly, disk.(index := Missing), maxAge, now)
  {
  }

  /** Under `--tags-only` the index written as the code writes it never reads back: the
      stored value is a list of keys, and every endpoint that does not contain `tag_`
      (every IP address or DNS name) is lost. */
  lemma IndexLostUnderTagsOnly(disk: Disk, inventory: MultiMap, index: map<string, IndexEntry>, now: int)
    ensures var d := WriteCacheAsWritten(disk, true, inventory, index, now);
      && LoadIndex(d) == Err(IndexUnreadable)
      && (forall dest :: dest in index && !Contains(dest, "tag_") ==> dest !in d.index.content.keys)
  {
  }

  /** The same, on one concrete index: `{"1.2.3.4": ["us-east-1", "i-1"]}` is stored as
      an empty list. */
  lemma IndexLostExample(disk: Disk, inventory: MultiMap, now: int)
    ensures WriteCacheAsWritten(disk, true, inventory, map["1.2.3.4" := IndexEntry("us-east-1", "i-1")], now).index
            == Present(now, TagKeys({}))
  {
    var index := map["1.2.3.4" := IndexEntry("us-east-1", "i-1")];
    var dest := "1.2.3.4";
    forall i ensures !OccursAt(dest, "tag_", i) {
      if 0 <= i && i + 4 <= |dest| {
        assert dest[i..i + 4][0] == dest[i] != 't';
      }
    }
    assert TagKeysOf(index) == {};
  }

  /** `tag_` occurs in a sanitised name that starts with it. */
  lemma TagPrefixOccurs(rest: string)
    ensures Contains(ToSafe("tag_" + rest), "tag_")
    ensures Contains("first_in_" + ToSafe("tag_" + rest), "tag_")
  {
    ToSafePrefix("tag_", rest);
    var g := ToSafe("tag_" + rest);
    assert OccursAt(g, "tag_", 0);
    assert ("first_in_" + g)[9..13] == "tag_";
    assert OccursAt("first_in_" + g, "tag_", 9);
  }

  /** The tags-only projection keeps every tag group and every `first_in_` group. */
  lemma TagsOnlyKeepsTagGroups(inventory: MultiMap, t: (string, string))
    ensures Grouping.TagGroup(t) in inventory ==> Grouping.TagGroup(t) in JsonFormatDict(true, inventory).keys
    ensures Grouping.FirstInGroup(t) in inventory ==> Grouping.FirstInGroup(t) in JsonFormatDict(true, inventory).keys
  {
    assert "tag_" + t.0 + "=" + t.1 == "tag_" + (t.0 + "=" + t.1);
    TagPrefixOccurs(t.0 + "=" + t.1);
  }
}
