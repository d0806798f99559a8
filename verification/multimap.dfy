/** The inventory's multi-map: group name -> ordered list of endpoints, and the two
    ways `Ec2Inventory` writes to it, `push` and `keep_first`
    (playbooks/ec2.py:558-569). */
module MultiMap {

  type MultiMap = map<string, seq<string>>

  /** The list stored under `key`, or the empty list when there is none. */
  function Members(m: MultiMap, key: string): seq<string>
  {
    if key in m then m[key] else []
  }

  /** `push`: append `element` to the list under `key`, creating the list if needed. */
  function Push(m: MultiMap, key: string, element: string): (r: MultiMap)
    ensures r.Keys == m.Keys + {key}
    ensures r[key] == Members(m, key) + [element]
    ensures forall k :: k in m && k != key ==> r[k] == m[k]
  {
    if key in m then m[key := m[key] + [element]] else m[key := [element]]
  }

  /** `keep_first`: create `[element]` under `key` only when `key` is absent. */
  function KeepFirst(m: MultiMap, key: string, element: string): (r: MultiMap)
    ensures r.Keys == m.Keys + {key}
    ensures key !in m ==> r[key] == [element]
    ensures forall k :: k in m ==> r[k] == m[k]
  {
    if key !in m then m[key := [element]] else m
  }

  /** `n` copies of `e`. */
  function Repeat(e: string, n: nat): (r: seq<string>)
    ensures |r| == n && forall i :: 0 <= i < n ==> r[i] == e
  {
    if n == 0 then [] else Repeat(e, n - 1) + [e]
  }

  /** How many times `k` occurs in `keys`. */
  function Count(keys: seq<string>, k: string): (n: nat)
    ensures n <= |keys|
    ensures n == 0 <==> k !in keys
    decreases |keys|
  {
    if |keys| == 0 then 0
    else
      var init := keys[..|keys| - 1];
      assert keys == init + [keys[|keys| - 1]];
      Count(init, k) + (if keys[|keys| - 1] == k then 1 else 0)
  }

  /** `push` of `element` under each of `keys`, in order. */
  function PushEach(m: MultiMap, keys: seq<string>, element: string): MultiMap
    decreases |keys|
  {
    if |keys| == 0 then m
    else Push(PushEach(m, keys[..|keys| - 1], element), keys[|keys| - 1], element)
  }

  /** One more `push` at the end of a run of pushes. */
  lemma PushEachSnoc(m: MultiMap, keys: seq<string>, key: string, element: string)
    ensures PushEach(m, keys + [key], element) == Push(PushEach(m, keys, element), key, element)
  {
    assert (keys + [key])[..|keys|] == keys;
  }

  /** The keys of a list, as a set. */
  function KeySet(keys: seq<string>): (r: set<string>)
    ensures forall k :: k in r <==> k in keys
    decreases |keys|
  {
    if |keys| == 0 then {} else KeySet(keys[..|keys| - 1]) + {keys[|keys| - 1]}
  }

  /** `push` of each of `elements`, in order, under one `key`. */
  function PushAll(m: MultiMap, key: string, elements: seq<string>): MultiMap
    decreases |elements|
  {
    if |elements| == 0 then m
    else Push(PushAll(m, key, elements[..|elements| - 1]), key, elements[|elements| - 1])
  }

  /** `keep_first` of each of `elements`, in order, under one `key`. */
  function KeepFirstAll(m: MultiMap, key: string, elements: seq<string>): MultiMap
    decreases |elements|
  {
    if |elements| == 0 then m
    else KeepFirst(KeepFirstAll(m, key, elements[..|elements| - 1]), key, elements[|elements| - 1])
  }

  /** `push` of `element` under every key of a set: the loop over a Python set, whose
      order is unspecified (`PushSetStep` shows the order does not matter). */
  function PushSet(m: MultiMap, keys: set<string>, element: string): (r: MultiMap)
    ensures r.Keys == m.Keys + keys
    ensures forall k :: k in keys ==> r[k] == Members(m, k) + [element]
    ensures forall k :: k in m && k !in keys ==> r[k] == m[k]
  {
    map k | k in m.Keys + keys :: if k in keys then Members(m, k) + [element] else m[k]
  }

  /** Each group in `groups` exists and its last endpoint is `element`. */
  ghost predicate EndsWith(m: MultiMap, groups: set<string>, element: string)
  {
    forall g :: g in groups ==> g in m && |m[g]| > 0 && m[g][|m[g]| - 1] == element
  }

  /** `m'` keeps every group of `m` and only appends to it. */
  ghost predicate Grows(m: MultiMap, m': MultiMap)
  {
    forall k :: k in m ==> k in m' && m[k] <= m'[k]
  }

  /** Every endpoint listed in any group of `m` belongs to `s`. */
  ghost predicate MembersIn(m: MultiMap, s: set<string>)
  {
    forall k, x :: k in m && x in m[k] ==> x in s
  }

  /** No group of `m` is empty. */
  ghost predicate NoEmptyGroup(m: MultiMap)
  {
    forall k :: k in m ==> |m[k]| > 0
  }

  /** Only appending, twice, is only appending. */
  lemma GrowsTrans(a: MultiMap, b: MultiMap, c: MultiMap)
    requires Grows(a, b) && Grows(b, c)
    ensures Grows(a, c)
  {
    forall k | k in a ensures k in c && a[k] <= c[k] {
      assert a[k] == b[k][..|a[k]|] && b[k] == c[k][..|b[k]|];
      assert c[k][..|b[k]|][..|a[k]|] == c[k][..|a[k]|];
    }
  }

  /** `push` called N times on one key yields exactly the N elements in call order
      after what was there; no other key changes. */
  lemma {:induction false} PushRepeated(m: MultiMap, key: string, elements: seq<string>)
    requires |elements| > 0
    ensures key in PushAll(m, key, elements)
    ensures PushAll(m, key, elements)[key] == Members(m, key) + elements
    ensures forall k :: k != key ==> (k in PushAll(m, key, elements) <==> k in m)
    ensures forall k :: k in m && k != key ==> PushAll(m, key, elements)[k] == m[k]
    decreases |elements|
  {
    var n := |elements|;
    if n > 1 {
      PushRepeated(m, key, elements[..n - 1]);
      assert elements[..n - 1] + [elements[n - 1]] == elements;
    }
  }

  /** `keep_first` called N times on one key keeps only the first call's element (or
      what was already there); no other key changes. */
  lemma {:induction false} KeepFirstRepeated(m: MultiMap, key: string, elements: seq<string>)
    requires |elements| > 0
    ensures key in KeepFirstAll(m, key, elements)
    ensures KeepFirstAll(m, key, elements)[key] == if key in m then m[key] else [elements[0]]
    ensures forall k :: k != key ==> (k in KeepFirstAll(m, key, elements) <==> k in m)
    ensures forall k :: k in m && k != key ==> KeepFirstAll(m, key, elements)[k] == m[k]
    decreases |elements|
  {
    var n := |elements|;
    if n > 1 {
      KeepFirstRepeated(m, key, elements[..n - 1]);
    }
  }

  /** One `push` or `keep_first` of `element` keeps every group and its order, keeps
      the endpoints of `groups` last, and adds no endpoint other than `element`. */
  lemma PushFacts(m: MultiMap, key: string, element: string, groups: set<string>, s: set<string>)
    ensures Grows(m, Push(m, key, element)) && Grows(m, KeepFirst(m, key, element))
    ensures EndsWith(m, groups, element) ==> EndsWith(Push(m, key, element), groups + {key}, element)
    ensures EndsWith(m, groups, element) ==> EndsWith(KeepFirst(m, key, element), groups, element)
    ensures MembersIn(m, s) && element in s ==> MembersIn(Push(m, key, element), s)
    ensures MembersIn(m, s) && element in s ==> MembersIn(KeepFirst(m, key, element), s)
    ensures NoEmptyGroup(m) ==> NoEmptyGroup(Push(m, key, element)) && NoEmptyGroup(KeepFirst(m, key, element))
  {
    var p := Push(m, key, element);
    var q := KeepFirst(m, key, element);
    assert Grows(m, p) && Grows(m, q) by {
      forall k | k in m ensures k in p && m[k] <= p[k] && k in q && m[k] <= q[k] {
        if k == key {
          assert p[k] == m[k] + [element];
        }
      }
    }
    assert EndsWith(m, groups, element) ==> EndsWith(p, groups + {key}, element) && EndsWith(q, groups, element) by {
      if EndsWith(m, groups, element) {
        forall g | g in groups + {key} ensures g in p && |p[g]| > 0 && p[g][|p[g]| - 1] == element {
          if g != key {
            assert p[g] == m[g];
          }
        }
      }
    }
    assert MembersIn(m, s) && element in s ==> MembersIn(p, s) && MembersIn(q, s) by {
      if MembersIn(m, s) && element in s {
        forall k, x | k in p && x in p[k] ensures x in s {
          if k == key && k in m {
            assert p[k] == m[k] + [element];
          }
        }
      }
    }
    assert NoEmptyGroup(m) ==> NoEmptyGroup(p) && NoEmptyGroup(q);
  }

  /** What `PushEach` does: it only appends; every key it pushed ends with `element`;
      keys it did not push are untouched. */
  lemma {:induction false} PushEachFacts(m: MultiMap, keys: seq<string>, element: string, groups: set<string>, s: set<string>)
    ensures Grows(m, PushEach(m, keys, element))
    ensures forall k :: k !in keys ==> (k in PushEach(m, keys, element) <==> k in m)
    ensures forall k :: k in m && k !in keys ==> PushEach(m, keys, element)[k] == m[k]
    ensures EndsWith(m, groups, element) ==> EndsWith(PushEach(m, keys, element), groups + KeySet(keys), element)
    ensures MembersIn(m, s) && element in s ==> MembersIn(PushEach(m, keys, element), s)
    ensures NoEmptyGroup(m) ==> NoEmptyGroup(PushEach(m, keys, element))
    decreases |keys|
  {
    var n := |keys|;
    if n > 0 {
      var before := PushEach(m, keys[..n - 1], element);
      PushEachFacts(m, keys[..n - 1], element, groups, s);
      PushFacts(before, keys[n - 1], element, groups + KeySet(keys[..n - 1]), s);
    }
  }

  /** One `push`, seen from any key. */
  lemma MembersPush(m: MultiMap, key: string, element: string, k: string)
    ensures Members(Push(m, key, element), k) == Members(m, k) + (if k == key then [element] else [])
  {
  }

  /** A `keep_first` on another key, seen from `k`. */
  lemma MembersKeepFirst(m: MultiMap, key: string, element: string, k: string)
    requires k != key
    ensures Members(KeepFirst(m, key, element), k) == Members(m, k)
  {
  }

  /** The closed form of `PushEach`: each key's list gains one copy of `element` per
      occurrence of the key in `keys`, after what it held; no other list changes. */
  lemma {:induction false} PushEachContents(m: MultiMap, keys: seq<string>, element: string, k: string)
    ensures Members(PushEach(m, keys, element), k) == Members(m, k) + Repeat(element, Count(keys, k))
    decreases |keys|
  {
    var n := |keys|;
    if n > 0 {
      var init, last := keys[..n - 1], keys[n - 1];
      var before := PushEach(m, init, element);
      var step := if last == k then [element] else [];
      var c := Count(init, k);
      assert Members(PushEach(m, keys, element), k) == Members(before, k) + step by {
        assert PushEach(m, keys, element) == Push(before, last, element);
        MembersPush(before, last, element, k);
      }
      assert Members(before, k) == Members(m, k) + Repeat(element, c) by {
        PushEachContents(m, init, element, k);
      }
      assert Repeat(element, c) + step == Repeat(element, Count(keys, k)) by {
        assert Count(keys, k) == c + |step|;
        if last == k {
          assert Repeat(element, c + 1) == Repeat(element, c) + [element];
        }
      }
    }
  }

  /** One more key at the end of a list. */
  lemma CountSnoc(keys: seq<string>, key: string, k: string)
    ensures Count(keys + [key], k) == Count(keys, k) + (if key == k then 1 else 0)
  {
    assert (keys + [key])[..|keys|] == keys;
  }

  /** Two runs of pushes count the occurrences in both. */
  lemma {:induction false} CountAppend(a: seq<string>, b: seq<string>, k: string)
    ensures Count(a + b, k) == Count(a, k) + Count(b, k)
    decreases |b|
  {
    if |b| > 0 {
      var n := |b|;
      assert (a + b)[..|a + b| - 1] == a + b[..n - 1];
      assert (a + b)[|a + b| - 1] == b[n - 1];
      CountAppend(a, b[..n - 1], k);
    } else {
      assert a + b == a;
    }
  }

  /** Copies of one element concatenate. */
  lemma {:induction false} RepeatAppend(e: string, i: nat, j: nat)
    ensures Repeat(e, i) + Repeat(e, j) == Repeat(e, i + j)
    decreases j
  {
    if j > 0 {
      RepeatAppend(e, i, j - 1);
      assert Repeat(e, i) + Repeat(e, j) == Repeat(e, i) + Repeat(e, j - 1) + [e];
    }
  }

  /** Concatenation regroups. */
  lemma AppendAssoc(a: seq<string>, b: seq<string>, c: seq<string>)
    ensures a + b + c == a + (b + c)
    ensures a + [] == a
  {
  }

  /** The copies for two runs of keys are the copies for the two runs together. */
  lemma RepeatCountAppend(e: string, a: seq<string>, b: seq<string>, k: string)
    ensures Repeat(e, Count(a, k)) + Repeat(e, Count(b, k)) == Repeat(e, Count(a + b, k))
  {
    CountAppend(a, b, k);
    RepeatAppend(e, Count(a, k), Count(b, k));
  }

  /** The copies for one more key at the end of a run. */
  lemma RepeatCountSnoc(e: string, keys: seq<string>, key: string, k: string)
    ensures Repeat(e, Count(keys, k)) + (if key == k then [e] else []) == Repeat(e, Count(keys + [key], k))
  {
    CountSnoc(keys, key, k);
  }

  /** The same, for the order-free `PushSet`. */
  lemma PushSetFacts(m: MultiMap, keys: set<string>, element: string, groups: set<string>, s: set<string>)
    ensures Grows(m, PushSet(m, keys, element))
    ensures EndsWith(m, groups, element) ==> EndsWith(PushSet(m, keys, element), groups + keys, element)
    ensures MembersIn(m, s) && element in s ==> MembersIn(PushSet(m, keys, element), s)
    ensures NoEmptyGroup(m) ==> NoEmptyGroup(PushSet(m, keys, element))
  {
    var p := PushSet(m, keys, element);
    if MembersIn(m, s) && element in s {
      forall k, x | k in p && x in p[k] ensures x in s {
        if k in keys && k in m {
          assert p[k] == m[k] + [element];
        }
      }
    }
  }

  /** Pushing the keys of a set one at a time, in any order, builds `PushSet`. */
  lemma PushSetStep(m: MultiMap, done: set<string>, key: string, element: string)
    requires key !in done
    ensures PushSet(m, done + {key}, element) == Push(PushSet(m, done, element), key, element)
  {
    var a := PushSet(m, done + {key}, element);
    var b := Push(PushSet(m, done, element), key, element);
    assert a.Keys == b.Keys;
    forall k | k in a.Keys ensures a[k] == b[k] {
    }
  }
}
