/** The batch fetcher of the asynchronous client (tmdb/api.py): slicing a
    request list into batches, one batch as a gathered wave of requests split
    into records and not-fetched markers, the last-value-wins deduplication
    by `id`, and the by-id pipeline built from them.

    `asyncio.gather` returns its results in task order, so a wave is the
    sequential map `FetchAll` over its requests. */
module Batching {
  import opened Wrappers
  import opened Values
  import opened Text
  import opened Transport

  // ------------------------------------------------------------- batches

  function Min(a: int, b: int): int { if a <= b then a else b }

  /** `[xs[i : i + size] for i in range(0, len(xs), size)]` for a positive size. */
  function Batches<T>(xs: seq<T>, size: nat): seq<seq<T>>
    requires size > 0
    decreases |xs|
  {
    if xs == [] then []
    else if |xs| <= size then [xs]
    else [xs[..size]] + Batches(xs[size..], size)
  }

  /** The batches joined back together are the list, and every batch is
      non-empty and at most `size` long. */
  lemma {:induction false} BatchesCover<T>(xs: seq<T>, size: nat)
    requires size > 0
    ensures Concat(Batches(xs, size)) == xs
    ensures forall k :: 0 <= k < |Batches(xs, size)| ==> 0 < |Batches(xs, size)[k]| <= size
    decreases |xs|
  {
    if |xs| > size {
      var rest := Batches(xs[size..], size);
      BatchesCover(xs[size..], size);
      var bs := [xs[..size]] + rest;
      assert bs[1..] == rest;
      assert Concat(bs) == xs[..size] + xs[size..];
      assert forall k :: 1 <= k < |bs| ==> bs[k] == rest[k - 1];
    } else if xs != [] {
      assert Concat([xs]) == xs + [];
    }
  }

  /** There are ceil(|xs| / size) batches. */
  lemma {:induction false} BatchCount<T>(xs: seq<T>, size: nat)
    requires size > 0
    ensures |xs| == 0 ==> |Batches(xs, size)| == 0
    ensures |xs| > 0 ==> (|Batches(xs, size)| - 1) * size < |xs| <= |Batches(xs, size)| * size
    decreases |xs|
  {
    if |xs| > size {
      var rest := xs[size..];
      BatchCount(rest, size);
      var m := |Batches(rest, size)|;
      assert |Batches(xs, size)| == m + 1;
      assert (m + 1) * size == m * size + size;
    }
  }

  /** `k * size`, built up one batch at a time. */
  function Offset(k: nat, size: nat): nat {
    if k == 0 then 0 else Offset(k - 1, size) + size
  }

  lemma {:induction false} OffsetIsProduct(k: nat, size: nat)
    ensures Offset(k, size) == k * size
  {
    if k > 0 {
      OffsetIsProduct(k - 1, size);
      assert (k - 1) * size + size == k * size;
    }
  }

  /** Past the first batch, the batches are those of the rest of the list. */
  lemma BatchesTail<T>(xs: seq<T>, size: nat, k: nat)
    requires size > 0 && 0 < k < |Batches(xs, size)|
    ensures |xs| > size
    ensures Batches(xs, size)[k] == Batches(xs[size..], size)[k - 1]
  {
  }

  /** Batch `k` is the slice `xs[k*size : (k+1)*size]` (see `OffsetIsProduct`). */
  lemma {:induction false} BatchSlice<T>(xs: seq<T>, size: nat, k: nat)
    requires size > 0 && k < |Batches(xs, size)|
    ensures Offset(k, size) < |xs|
    ensures Batches(xs, size)[k] == xs[Offset(k, size) .. Min(Offset(k, size) + size, |xs|)]
    decreases k
  {
    if k > 0 {
      BatchesTail(xs, size, k);
      var rest := xs[size..];
      BatchSlice(rest, size, k - 1);
      var lo := Offset(k - 1, size);
      var hi := Min(lo + size, |rest|);
      assert Offset(k, size) == lo + size;
      assert Min(Offset(k, size) + size, |xs|) == hi + size;
      SliceShift(xs, size, lo, hi);
    }
  }

  lemma SliceShift<T>(xs: seq<T>, d: nat, lo: nat, hi: nat)
    requires d <= |xs| && lo <= hi <= |xs| - d
    ensures xs[d..][lo..hi] == xs[lo + d .. hi + d]
  {
  }

  // --------------------------------------------------------------- a wave

  /** `await asyncio.gather(*tasks)`: every request's value in task order, or
      the first exception in task order. */
  function FetchAll(net: Net, requests: seq<Request>, byId: bool): Result<seq<Json>, Failure>
    decreases |requests|
  {
    if requests == [] then Ok([])
    else
      match FetchData(net, requests[0], byId)
      case Err(e) => Err(e)
      case Ok(v) =>
        match FetchAll(net, requests[1..], byId)
        case Err(e) => Err(e)
        case Ok(vs) => Ok([v] + vs)
  }

  /** A wave succeeds with every request's own value, in task order, or fails
      with the error of the first request that fails. */
  lemma {:induction false} FetchAllSpec(net: Net, requests: seq<Request>, byId: bool)
    ensures var r := FetchAll(net, requests, byId);
      && (r.Ok? ==> |r.value| == |requests|)
      && (r.Ok? ==> forall i :: 0 <= i < |requests| ==> FetchData(net, requests[i], byId) == Ok(r.value[i]))
      && (r.Err? ==> exists i :: (0 <= i < |requests| && FetchData(net, requests[i], byId) == Err(r.error)
                                  && forall j :: 0 <= j < i ==> FetchData(net, requests[j], byId).Ok?))
    decreases |requests|
  {
    if requests != [] && FetchData(net, requests[0], byId).Ok? {
      var tail := requests[1..];
      FetchAllSpec(net, tail, byId);
      var r := FetchAll(net, requests, byId);
      assert forall j :: 1 <= j < |requests| ==> requests[j] == tail[j - 1];
      if r.Err? {
        var i' :| 0 <= i' < |tail| && FetchData(net, tail[i'], byId) == Err(r.error)
                  && (forall j :: 0 <= j < i' ==> FetchData(net, tail[j], byId).Ok?);
        assert FetchData(net, requests[i' + 1], byId) == Err(r.error);
      }
    }
  }

  function Combine(x: Result<seq<Json>, Failure>, y: Result<seq<Json>, Failure>): Result<seq<Json>, Failure> {
    match x
    case Err(e) => Err(e)
    case Ok(u) => match y case Err(e) => Err(e) case Ok(v) => Ok(u + v)
  }

  /** Two waves one after the other give what one wave over both gives. */
  lemma {:induction false} FetchAllAppend(net: Net, a: seq<Request>, b: seq<Request>, byId: bool)
    ensures FetchAll(net, a + b, byId) == Combine(FetchAll(net, a, byId), FetchAll(net, b, byId))
    decreases |a|
  {
    if a == [] {
      assert a + b == b;
      match FetchAll(net, b, byId)
      case Err(e) =>
      case Ok(w) => assert [] + w == w;
    } else {
      assert (a + b)[0] == a[0] && (a + b)[1..] == a[1..] + b;
      FetchAllAppend(net, a[1..], b, byId);
      match FetchData(net, a[0], byId)
      case Err(e) =>
      case Ok(v) =>
        match FetchAll(net, a[1..], byId)
        case Err(e) =>
        case Ok(u) =>
          match FetchAll(net, b, byId)
          case Err(e) =>
          case Ok(w) => assert [v] + (u + w) == ([v] + u) + w;
    }
  }

  /** The records of a wave: every dict response, in order. */
  function Dicts(vs: seq<Json>): seq<Record>
    decreases |vs|
  {
    if vs == [] then []
    else
      var last := vs[|vs| - 1];
      Dicts(vs[..|vs| - 1]) + (if last.JObject? then [last.fields] else [])
  }

  /** The not-fetched markers of a wave: every other response, in order. */
  function NotDicts(vs: seq<Json>): seq<Json>
    decreases |vs|
  {
    if vs == [] then []
    else
      var last := vs[|vs| - 1];
      NotDicts(vs[..|vs| - 1]) + (if last.JObject? then [] else [last])
  }

  /** Every dict response is a record, and every record is a dict response. */
  lemma {:induction false} DictsMembers(vs: seq<Json>)
    ensures forall i :: 0 <= i < |vs| && vs[i].JObject? ==> vs[i].fields in Dicts(vs)
    ensures forall r :: r in Dicts(vs) ==> JObject(r) in vs
    decreases |vs|
  {
    if vs != [] {
      var init := vs[..|vs| - 1];
      DictsMembers(init);
      assert forall i :: 0 <= i < |init| ==> vs[i] == init[i];
      forall r | r in Dicts(vs) ensures JObject(r) in vs {
        if r in Dicts(init) {
          var i :| 0 <= i < |init| && init[i] == JObject(r);
          assert vs[i] == JObject(r);
        }
      }
    }
  }

  /** Every other response is a marker, and every marker is a non-dict response. */
  lemma {:induction false} NotDictsMembers(vs: seq<Json>)
    ensures forall i :: 0 <= i < |vs| && !vs[i].JObject? ==> vs[i] in NotDicts(vs)
    ensures forall n :: n in NotDicts(vs) ==> n in vs && !n.JObject?
    decreases |vs|
  {
    if vs != [] {
      var init := vs[..|vs| - 1];
      NotDictsMembers(init);
      assert forall i :: 0 <= i < |init| ==> vs[i] == init[i];
      forall n | n in NotDicts(vs) ensures n in vs && !n.JObject? {
        if n in NotDicts(init) {
          var i :| 0 <= i < |init| && init[i] == n;
          assert vs[i] == n;
        }
      }
    }
  }

  /** Records and markers together account for every response. */
  lemma {:induction false} PartitionSizes(vs: seq<Json>)
    ensures |Dicts(vs)| + |NotDicts(vs)| == |vs|
    decreases |vs|
  {
    if vs != [] { PartitionSizes(vs[..|vs| - 1]); }
  }

  /** Splitting two waves in turn is splitting them together. */
  lemma PartitionAppend(a: seq<Json>, b: seq<Json>)
    ensures Dicts(a + b) == Dicts(a) + Dicts(b)
    ensures NotDicts(a + b) == NotDicts(a) + NotDicts(b)
  {
    DictsAppend(a, b);
    NotDictsAppend(a, b);
  }

  lemma {:induction false} DictsAppend(a: seq<Json>, b: seq<Json>)
    ensures Dicts(a + b) == Dicts(a) + Dicts(b)
    decreases |b|
  {
    if b == [] {
      assert a + b == a;
      assert Dicts(a) + [] == Dicts(a);
    } else {
      var init := b[..|b| - 1];
      assert (a + b)[..|a + b| - 1] == a + init;
      assert (a + b)[|a + b| - 1] == b[|b| - 1];
      DictsAppend(a, init);
      var tail: seq<Record> := if b[|b| - 1].JObject? then [b[|b| - 1].fields] else [];
      assert Dicts(a + b) == (Dicts(a) + Dicts(init)) + tail;
      assert Dicts(b) == Dicts(init) + tail;
    }
  }

  lemma {:induction false} NotDictsAppend(a: seq<Json>, b: seq<Json>)
    ensures NotDicts(a + b) == NotDicts(a) + NotDicts(b)
    decreases |b|
  {
    if b == [] {
      assert a + b == a;
      assert NotDicts(a) + [] == NotDicts(a);
    } else {
      var init := b[..|b| - 1];
      assert (a + b)[..|a + b| - 1] == a + init;
      assert (a + b)[|a + b| - 1] == b[|b| - 1];
      NotDictsAppend(a, init);
      var tail: seq<Json> := if b[|b| - 1].JObject? then [] else [b[|b| - 1]];
      assert NotDicts(a + b) == (NotDicts(a) + NotDicts(init)) + tail;
      assert NotDicts(b) == NotDicts(init) + tail;
    }
  }

  /** `_batch_fetch`: one wave, split into records and not-fetched markers. */
  method BatchFetch(net: Net, tasks: seq<Request>, byId: bool) returns (r: Result<(seq<Record>, seq<Json>), Failure>)
    ensures r.Err? <==> FetchAll(net, tasks, byId).Err?
    ensures r.Err? ==> r.error == FetchAll(net, tasks, byId).error
    ensures r.Ok? ==> var vs := FetchAll(net, tasks, byId).value;
      r.value.0 == Dicts(vs) && r.value.1 == NotDicts(vs) && |r.value.0| + |r.value.1| == |tasks|
  {
    var responses := FetchAll(net, tasks, byId);
    if responses.Err? {
      return Err(responses.error);
    }
    var vs := responses.value;
    FetchAllSpec(net, tasks, byId);
    var results: seq<Record> := [];
    var notFetched: seq<Json> := [];
    for i := 0 to |vs|
      invariant results == Dicts(vs[..i])
      invariant notFetched == NotDicts(vs[..i])
    {
      assert vs[..i + 1][..i] == vs[..i];
      if vs[i].JObject? {
        results := results + [vs[i].fields];
      } else {
        notFetched := notFetched + [vs[i]];
      }
    }
    assert vs[..|vs|] == vs;
    PartitionSizes(vs);
    r := Ok((results, notFetched));
  }

  // -------------------------------------------------- last value wins by id

  function Keys<K, V>(s: seq<(K, V)>): set<K> {
    set i | 0 <= i < |s| :: s[i].0
  }

  predicate DistinctKeys<K(==), V>(s: seq<(K, V)>) {
    forall p, q :: 0 <= p < q < |s| ==> s[p].0 != s[q].0
  }

  /** The index of the first pair with key `k`, or `|s|`. */
  function KeyIndex<K(==), V>(s: seq<(K, V)>, k: K): (j: nat)
    ensures j <= |s|
    ensures j < |s| ==> s[j].0 == k
    ensures forall i :: 0 <= i < j ==> s[i].0 != k
    ensures j == |s| <==> k !in Keys(s)
    decreases |s|
  {
    if s == [] then 0
    else if s[0].0 == k then 0
    else
      var j := KeyIndex(s[1..], k) + 1;
      assert forall i :: 1 <= i < |s| ==> s[i] == s[1..][i - 1];
      j
  }

  /** The index of the last pair with key `k`. */
  function LastIndex<K(==), V>(s: seq<(K, V)>, k: K): (i: nat)
    requires k in Keys(s)
    ensures i < |s| && s[i].0 == k
    ensures forall j :: i < j < |s| ==> s[j].0 != k
    decreases |s|
  {
    if s[|s| - 1].0 == k then |s| - 1
    else
      var i0 :| 0 <= i0 < |s| && s[i0].0 == k;
      assert s[..|s| - 1][i0].0 == k;
      LastIndex(s[..|s| - 1], k)
  }

  /** Python's `d[k] = v` on a dict kept as an insertion-ordered pair list:
      an existing key keeps its place and takes the new value, a new key goes
      last. */
  function Upsert<K(==), V>(acc: seq<(K, V)>, kv: (K, V)): seq<(K, V)> {
    var j := KeyIndex(acc, kv.0);
    if j < |acc| then acc[j := kv] else acc + [kv]
  }

  /** `{key: value for key, value in kvs}` as its insertion-ordered items. */
  function Dedup<K(==), V>(kvs: seq<(K, V)>): seq<(K, V)>
    decreases |kvs|
  {
    if kvs == [] then [] else Upsert(Dedup(kvs[..|kvs| - 1]), kvs[|kvs| - 1])
  }

  lemma {:induction false} DedupKeys<K, V>(kvs: seq<(K, V)>)
    ensures DistinctKeys(Dedup(kvs))
    ensures Keys(Dedup(kvs)) == Keys(kvs)
    decreases |kvs|
  {
    if kvs != [] {
      var prefix, kv := kvs[..|kvs| - 1], kvs[|kvs| - 1];
      DedupKeys(prefix);
      var acc := Dedup(prefix);
      var j := KeyIndex(acc, kv.0);
      assert Keys(kvs) == Keys(prefix) + {kv.0} by {
        forall k | k in Keys(kvs) ensures k in Keys(prefix) + {kv.0} {
          var i :| 0 <= i < |kvs| && kvs[i].0 == k;
          if i < |kvs| - 1 { assert prefix[i].0 == k; }
        }
        forall k | k in Keys(prefix) ensures k in Keys(kvs) {
          var i :| 0 <= i < |prefix| && prefix[i].0 == k;
          assert kvs[i].0 == k;
        }
        assert kvs[|kvs| - 1].0 == kv.0;
      }
      var out := Dedup(kvs);
      if j < |acc| {
        assert out == acc[j := kv];
        assert Keys(out) == Keys(acc) by {
          forall k | k in Keys(acc) ensures k in Keys(out) {
            var i :| 0 <= i < |acc| && acc[i].0 == k;
            assert out[i].0 == k;
          }
          forall k | k in Keys(out) ensures k in Keys(acc) {
            var i :| 0 <= i < |out| && out[i].0 == k;
            assert acc[i].0 == k;
          }
        }
      } else {
        assert out == acc + [kv];
        assert Keys(out) == Keys(acc) + {kv.0} by {
          forall k | k in Keys(out) ensures k in Keys(acc) + {kv.0} {
            var i :| 0 <= i < |out| && out[i].0 == k;
            if i < |acc| { assert acc[i].0 == k; }
          }
          forall k | k in Keys(acc) ensures k in Keys(out) {
            var i :| 0 <= i < |acc| && acc[i].0 == k;
            assert out[i].0 == k;
          }
          assert out[|acc|].0 == kv.0;
        }
      }
    }
  }

  /** Each kept pair is the last pair with its key. */
  lemma {:induction false} DedupLastWins<K, V>(kvs: seq<(K, V)>)
    ensures forall p :: 0 <= p < |Dedup(kvs)| ==>
      Dedup(kvs)[p].0 in Keys(kvs) && Dedup(kvs)[p] == kvs[LastIndex(kvs, Dedup(kvs)[p].0)]
    decreases |kvs|
  {
    DedupKeys(kvs);
    if kvs != [] {
      var prefix, kv := kvs[..|kvs| - 1], kvs[|kvs| - 1];
      DedupLastWins(prefix);
      DedupKeys(prefix);
      var acc, out := Dedup(prefix), Dedup(kvs);
      forall p | 0 <= p < |out|
        ensures out[p].0 in Keys(kvs) && out[p] == kvs[LastIndex(kvs, out[p].0)]
      {
        assert out[p].0 in Keys(out);
        if out[p].0 == kv.0 {
          if KeyIndex(acc, kv.0) < |acc| {
            assert out[KeyIndex(acc, kv.0)] == kv;
          } else {
          }
          assert out[p] == kv;
        } else {
          var k := out[p].0;
          assert out[p] == acc[p];
          assert k in Keys(acc);
          var i := LastIndex(prefix, k);
          assert kvs[i] == prefix[i];
          assert LastIndex(kvs, k) == i by {
            var i' := LastIndex(kvs, k);
            if i' < |kvs| - 1 { assert prefix[i'].0 == k; }
          }
        }
      }
    }
  }

  lemma KeyIndexIs<K, V>(s: seq<(K, V)>, k: K, j: nat)
    requires j < |s| && s[j].0 == k
    requires forall i :: 0 <= i < j ==> s[i].0 != k
    ensures KeyIndex(s, k) == j
  {
  }

  /** Each key keeps the position of its first occurrence. */
  lemma {:induction false} DedupFirstOrder<K, V>(kvs: seq<(K, V)>)
    ensures forall p, q :: 0 <= p < q < |Dedup(kvs)| ==>
      KeyIndex(kvs, Dedup(kvs)[p].0) < KeyIndex(kvs, Dedup(kvs)[q].0)
    decreases |kvs|
  {
    if kvs != [] {
      var prefix, kv := kvs[..|kvs| - 1], kvs[|kvs| - 1];
      DedupFirstOrder(prefix);
      DedupKeys(prefix);
      DedupKeysIn(prefix);
      KeyIndexOfPrefix(kvs);
      var acc, out := Dedup(prefix), Dedup(kvs);
      if KeyIndex(acc, kv.0) < |acc| {
        assert forall p :: 0 <= p < |out| ==> out[p].0 == acc[p].0;
      } else {
        assert kv.0 !in Keys(prefix);
        KeyIndexIs(kvs, kv.0, |kvs| - 1);
        assert out == acc + [kv];
      }
    }
  }

  /** Every key of the dict is a key of the input. */
  lemma DedupKeysIn<K, V>(kvs: seq<(K, V)>)
    ensures forall p :: 0 <= p < |Dedup(kvs)| ==> Dedup(kvs)[p].0 in Keys(kvs)
  {
    DedupKeys(kvs);
    forall p | 0 <= p < |Dedup(kvs)| ensures Dedup(kvs)[p].0 in Keys(kvs) {
      assert Dedup(kvs)[p].0 in Keys(Dedup(kvs));
    }
  }

  /** A key of all but the last pair is first found at the same place in
      the whole list, before the last pair. */
  lemma KeyIndexOfPrefix<K, V>(kvs: seq<(K, V)>)
    requires kvs != []
    ensures forall k :: k in Keys(kvs[..|kvs| - 1]) ==>
      KeyIndex(kvs, k) == KeyIndex(kvs[..|kvs| - 1], k) < |kvs| - 1
  {
    var prefix := kvs[..|kvs| - 1];
    forall k | k in Keys(prefix) ensures KeyIndex(kvs, k) == KeyIndex(prefix, k) < |kvs| - 1 {
      var j := KeyIndex(prefix, k);
      assert kvs[j] == prefix[j];
      KeyIndexIs(kvs, k, j);
    }
  }

  // ------------------------------------------------------- by-id pipeline

  predicate AllHaveId(records: seq<Record>) {
    forall i :: 0 <= i < |records| ==> "id" in records[i]
  }

  function IdKeyed(records: seq<Record>): (kvs: seq<(Json, Record)>)
    requires AllHaveId(records)
    ensures |kvs| == |records|
    ensures forall i :: 0 <= i < |records| ==> kvs[i] == (records[i]["id"], records[i])
  {
    seq(|records|, i requires 0 <= i < |records| => (records[i]["id"], records[i]))
  }

  function ValuesOf<K, V>(kvs: seq<(K, V)>): (vs: seq<V>)
    ensures |vs| == |kvs| && forall i :: 0 <= i < |kvs| ==> vs[i] == kvs[i].1
  {
    seq(|kvs|, i requires 0 <= i < |kvs| => kvs[i].1)
  }

  /** `list({data['id']: data for data in records}.values())`; a record
      without `id` makes the comprehension raise. */
  function DedupById(records: seq<Record>): (r: Result<seq<Record>, Failure>)
    ensures r.Err? <==> exists i :: 0 <= i < |records| && "id" !in records[i]
    ensures r.Err? ==> r.error == MissingId
  {
    if AllHaveId(records) then Ok(ValuesOf(Dedup(IdKeyed(records)))) else Err(MissingId)
  }

  /** Every kept record carries the key it was kept under, and is the last
      input record with that id. */
  lemma DedupByIdKept(records: seq<Record>)
    requires AllHaveId(records)
    ensures var kvs := IdKeyed(records); var out := Dedup(kvs); var u := DedupById(records).value;
      && |u| == |out|
      && (forall p :: 0 <= p < |u| ==> ("id" in u[p] && u[p]["id"] == out[p].0
                                        && out[p].0 in Keys(kvs) && u[p] == records[LastIndex(kvs, out[p].0)]))
  {
    var kvs := IdKeyed(records);
    var out := Dedup(kvs);
    var u := DedupById(records).value;
    DedupLastWins(kvs);
    forall p | 0 <= p < |u|
      ensures "id" in u[p] && u[p]["id"] == out[p].0 && u[p] == records[LastIndex(kvs, out[p].0)]
    {
      var i := LastIndex(kvs, out[p].0);
      assert out[p] == kvs[i] == (records[i]["id"], records[i]);
    }
  }

  /** No two deduplicated records share an id. */
  lemma DedupByIdDistinct(records: seq<Record>)
    requires AllHaveId(records)
    ensures var u := DedupById(records).value;
      forall p, q :: 0 <= p < q < |u| ==> "id" in u[p] && "id" in u[q] && u[p]["id"] != u[q]["id"]
  {
    DedupKeys(IdKeyed(records));
    DedupByIdKept(records);
  }

  /** Every id of the input survives. */
  lemma DedupByIdCovers(records: seq<Record>)
    requires AllHaveId(records)
    ensures var u := DedupById(records).value;
      forall i :: 0 <= i < |records| ==> exists p :: 0 <= p < |u| && "id" in u[p] && u[p]["id"] == records[i]["id"]
  {
    var kvs := IdKeyed(records);
    var out := Dedup(kvs);
    var u := DedupById(records).value;
    DedupKeys(kvs);
    DedupByIdKept(records);
    forall i | 0 <= i < |records|
      ensures exists p :: 0 <= p < |u| && "id" in u[p] && u[p]["id"] == records[i]["id"]
    {
      assert kvs[i].0 in Keys(kvs);
      var p :| 0 <= p < |out| && out[p].0 == records[i]["id"];
      assert u[p]["id"] == records[i]["id"];
    }
  }

  /** Each deduplicated record is the last input record with its id. */
  lemma DedupByIdLastWins(records: seq<Record>)
    requires AllHaveId(records)
    ensures var u := DedupById(records).value;
      forall p :: 0 <= p < |u| ==> (exists i :: (0 <= i < |records| && u[p] == records[i]
                                    && forall j :: i < j < |records| ==> records[j]["id"] != records[i]["id"]))
  {
    var kvs := IdKeyed(records);
    var out := Dedup(kvs);
    var u := DedupById(records).value;
    DedupByIdKept(records);
    forall p | 0 <= p < |u|
      ensures exists i :: (0 <= i < |records| && u[p] == records[i]
                           && forall j :: i < j < |records| ==> records[j]["id"] != records[i]["id"])
    {
      var i := LastIndex(kvs, out[p].0);
      assert forall j :: i < j < |records| ==> kvs[j].0 != out[p].0;
    }
  }

  /** The deduplicated records are in the order in which their ids first
      appear in the input. */
  lemma DedupByIdOrder(records: seq<Record>)
    requires AllHaveId(records)
    ensures var u := DedupById(records).value;
      forall p, q :: 0 <= p < q < |u| ==> ("id" in u[p] && "id" in u[q] &&
                                           exists i :: (0 <= i < |records| && records[i]["id"] == u[p]["id"]
                                                        && forall j :: 0 <= j <= i ==> records[j]["id"] != u[q]["id"]))
  {
    var kvs := IdKeyed(records);
    var out := Dedup(kvs);
    var u := DedupById(records).value;
    DedupKeys(kvs);
    DedupFirstOrder(kvs);
    DedupByIdKept(records);
    forall p, q | 0 <= p < q < |u|
      ensures exists i :: (0 <= i < |records| && records[i]["id"] == u[p]["id"]
                           && forall j :: 0 <= j <= i ==> records[j]["id"] != u[q]["id"])
    {
      assert out[q].0 in Keys(kvs);
      var i := KeyIndex(kvs, out[p].0);
      assert KeyIndex(kvs, out[q].0) > i;
      assert records[i]["id"] == u[p]["id"];
      assert forall j :: 0 <= j <= i ==> kvs[j].0 != out[q].0;
    }
  }

  function ByIdRequests(paths: seq<string>, params: Params): (rs: seq<Request>)
    ensures |rs| == |paths| && forall i :: 0 <= i < |paths| ==> rs[i] == Request(paths[i], params)
  {
    seq(|paths|, i requires 0 <= i < |paths| => Request(paths[i], params))
  }

  /** What `_fetch_by_id` yields, stated as one unbatched wave over every
      path: the deduplicated records and the not-fetched markers in order. */
  function ByIdOutcome(net: Net, paths: seq<string>, language: Option<string>, expand: Option<seq<string>>, batchSize: int)
    : Result<(seq<Record>, seq<Json>), Failure>
  {
    if batchSize == 0 then Err(InvalidBatchSize)
    else
      var fetched := if batchSize < 0 then Ok([]) else FetchAll(net, ByIdRequests(paths, ByIdParams(language, expand)), true);
      match fetched
      case Err(e) => Err(e)
      case Ok(vs) =>
        match DedupById(Dicts(vs))
        case Err(e) => Err(e)
        case Ok(unique) => Ok((unique, NotDicts(vs)))
  }

  /** `_fetch_by_id`: batch after batch, extending the results and the
      not-fetched markers, then deduplicating by id. Fetching in batches
      gives exactly what one wave over all paths would give. */
  method FetchById(net: Net, paths: seq<string>, language: Option<string>, expand: Option<seq<string>>, batchSize: int)
    returns (r: Result<(seq<Record>, seq<Json>), Failure>)
    ensures r == ByIdOutcome(net, paths, language, expand, batchSize)
  {
    if batchSize == 0 {
      return Err(InvalidBatchSize);
    }
    var allResults: seq<Record> := [];
    var notFetched: seq<Json> := [];
    if batchSize > 0 {
      var wave := ByIdWave(net, paths, ByIdParams(language, expand), batchSize);
      if wave.Err? {
        return Err(wave.error);
      }
      allResults, notFetched := wave.value.0, wave.value.1;
    }
    match DedupById(allResults)
    case Err(e) => return Err(e);
    case Ok(unique) => return Ok((unique, notFetched));
  }

  /** The batch loop of `_fetch_by_id`: the records and markers of every
      batch in turn are those of one wave over all the paths. */
  method ByIdWave(net: Net, paths: seq<string>, params: Params, batchSize: int)
    returns (r: Result<(seq<Record>, seq<Json>), Failure>)
    requires batchSize > 0
    ensures r.Err? <==> FetchAll(net, ByIdRequests(paths, params), true).Err?
    ensures r.Err? ==> r.error == FetchAll(net, ByIdRequests(paths, params), true).error
    ensures r.Ok? ==> var vs := FetchAll(net, ByIdRequests(paths, params), true).value;
      r.value == (Dicts(vs), NotDicts(vs))
  {
    var allResults: seq<Record> := [];
    var notFetched: seq<Json> := [];
    var batches := Batches(paths, batchSize);
    BatchesCover(paths, batchSize);
    ghost var done: seq<Json> := [];
    for k := 0 to |batches|
      invariant FetchAll(net, ByIdRequests(Concat(batches[..k]), params), true) == Ok(done)
      invariant allResults == Dicts(done) && notFetched == NotDicts(done)
    {
      var tasks := ByIdRequests(batches[k], params);
      WaveStep(net, params, batches, k);
      var result := BatchFetch(net, tasks, true);
      if result.Err? {
        WaveStopsAtError(net, params, batches, k + 1);
        return Err(result.error);
      }
      ghost var vs := FetchAll(net, tasks, true).value;
      PartitionAppend(done, vs);
      done := done + vs;
      allResults := allResults + result.value.0;
      notFetched := notFetched + result.value.1;
    }
    assert batches[..|batches|] == batches;
    r := Ok((allResults, notFetched));
  }

  lemma ByIdRequestsAppend(a: seq<string>, b: seq<string>, params: Params)
    ensures ByIdRequests(a + b, params) == ByIdRequests(a, params) + ByIdRequests(b, params)
  {
    assert forall i :: 0 <= i < |a + b| ==> ByIdRequests(a + b, params)[i] == (ByIdRequests(a, params) + ByIdRequests(b, params))[i];
  }

  /** One more batch extends the wave over the batches so far. */
  lemma WaveStep(net: Net, params: Params, batches: seq<seq<string>>, k: nat)
    requires k < |batches|
    ensures FetchAll(net, ByIdRequests(Concat(batches[..k + 1]), params), true)
         == Combine(FetchAll(net, ByIdRequests(Concat(batches[..k]), params), true),
                    FetchAll(net, ByIdRequests(batches[k], params), true))
  {
    ConcatSnoc(batches, k);
    ByIdRequestsAppend(Concat(batches[..k]), batches[k], params);
    FetchAllAppend(net, ByIdRequests(Concat(batches[..k]), params), ByIdRequests(batches[k], params), true);
  }

  /** Once a prefix of the batches fails, the wave over all of them fails the same way. */
  lemma WaveStopsAtError(net: Net, params: Params, batches: seq<seq<string>>, k: nat)
    requires k <= |batches|
    requires FetchAll(net, ByIdRequests(Concat(batches[..k]), params), true).Err?
    ensures FetchAll(net, ByIdRequests(Concat(batches), params), true)
         == FetchAll(net, ByIdRequests(Concat(batches[..k]), params), true)
  {
    ConcatSplit(batches, k);
    ByIdRequestsAppend(Concat(batches[..k]), Concat(batches[k..]), params);
    FetchAllAppend(net, ByIdRequests(Concat(batches[..k]), params), ByIdRequests(Concat(batches[k..]), params), true);
  }
}
