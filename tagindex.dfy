/**
 * Tag aggregation in `ResourceBuilder::build_all` (src/resource.rs): a `BTreeMap` from each tag to
 * the resources carrying it, filled by pushing every resource once per tag occurrence, and the
 * index of tags derived from it, largest bucket first.
 */
module TagIndex {
  import opened Text
  import opened Sorting
  import opened ResourceModel

  /** A `BTreeMap<String, Vec<T>>`, as its entries in key order. */
  type Index<T> = seq<(string, seq<T>)>

  ghost predicate SortedKeys<T>(m: Index<T>) {
    forall i, j :: 0 <= i < j < |m| ==> LexLess(m[i].0, m[j].0)
  }

  /** The shape the map keeps: keys strictly increasing, and (since entries only arise by a push) no empty bucket. */
  ghost predicate Valid<T>(m: Index<T>) {
    SortedKeys(m) && forall i :: 0 <= i < |m| ==> m[i].1 != []
  }

  /** The keys, in iteration order. */
  function Keys<T>(m: Index<T>): (r: seq<string>)
    ensures |r| == |m| && forall i :: 0 <= i < |m| ==> r[i] == m[i].0
  {
    if m == [] then [] else [m[0].0] + Keys(m[1..])
  }

  predicate HasKey<T>(m: Index<T>, k: string) {
    k in Keys(m)
  }

  /** The bucket for `k`, empty when there is none. */
  function Lookup<T>(m: Index<T>, k: string): seq<T> {
    if m == [] then [] else if m[0].0 == k then m[0].1 else Lookup(m[1..], k)
  }

  /** `map.entry(tag).or_default().push(x)`. */
  function Push<T>(m: Index<T>, tag: string, x: T): (r: Index<T>)
    ensures |r| == |m| || |r| == |m| + 1
  {
    if m == [] then [(tag, [x])]
    else if m[0].0 == tag then [(tag, m[0].1 + [x])] + m[1..]
    else if LexLess(tag, m[0].0) then [(tag, [x])] + m
    else [m[0]] + Push(m[1..], tag, x)
  }

  lemma {:induction false} LookupAbsent<T>(m: Index<T>, k: string)
    requires !HasKey(m, k)
    ensures Lookup(m, k) == []
  {
    if m != [] {
      LookupAbsent(m[1..], k);
    }
  }

  lemma LexLessNotEqual(a: string, b: string)
    requires LexLess(a, b)
    ensures a != b
  {
    LexLessIrreflexive(a);
  }

  lemma TailValid<T>(m: Index<T>)
    requires Valid(m) && m != []
    ensures Valid(m[1..])
  {
    forall i, j | 0 <= i < j < |m[1..]| ensures LexLess(m[1..][i].0, m[1..][j].0) {
      assert m[1..][i] == m[i + 1] && m[1..][j] == m[j + 1];
    }
  }

  /** A push adds `tag` to the keys and no other key. */
  lemma {:induction false} PushKeys<T>(m: Index<T>, tag: string, x: T)
    ensures forall k :: HasKey(Push(m, tag, x), k) <==> HasKey(m, k) || k == tag
  {
    var r := Push(m, tag, x);
    if m == [] {
      assert Keys(r) == [tag];
    } else if m[0].0 == tag {
      assert r[1..] == m[1..];
      assert Keys(r) == Keys(m);
    } else if LexLess(tag, m[0].0) {
      assert r[1..] == m;
      assert Keys(r) == [tag] + Keys(m);
    } else {
      var rest := Push(m[1..], tag, x);
      PushKeys(m[1..], tag, x);
      assert r[1..] == rest;
      assert Keys(r) == [m[0].0] + Keys(rest);
      assert Keys(m) == [m[0].0] + Keys(m[1..]);
      forall k ensures HasKey(r, k) <==> HasKey(m, k) || k == tag {
        assert HasKey(r, k) <==> k == m[0].0 || HasKey(rest, k);
        assert HasKey(m, k) <==> k == m[0].0 || HasKey(m[1..], k);
      }
    }
  }

  /** A push keeps the map valid. */
  lemma {:induction false} PushValid<T>(m: Index<T>, tag: string, x: T)
    requires Valid(m)
    ensures Valid(Push(m, tag, x))
  {
    var r := Push(m, tag, x);
    if m == [] {
    } else if m[0].0 == tag {
      assert r[1..] == m[1..];
    } else if LexLess(tag, m[0].0) {
      assert r[1..] == m;
      forall i | 0 < i < |m| ensures LexLess(tag, m[i].0) {
        LexLessTransitive(tag, m[0].0, m[i].0);
      }
    } else {
      LexLessTotal(tag, m[0].0);
      var rest := Push(m[1..], tag, x);
      TailValid(m);
      PushValid(m[1..], tag, x);
      PushKeys(m[1..], tag, x);
      assert r == [m[0]] + rest;
      forall j | 0 <= j < |rest| ensures LexLess(m[0].0, rest[j].0) {
        assert HasKey(rest, rest[j].0);
        if rest[j].0 != tag {
          var i :| 0 <= i < |m[1..]| && Keys(m[1..])[i] == rest[j].0;
          assert m[i + 1].0 == rest[j].0;
        }
      }
    }
  }

  /** A push adds `x` at the end of the bucket of `tag`, and touches no other bucket. */
  lemma {:induction false} PushLookup<T>(m: Index<T>, tag: string, x: T)
    requires Valid(m)
    ensures forall k :: Lookup(Push(m, tag, x), k) == Lookup(m, k) + (if k == tag then [x] else [])
  {
    if m == [] {
    } else if m[0].0 == tag {
    } else if LexLess(tag, m[0].0) {
      forall i | 0 <= i < |m| ensures m[i].0 != tag {
        if i > 0 {
          LexLessTransitive(tag, m[0].0, m[i].0);
        }
        LexLessNotEqual(tag, m[i].0);
      }
      LookupAbsent(m, tag);
    } else {
      TailValid(m);
      PushLookup(m[1..], tag, x);
    }
  }

  /** A push keeps the map valid, adds `x` at the end of the bucket of `tag`, and touches no other bucket. */
  lemma PushSpec<T>(m: Index<T>, tag: string, x: T)
    requires Valid(m)
    ensures Valid(Push(m, tag, x))
    ensures forall k :: Lookup(Push(m, tag, x), k) == Lookup(m, k) + (if k == tag then [x] else [])
  {
    PushValid(m, tag, x);
    PushLookup(m, tag, x);
  }

  /** In a valid map, a key is present exactly when its bucket is not empty. */
  lemma {:induction false} HasKeyLookup<T>(m: Index<T>, k: string)
    requires Valid(m)
    ensures HasKey(m, k) <==> Lookup(m, k) != []
  {
    if m != [] && m[0].0 != k {
      TailValid(m);
      HasKeyLookup(m[1..], k);
    }
  }

  /** The inner loop: `x` pushed once for each of `tags`, in order. */
  function PushAll<T>(m: Index<T>, tags: seq<string>, x: T): Index<T> {
    if tags == [] then m else Push(PushAll(m, tags[..|tags| - 1], x), tags[|tags| - 1], x)
  }

  /** The outer loop: every resource of `data` pushed under each of its tags. */
  function Aggregate<T>(data: seq<T>, tagsOf: T -> seq<string>): Index<T> {
    if data == [] then [] else PushAll(Aggregate(data[..|data| - 1], tagsOf), tagsOf(data[|data| - 1]), data[|data| - 1])
  }

  /** How many times `k` occurs in `tags`. */
  function Count(tags: seq<string>, k: string): nat {
    if tags == [] then 0 else Count(tags[..|tags| - 1], k) + (if tags[|tags| - 1] == k then 1 else 0)
  }

  function Repeat<T>(x: T, n: nat): (r: seq<T>)
    ensures |r| == n && forall i :: 0 <= i < n ==> r[i] == x
  {
    seq(n, _ => x)
  }

  /** The reference bucket of `k`: the resources in collection order, each once per occurrence of `k` among its tags. */
  function Occurrences<T>(data: seq<T>, tagsOf: T -> seq<string>, k: string): seq<T> {
    if data == [] then []
    else Occurrences(data[..|data| - 1], tagsOf, k) + Repeat(data[|data| - 1], Count(tagsOf(data[|data| - 1]), k))
  }

  lemma {:induction false} PushAllSpec<T>(m: Index<T>, tags: seq<string>, x: T)
    requires Valid(m)
    ensures Valid(PushAll(m, tags, x))
    ensures forall k :: Lookup(PushAll(m, tags, x), k) == Lookup(m, k) + Repeat(x, Count(tags, k))
  {
    if tags != [] {
      var init := tags[..|tags| - 1];
      PushAllSpec(m, init, x);
      PushSpec(PushAll(m, init, x), tags[|tags| - 1], x);
      forall k ensures Lookup(PushAll(m, tags, x), k) == Lookup(m, k) + Repeat(x, Count(tags, k)) {
        if tags[|tags| - 1] == k {
          assert Repeat(x, Count(init, k)) + [x] == Repeat(x, Count(tags, k));
        }
      }
    }
  }

  /**
   * The aggregated map is a valid `BTreeMap` whose bucket for every tag lists the resources in
   * collection order, once for each occurrence of the tag in a resource's tags (duplicates kept);
   * its keys are exactly the tags that occur.
   */
  lemma {:induction false} AggregateSpec<T>(data: seq<T>, tagsOf: T -> seq<string>)
    ensures Valid(Aggregate(data, tagsOf))
    ensures forall k :: Lookup(Aggregate(data, tagsOf), k) == Occurrences(data, tagsOf, k)
    ensures forall k :: HasKey(Aggregate(data, tagsOf), k) <==> Occurrences(data, tagsOf, k) != []
  {
    var m := Aggregate(data, tagsOf);
    if data != [] {
      var init := data[..|data| - 1];
      AggregateSpec(init, tagsOf);
      PushAllSpec(Aggregate(init, tagsOf), tagsOf(data[|data| - 1]), data[|data| - 1]);
    }
    forall k ensures HasKey(m, k) <==> Occurrences(data, tagsOf, k) != [] {
      HasKeyLookup(m, k);
    }
  }

  /** A tag has a non-empty bucket exactly when some resource carries it. */
  lemma {:induction false} OccurrencesNonEmpty<T>(data: seq<T>, tagsOf: T -> seq<string>, k: string)
    ensures Occurrences(data, tagsOf, k) != [] <==> exists i :: 0 <= i < |data| && k in tagsOf(data[i])
  {
    if data != [] {
      var init := data[..|data| - 1];
      var last := data[|data| - 1];
      OccurrencesNonEmpty(init, tagsOf, k);
      CountPositive(tagsOf(last), k);
      if exists i :: 0 <= i < |data| && k in tagsOf(data[i]) {
        var i :| 0 <= i < |data| && k in tagsOf(data[i]);
        if i < |data| - 1 {
          assert init[i] == data[i];
        }
      }
      if exists i :: 0 <= i < |init| && k in tagsOf(init[i]) {
        var i :| 0 <= i < |init| && k in tagsOf(init[i]);
        assert data[i] == init[i];
      }
    }
  }

  lemma {:induction false} CountPositive(tags: seq<string>, k: string)
    ensures Count(tags, k) > 0 <==> k in tags
  {
    if tags != [] {
      var init := tags[..|tags| - 1];
      CountPositive(init, k);
      assert tags == init + [tags[|tags| - 1]];
    }
  }

  /** The nested loop that fills the map. */
  method AggregateTags<T>(data: seq<T>, tagsOf: T -> seq<string>) returns (m: Index<T>)
    ensures m == Aggregate(data, tagsOf)
  {
    m := [];
    for i := 0 to |data|
      invariant m == Aggregate(data[..i], tagsOf)
    {
      var x := data[i];
      var tags := tagsOf(x);
      ghost var before := m;
      for j := 0 to |tags|
        invariant m == PushAll(before, tags[..j], x)
      {
        assert tags[..j + 1][..j] == tags[..j];
        m := Push(m, tags[j], x);
      }
      assert tags[..|tags|] == tags;
      assert data[..i + 1][..i] == data[..i];
    }
    assert data[..|data|] == data;
  }

  /** A bucket's size: the count the tag index is sorted by. */
  function BucketSize<T>(e: (string, seq<T>)): int {
    |e.1|
  }

  /** Ascending tag order, the map's iteration order. */
  predicate TagBefore<T>(a: (string, seq<T>), b: (string, seq<T>)) {
    LexLess(a.0, b.0)
  }

  /** The entry of the tag index for one bucket: a link to the tag's first list page, titled with its count. */
  function TagLink<T>(short: string, e: (string, seq<T>)): Link {
    Link("/" + short + "/tag/" + e.0 + "/", e.0 + " (" + NatToString(|e.1|) + ")")
  }

  function Pair<T>(short: string, e: (string, seq<T>)): (Link, int) {
    (TagLink(short, e), |e.1|)
  }

  function First(p: (Link, int)): Link {
    p.0
  }

  function Second(p: (Link, int)): int {
    p.1
  }

  /** The tag index as built: each entry paired with its count, stably sorted by count descending, the counts dropped. */
  function TagLinks<T>(short: string, m: Index<T>): seq<Link> {
    MapSeq(SortDesc(MapSeq(m, e => Pair(short, e)), Second), First)
  }

  /**
   * The tag index holds one link per tag, in the order of the map's entries sorted by bucket size,
   * largest first, with equal sizes in ascending tag order; the entries are exactly the map's.
   */
  lemma TagLinksOrder<T>(short: string, m: Index<T>)
    requires SortedKeys(m)
    ensures var entries := SortDesc(m, BucketSize);
      && TagLinks(short, m) == MapSeq(entries, e => TagLink(short, e))
      && OrderedBy(entries, BucketSize, TagBefore)
      && multiset(entries) == multiset(m)
  {
    var entries := SortDesc(m, BucketSize);
    SortDescMap(m, e => Pair(short, e), BucketSize, Second);
    SortDescTies(m, BucketSize, TagBefore);
    SortDescPermutation(m, BucketSize);
    assert MapSeq(MapSeq(entries, e => Pair(short, e)), First) == MapSeq(entries, e => TagLink(short, e));
  }
}
