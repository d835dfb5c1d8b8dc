/** Counts and byte totals of a backup: taken in listing order, checked again in key order. */
module ObjectTotals {
  import opened Options
  import opened ObjectIndex

  newtype int64 = x: int | -0x8000_0000_0000_0000 <= x < 0x8000_0000_0000_0000

  datatype Limits = Limits(maxObjects: nat, maxObject: int, maxTotal: int)

  /** The bounds that `validateRecoveryConfiguration` puts on the limits. */
  predicate LimitsOk(l: Limits) {
    1 <= l.maxObject <= 0x2_0000_0000 && l.maxObject <= l.maxTotal <= 0x10_0000_0000
  }

  datatype Totals = Totals(count: nat, logicalBytes: int, blobCount: nat, blobBytes: int)

  // ----- what the totals mean -----

  datatype Running = Running(logical: int, digests: set<string>, blobBytes: int)

  /** Every object adds its size; a digest adds its blob's size when it is first met. */
  function Add(r: Running, o: Object): Running {
    Running(r.logical + o.size, r.digests + {o.sha256}, r.blobBytes + if o.sha256 in r.digests then 0 else o.size)
  }

  function Fold(objects: seq<Object>): Running {
    if objects == [] then Running(0, {}, 0) else Add(Fold(objects[..|objects| - 1]), objects[|objects| - 1])
  }

  function Tally(objects: seq<Object>): Totals {
    Totals(|objects|, Fold(objects).logical, |Fold(objects).digests|, Fold(objects).blobBytes)
  }

  predicate Agree(x: Object, y: Object) {
    x.sha256 == y.sha256 ==> x.size == y.size
  }

  predicate Consistent(objects: seq<Object>) {
    forall x <- objects, y <- objects :: Agree(x, y)
  }

  lemma Snoc(objects: seq<Object>, o: Object)
    ensures Fold(objects + [o]) == Add(Fold(objects), o)
  {
    assert (objects + [o])[..|objects|] == objects;
  }

  lemma {:induction false} FoldedDigests(objects: seq<Object>, d: string)
    ensures d in Fold(objects).digests <==> exists i :: 0 <= i < |objects| && objects[i].sha256 == d
  {
    if objects != [] {
      var front := objects[..|objects| - 1];
      FoldedDigests(front, d);
      if d in Fold(front).digests {
        var i :| 0 <= i < |front| && front[i].sha256 == d;
        assert objects[i].sha256 == d;
      }
      if i :| 0 <= i < |objects| && objects[i].sha256 == d && i < |front| {
        assert front[i].sha256 == d;
      }
    }
  }

  lemma Swap(r: Running, x: Object, y: Object)
    requires Agree(x, y)
    ensures Add(Add(r, x), y) == Add(Add(r, y), x)
  {}

  /** An object can be counted last. */
  lemma {:induction false} MoveToEnd(front: seq<Object>, x: Object, back: seq<Object>)
    requires forall y <- back :: Agree(x, y)
    ensures Fold(front + [x] + back) == Add(Fold(front + back), x)
  {
    if back == [] {
      assert front + [x] + back == front + [x] && front + back == front;
      Snoc(front, x);
    } else {
      var init, y := back[..|back| - 1], back[|back| - 1];
      MoveToEnd(front, x, init);
      assert front + [x] + back == front + [x] + init + [y];
      assert front + back == front + init + [y];
      Snoc(front + [x] + init, y);
      Snoc(front + init, y);
      Swap(Fold(front + init), x, y);
    }
  }

  lemma DropOne(b: seq<Object>, i: nat)
    requires i < |b|
    ensures b == b[..i] + [b[i]] + b[i + 1..]
    ensures multiset(b[..i] + b[i + 1..]) == multiset(b) - multiset{b[i]}
  {
    assert b == b[..i] + [b[i]] + b[i + 1..];
  }

  lemma DropLast(a: seq<Object>)
    requires a != [] && Consistent(a)
    ensures multiset(a[..|a| - 1]) == multiset(a) - multiset{a[|a| - 1]} && Consistent(a[..|a| - 1])
  {
    assert a == a[..|a| - 1] + [a[|a| - 1]];
  }

  /** The totals do not depend on the order in which the objects are listed. */
  lemma {:induction false} FoldIsOrderFree(a: seq<Object>, b: seq<Object>)
    requires multiset(a) == multiset(b) && Consistent(a)
    ensures Fold(a) == Fold(b)
    decreases |a|, 1
  {
    SameObjects(a, b);
    if a != [] {
      var x := a[|a| - 1];
      assert x in a;
      var i :| 0 <= i < |b| && b[i] == x;
      LastMayMove(a, b, i);
    }
  }

  lemma {:induction false} LastMayMove(a: seq<Object>, b: seq<Object>, i: nat)
    requires a != [] && multiset(a) == multiset(b) && Consistent(a) && i < |b| && b[i] == a[|a| - 1]
    ensures Fold(a) == Fold(b)
    decreases |a|, 0
  {
    var x, front, back := b[i], b[..i], b[i + 1..];
    DropLast(a);
    DropOne(b, i);
    FoldIsOrderFree(a[..|a| - 1], front + back);
    forall y <- back ensures Agree(x, y) {
      SameObjects(a, b);
      assert y in b && x in b;
    }
    MoveToEnd(front, x, back);
  }

  // ----- the two loops -----

  /** An object as S3 lists and returns it. */
  datatype Item = Item(key: string, data: string, other: string)

  function Describe(item: Item, hash: string -> string): Object {
    Object(item.key, |item.data|, hash(item.data), item.other)
  }

  function Listing(items: seq<Item>, hash: string -> string): (objects: seq<Object>)
    ensures |objects| == |items|
  {
    seq(|items|, i requires 0 <= i < |items| => Describe(items[i], hash))
  }

  datatype Summary = Summary(objects: seq<Object>, totals: Totals)

  predicate NonNegative(objects: seq<Object>) {
    forall i :: 0 <= i < |objects| ==> 0 <= objects[i].size
  }

  lemma {:induction false} FoldGrows(objects: seq<Object>, n: nat)
    requires NonNegative(objects) && n <= |objects|
    ensures 0 <= Fold(objects[..n]).blobBytes <= Fold(objects[..n]).logical <= Fold(objects).logical
    decreases |objects|
  {
    if n == |objects| {
      assert objects[..n] == objects;
      if n > 0 {
        assert objects[..n - 1][..n - 1] == objects[..n - 1];
        FoldGrows(objects[..n - 1], n - 1);
      }
    } else {
      assert objects[..|objects| - 1][..n] == objects[..n];
      FoldGrows(objects[..|objects| - 1], n);
    }
  }

  lemma FoldTakes(objects: seq<Object>, n: nat)
    requires n < |objects|
    ensures Fold(objects[..n + 1]) == Add(Fold(objects[..n]), objects[n])
  {
    assert objects[..n + 1] == objects[..n] + [objects[n]];
    Snoc(objects[..n], objects[n]);
  }

  /** `readSelectedObjects`: 64-bit sums that cannot overflow, and an answer exactly when nothing is over a
      limit. `portable` stands for the checks on the key, the metadata and the content type. */
  method ReadSelectedObjects(items: seq<Item>, l: Limits, portable: Object -> bool,
      hash: string -> string) returns (summary: Option<Summary>)
    requires LimitsOk(l)
    ensures summary.Some? <==> Admits(Listing(items, hash), l, portable)
    ensures summary.Some? ==> summary.value.objects == SortByKey(Listing(items, hash)) &&
                              summary.value.totals == Tally(Listing(items, hash))
  {
    var objects := Listing(items, hash);
    var totals, ok := SumListing(objects, l, portable);
    assert ok ==> forall i :: 0 <= i < |items| ==> Bound(objects[i], l, portable);
    summary := if ok then Some(Summary(SortByKey(objects), totals)) else None;
  }

  /** Its loop, over the objects in the order S3 lists them. */
  method SumListing(objects: seq<Object>, l: Limits, portable: Object -> bool) returns (totals: Totals, ok: bool)
    requires LimitsOk(l) && NonNegative(objects)
    ensures ok <==> Admits(objects, l, portable)
    ensures ok ==> totals == Tally(objects)
  {
    totals, ok := Totals(0, 0, 0, 0), false;
    var digests: set<string> := {};
    var logicalBytes: int64, blobBytes: int64 := 0, 0;
    var n := 0;
    while n < |objects|
      invariant 0 <= n <= |objects| && n <= l.maxObjects && AllBound(objects, n, l, portable)
      invariant Fold(objects[..n]) == Running(logicalBytes as int, digests, blobBytes as int)
      invariant 0 <= blobBytes <= logicalBytes && logicalBytes as int <= l.maxTotal
    {
      AllBoundNext(objects, n, l, portable);
      var o := objects[n];
      if n >= l.maxObjects || !Bound(o, l, portable) { return; }
      FoldTakes(objects, n);
      logicalBytes := logicalBytes + o.size as int64;
      if logicalBytes as int > l.maxTotal {
        FoldGrows(objects, n + 1);
        return;
      }
      if o.sha256 !in digests {
        blobBytes := blobBytes + o.size as int64;
      }
      digests := digests + {o.sha256};
      n := n + 1;
    }
    assert objects[..n] == objects;
    totals, ok := Totals(|objects|, logicalBytes as int, |digests|, blobBytes as int), true;
  }

  /** The object checks of `validateRecoveryObjectIndex` that are about one object. */
  predicate Bound(o: Object, l: Limits, portable: Object -> bool) {
    0 <= o.size <= l.maxObject && portable(o)
  }

  predicate AllBound(objects: seq<Object>, n: nat, l: Limits, portable: Object -> bool)
    requires n <= |objects|
  {
    forall i :: 0 <= i < n ==> Bound(objects[i], l, portable)
  }

  lemma AllBoundNext(objects: seq<Object>, n: nat, l: Limits, portable: Object -> bool)
    requires n < |objects|
    ensures AllBound(objects, n, l, portable) && Bound(objects[n], l, portable) ==>
              AllBound(objects, n + 1, l, portable)
    ensures !Bound(objects[n], l, portable) ==> !AllBound(objects, |objects|, l, portable)
  {}

  lemma OverTotal(objects: seq<Object>, n: nat, l: Limits, portable: Object -> bool)
    requires n < |objects| && Fold(objects[..n + 1]).logical > l.maxTotal
    ensures AllBound(objects, |objects|, l, portable) ==> Fold(objects).logical > l.maxTotal
  {
    if AllBound(objects, |objects|, l, portable) {
      forall i | 0 <= i < |objects| ensures 0 <= objects[i].size { assert Bound(objects[i], l, portable); }
      FoldGrows(objects, n + 1);
    }
  }

  /** Nothing is over a limit. */
  predicate Admits(objects: seq<Object>, l: Limits, portable: Object -> bool) {
    |objects| <= l.maxObjects && AllBound(objects, |objects|, l, portable) && Fold(objects).logical <= l.maxTotal
  }

  /** An index that fits the manifest: every object and the total within bounds, one size for each digest, and
      the same counts and sums. */
  predicate Validates(manifest: Totals, objects: seq<Object>, l: Limits, portable: Object -> bool) {
    AllBound(objects, |objects|, l, portable) && Fold(objects).logical <= l.maxTotal && Consistent(objects) &&
    manifest == Tally(objects)
  }

  /** `validateRecoveryObjectIndex`: accepts exactly the consistent indexes with the manifest's totals. */
  method ValidateObjectIndex(manifest: Totals, objects: seq<Object>, l: Limits,
      portable: Object -> bool) returns (ok: bool)
    requires LimitsOk(l)
    ensures ok <==> Validates(manifest, objects, l, portable)
  {
    var blobs: map<string, int> := map[];
    var logicalBytes: int64, blobBytes: int64 := 0, 0;
    var n := 0;
    while n < |objects|
      invariant 0 <= n <= |objects| && Checked(objects, n, l, portable, blobs, logicalBytes as int, blobBytes as int)
    {
      var o := objects[n];
      AllBoundNext(objects, n, l, portable);
      if !Bound(o, l, portable) { return false; }
      FoldTakes(objects, n);
      var total := logicalBytes + o.size as int64;
      if total as int > l.maxTotal {
        OverTotal(objects, n, l, portable);
        return false;
      }
      if o.sha256 in blobs && blobs[o.sha256] != o.size {
        KnownDisagrees(objects, n, blobs);
        return false;
      }
      CheckedNext(objects, n, l, portable, blobs, logicalBytes as int, blobBytes as int);
      if o.sha256 !in blobs { blobBytes := blobBytes + o.size as int64; }
      logicalBytes, blobs, n := total, blobs[o.sha256 := o.size], n + 1;
    }
    assert objects[..n] == objects;
    KnownAgrees(objects, blobs);
    assert |blobs| == |blobs.Keys|;
    ok := |objects| == manifest.count && logicalBytes as int == manifest.logicalBytes &&
          |blobs| == manifest.blobCount && blobBytes as int == manifest.blobBytes;
  }

  /** The map of the loop: every digest met so far, with the size it had. */
  predicate Known(objects: seq<Object>, blobs: map<string, int>) {
    (forall i :: 0 <= i < |objects| ==> objects[i].sha256 in blobs && blobs[objects[i].sha256] == objects[i].size) &&
    (forall d <- blobs :: exists i :: 0 <= i < |objects| && objects[i].sha256 == d)
  }

  /** What the loop knows after `n` objects. */
  predicate Checked(objects: seq<Object>, n: nat, l: Limits, portable: Object -> bool, blobs: map<string, int>,
      logicalBytes: int, blobBytes: int)
  {
    n <= |objects| && AllBound(objects, n, l, portable) && Known(objects[..n], blobs) &&
    Fold(objects[..n]) == Running(logicalBytes, blobs.Keys, blobBytes) && 0 <= blobBytes <= logicalBytes <= l.maxTotal
  }

  lemma CheckedNext(objects: seq<Object>, n: nat, l: Limits, portable: Object -> bool, blobs: map<string, int>,
      logicalBytes: int, blobBytes: int)
    requires n < |objects| && Checked(objects, n, l, portable, blobs, logicalBytes, blobBytes)
    requires Bound(objects[n], l, portable) && logicalBytes + objects[n].size <= l.maxTotal
    requires objects[n].sha256 in blobs ==> blobs[objects[n].sha256] == objects[n].size
    ensures var o := objects[n];
            Checked(objects, n + 1, l, portable, blobs[o.sha256 := o.size], logicalBytes + o.size,
                    if o.sha256 in blobs then blobBytes else blobBytes + o.size)
  {
    var o := objects[n];
    AllBoundNext(objects, n, l, portable);
    FoldTakes(objects, n);
    KnownNext(objects, n, blobs);
    assert blobs[o.sha256 := o.size].Keys == blobs.Keys + {o.sha256};
  }

  lemma KnownNext(objects: seq<Object>, n: nat, blobs: map<string, int>)
    requires n < |objects| && Known(objects[..n], blobs) &&
             (objects[n].sha256 in blobs ==> blobs[objects[n].sha256] == objects[n].size)
    ensures Known(objects[..n + 1], blobs[objects[n].sha256 := objects[n].size])
  {
    var next := blobs[objects[n].sha256 := objects[n].size];
    var longer := objects[..n + 1];
    forall i | 0 <= i < |longer| ensures longer[i].sha256 in next && next[longer[i].sha256] == longer[i].size {
      if i < n { assert longer[i] == objects[..n][i]; }
    }
    forall d <- next ensures exists i :: 0 <= i < |longer| && longer[i].sha256 == d {
      if d in blobs {
        var i :| 0 <= i < n && objects[..n][i].sha256 == d;
        assert longer[i].sha256 == d;
      } else {
        assert longer[n].sha256 == d;
      }
    }
  }

  lemma KnownDisagrees(objects: seq<Object>, n: nat, blobs: map<string, int>)
    requires n < |objects| && Known(objects[..n], blobs) && objects[n].sha256 in blobs &&
             blobs[objects[n].sha256] != objects[n].size
    ensures !Consistent(objects)
  {
    var i :| 0 <= i < n && objects[..n][i].sha256 == objects[n].sha256;
    assert !Agree(objects[i], objects[n]);
    assert objects[i] in objects && objects[n] in objects;
  }

  lemma KnownAgrees(objects: seq<Object>, blobs: map<string, int>)
    requires Known(objects, blobs)
    ensures Consistent(objects)
  {}

  ghost predicate Injective(hash: string -> string) {
    forall a, b :: hash(a) == hash(b) ==> a == b
  }

  /** A hash that tells different bytes apart gives every blob one size. */
  lemma ListingIsConsistent(items: seq<Item>, hash: string -> string)
    requires Injective(hash)
    ensures Consistent(Listing(items, hash))
  {
    var all := Listing(items, hash);
    forall x <- all, y <- all ensures Agree(x, y) {
      var i :| 0 <= i < |all| && all[i] == x;
      var j :| 0 <= j < |all| && all[j] == y;
      assert x.sha256 == y.sha256 ==> items[i].data == items[j].data;
    }
  }

  lemma SameBounds(a: seq<Object>, b: seq<Object>, l: Limits, portable: Object -> bool)
    requires multiset(a) == multiset(b) && AllBound(a, |a|, l, portable)
    ensures AllBound(b, |b|, l, portable)
  {
    SameObjects(a, b);
    forall i | 0 <= i < |b| ensures Bound(b[i], l, portable) {
      assert b[i] in a;
      var j :| 0 <= j < |a| && a[j] == b[i];
    }
  }

  /** A backup's own index validates: whenever the objects could be read, the index in key order fits the
      totals taken in listing order. */
  lemma BackupIndexValidates(items: seq<Item>, l: Limits, portable: Object -> bool, hash: string -> string)
    requires Injective(hash) && Admits(Listing(items, hash), l, portable)
    ensures var all := Listing(items, hash); Validates(Tally(all), SortByKey(all), l, portable)
  {
    var all := Listing(items, hash);
    ListingIsConsistent(items, hash);
    SortKeeps(all);
    FoldIsOrderFree(all, SortByKey(all));
    SameObjects(all, SortByKey(all));
    SameBounds(all, SortByKey(all), l, portable);
  }

  /** The index of a recovery set, from its bytes: parsed, canonical, and fitting the manifest. */
  method LoadIndex(c: Codec, data: string, manifest: Totals, l: Limits,
      portable: Object -> bool) returns (objects: Option<seq<Object>>)
    requires LimitsOk(l)
    ensures objects.Some? <==> Parse(c, data, "").Some? && |Parse(c, data, "").value| <= l.maxObjects &&
                               Print(c, SortByKey(Parse(c, data, "").value)) == data &&
                               Validates(manifest, Parse(c, data, "").value, l, portable)
    ensures objects.Some? ==> objects == Parse(c, data, "")
  {
    objects := ParseObjectLines(c, data);
    if objects.None? { return; }
    if |objects.value| != manifest.count || |objects.value| > l.maxObjects { return None; }
    var canonical := CanonicalObjectLines(c, objects.value);
    if canonical != data { return None; }
    var ok := ValidateObjectIndex(manifest, objects.value, l, portable);
    if !ok { return None; }
  }

  /** Backup and restore together: what was read is written as lines, and the lines are loaded again. Whenever
      the objects could be read, the index loads exactly when each of its lines fits the scanner, and then it
      holds every object, in key order. */
  method BackupThenLoad(c: Codec, items: seq<Item>, l: Limits, portable: Object -> bool, hash: string -> string)
    returns (summary: Option<Summary>, loaded: Option<seq<Object>>)
    requires LimitsOk(l) && Lawful(c) && Injective(hash)
    requires var all := Listing(items, hash); DistinctKeys(all) && AllGood(c, all) && forall o <- all :: o.key != ""
    ensures summary.Some? <==> Admits(Listing(items, hash), l, portable)
    ensures summary.None? ==> loaded.None?
    ensures summary.Some? ==> (loaded.Some? <==> LinesFit(c, Listing(items, hash)))
    ensures loaded.Some? ==> summary.Some? && loaded.value == summary.value.objects == SortByKey(Listing(items, hash))
  {
    loaded := None;
    summary := ReadSelectedObjects(items, l, portable, hash);
    if summary.None? { return; }
    ghost var all := Listing(items, hash);
    var data := CanonicalObjectLines(c, summary.value.objects);
    SortKeeps(all);
    SameObjects(all, SortByKey(all));
    SortOrders(all);
    SortIsStable(SortByKey(all));
    RoundTrip(c, all);
    BackupIndexValidates(items, l, portable, hash);
    loaded := LoadIndex(c, data, summary.value.totals, l, portable);
  }
}
