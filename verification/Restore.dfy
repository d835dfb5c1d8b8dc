/** Restore and cleanup against a bucket, a database and a journal file, with a fault or a crash possible at
    every system call. */
module Restore {
  import opened Options
  import opened RestoreJournal

  /** What befalls one call: it works, fails without effect, takes effect but reports an error, or the process
      dies just before or just after the effect. The S3 client sends a call a second time when the answer to the
      first is lost (`Resent`): that makes no difference, except that a conditional PUT is then refused because of
      its own first attempt. */
  datatype Fate = Works | Fails | Lost | DiesBefore | DiesAfter | Resent
  datatype Status = Ok | Error | Crashed
  datatype PutResult = Created | Precondition | PutError | PutCrashed

  predicate Effective(f: Fate) { f == Works || f == Lost || f == DiesAfter || f == Resent }

  function Reported(f: Fate): Status {
    match f
    case Works => Ok
    case Resent => Ok
    case Fails => Error
    case Lost => Error
    case _ => Crashed
  }

  datatype CleanupResult = Completed | Unavailable | WrongBackup | UnknownKey | Modified | Interrupted | Died

  /** Between two bucket states, only listed objects with the backup's own bytes have gone. */
  predicate OnlyBackupBytesGone(before: map<string, Bytes>, after: map<string, Bytes>, index: map<string, Bytes>,
      listed: set<string>) {
    (forall k <- after :: k in before && after[k] == before[k]) &&
    (forall k <- before :: k !in after ==> k in listed && k in index && before[k] == index[k])
  }

  /** `selectedPrefixesEmpty`: nothing in the bucket lies under a configured prefix. */
  predicate Clear(prefixes: set<string>, bucket: map<string, Bytes>) {
    forall p, k :: p in prefixes && k in bucket ==> !(p <= k)
  }

  /** Every object of the index lies under a configured prefix. */
  predicate Selected(prefixes: set<string>, objects: seq<Object>) {
    forall i :: 0 <= i < |objects| ==> objects[i].prefix in prefixes
  }

  /** The key is in the index, and in the bucket only with the index's bytes. */
  predicate Intact(bucket: map<string, Bytes>, index: map<string, Bytes>, key: string) {
    key in index && (key in bucket ==> bucket[key] == index[key])
  }

  function Stopped(s: Status): (r: CleanupResult)
    ensures r == Interrupted || r == Died
  {
    if s == Crashed then Died else Interrupted
  }

  lemma ClearMeansApart(prefixes: set<string>, objects: seq<Object>, index: map<string, Bytes>,
      bucket: map<string, Bytes>)
    requires IndexOk(objects) && Describes(index, objects) && Selected(prefixes, objects) && Clear(prefixes, bucket)
    ensures index.Keys !! bucket.Keys
  {
    forall k | k in index ensures k !in bucket {
      assert k in Keys(objects);
      var i :| 0 <= i < |objects| && Keys(objects)[i] == k;
      assert objects[i].prefix <= k;
    }
  }

  /** After `n` turns: the bucket holds what was there and the first `n` keys, which were not. */
  predicate Placed(base: map<string, Bytes>, objects: seq<Object>, n: nat, bucket: map<string, Bytes>, j: Journal) {
    n <= |objects| && j.pending == "" && j.created == Keys(objects[..n]) && bucket.Keys == base.Keys + Listed(j) &&
    Listed(j) !! base.Keys
  }

  lemma NotYetPlaced(base: map<string, Bytes>, objects: seq<Object>, n: nat, bucket: map<string, Bytes>, j: Journal)
    requires IndexOk(objects) && n < |objects| && Placed(base, objects, n, bucket, j)
    ensures objects[n].key !in j.created && (objects[n].key in bucket ==> objects[n].key in base)
  {}

  lemma PlacedNext(base: map<string, Bytes>, objects: seq<Object>, n: nat, bucket: map<string, Bytes>, j: Journal)
    requires n < |objects| && Placed(base, objects, n, bucket, j) && objects[n].key !in bucket
    ensures Placed(base, objects, n + 1, bucket[objects[n].key := objects[n].data],
                   j.(created := j.created + [objects[n].key]))
  {
    var k := j.(created := j.created + [objects[n].key]);
    assert Listed(k) == Listed(j) + {objects[n].key};
    assert k.created == Keys(objects[..n + 1]);
  }

  lemma AllCreated(base: map<string, Bytes>, index: map<string, Bytes>, objects: seq<Object>,
      bucket: map<string, Bytes>, schema: bool, j: Journal)
    requires Describes(index, objects) && Covers(base, index, bucket, schema, j) &&
             Placed(base, objects, |objects|, bucket, j)
    ensures bucket == base + index && j.created == Keys(objects)
  {
    assert objects[..|objects|] == objects;
    forall i | 0 <= i < |objects| ensures objects[i].key in j.created { assert Keys(objects)[i] == objects[i].key; }
    forall k ensures k in j.created <==> k in index {
      if k in j.created { var i :| 0 <= i < |objects| && Keys(objects)[i] == k; }
    }
  }

  lemma GoneTogether(first: map<string, Bytes>, before: map<string, Bytes>, after: map<string, Bytes>,
      index: map<string, Bytes>, listed: set<string>, key: string)
    requires OnlyBackupBytesGone(first, before, index, listed) && key in listed
    requires after == before || (Intact(before, index, key) && after == before - {key})
    ensures OnlyBackupBytesGone(first, after, index, listed)
  {}

  lemma KeysAreListed(j: Journal, keys: seq<string>)
    requires ValidJournal(j) && keys == j.created + (if j.pending == "" then [] else [j.pending])
    ensures forall i :: 0 <= i < |keys| ==> keys[i] != "" && keys[i] in Listed(j)
    ensures forall i, k :: 0 <= i < k < |keys| ==> keys[i] != keys[k]
    ensures Listed(j) == set k | k in keys
  {
    forall i | 0 <= i < |keys| ensures keys[i] != "" && keys[i] in Listed(j) {
      if i < |j.created| { assert ValidKey(j.created[i], ""); }
    }
  }

  predicate SameButKeys(j: Journal, k: Journal) {
    k == j.(created := k.created, pending := k.pending) && Listed(k) <= Listed(j)
  }

  lemma ListedAfterCleaning(j: Journal, key: string)
    requires key != ""
    ensures Listed(Cleaned(j, key)) == Listed(j) - {key}
  {}

  class Destination {
    var bucket: map<string, Bytes>
    var schema: bool
    var journal: Option<Journal>
    var fates: seq<Fate>

    /** The key of a PUT that was refused after its own first attempt had taken effect. */
    ghost var resent: Option<string>

    ghost predicate Calm()
      reads this
    {
      forall f <- fates :: f == Works
    }

    /** Every call is sent once. */
    ghost predicate Once()
      reads this
    {
      Resent !in fates
    }

    /** After `n` calls that work, one is sent again; all later ones work. */
    ghost predicate ResendsAfter(n: nat)
      reads this
    {
      n < |fates| && fates[n] == Resent && forall i :: 0 <= i < |fates| && i != n ==> fates[i] == Works
    }

    /** The journal is there, readable, and covers the destination. */
    ghost predicate Tracked(base: map<string, Bytes>, index: map<string, Bytes>)
      reads this
    {
      journal.Some? && Fits(index, journal.value) && Covers(base, index, bucket, schema, journal.value)
    }

    /** The journal lists nothing that was there before. */
    ghost predicate Apart(base: map<string, Bytes>)
      reads this
    {
      journal.Some? ==> Listed(journal.value) !! base.Keys
    }

    constructor (contents: map<string, Bytes>, outside: seq<Fate>)
      ensures bucket == contents && !schema && journal.None? && fates == outside && resent.None?
    {
      bucket, schema, journal, fates, resent := contents, false, None, outside, None;
    }

    // ----- system calls -----

    method Next() returns (f: Fate)
      modifies this`fates
      ensures old(Calm()) ==> f == Works && Calm()
      ensures old(Once()) ==> f != Resent && Once()
      ensures forall n: nat :: old(ResendsAfter(n)) ==>
                if n == 0 then f == Resent && Calm() else f == Works && ResendsAfter(n - 1)
    {
      if fates == [] { return Works; }
      assert fates[0] in fates && forall g <- fates[1..] :: g in fates;
      f := fates[0];
      fates := fates[1..];
    }

    /** `writeCanonicalJSON`: the rename either happens or does not. */
    method WriteJournal(j: Journal) returns (s: Status)
      modifies this`journal, this`fates
      ensures journal == old(journal) || journal == Some(j)
      ensures s == Ok ==> journal == Some(j)
      ensures old(Calm()) ==> s == Ok && Calm()
      ensures old(Once()) ==> Once()
      ensures forall n: nat :: n > 0 && old(ResendsAfter(n)) ==> s == Ok && ResendsAfter(n - 1)
    {
      var f := Next();
      if Effective(f) { journal := Some(j); }
      s := Reported(f);
    }

    method RemoveJournal() returns (s: Status)
      modifies this`journal, this`fates
      ensures journal == old(journal) || journal == None
      ensures s == Ok ==> journal == None
      ensures old(Calm()) ==> s == Ok && Calm()
    {
      var f := Next();
      if Effective(f) { journal := None; }
      s := Reported(f);
    }

    /** A PUT with `If-None-Match: *`. A second attempt finds what the first one stored. */
    method Put(key: string, data: Bytes) returns (r: PutResult)
      modifies this`bucket, this`fates, this`resent
      ensures bucket == old(bucket) || (key !in old(bucket) && bucket == old(bucket)[key := data])
      ensures r == Created ==> key !in old(bucket) && bucket == old(bucket)[key := data]
      ensures r == Precondition && key in old(bucket) ==> bucket == old(bucket)
      ensures r == Precondition && key !in old(bucket) ==> bucket == old(bucket)[key := data]
      ensures resent == if r == Precondition && key !in old(bucket) then Some(key) else old(resent)
      ensures old(Calm()) ==> Calm() && (key !in old(bucket) ==> r == Created)
      ensures old(Once()) ==> Once() && resent == old(resent)
      ensures old(ResendsAfter(0)) ==> Calm() && r == Precondition
    {
      var f := Next();
      var exists_ := key in bucket;
      if Effective(f) && !exists_ { bucket := bucket[key := data]; }
      if f == Resent && !exists_ { resent := Some(key); }
      r := match Reported(f)
        case Ok => if exists_ || f == Resent then Precondition else Created
        case Error => PutError
        case Crashed => PutCrashed;
    }

    /** A GET: the data, or nothing when the key is missing. */
    method Fetch(key: string) returns (s: Status, data: Option<Bytes>)
      modifies this`fates
      ensures s == Ok ==> data == Get(bucket, key)
      ensures old(Calm()) ==> s == Ok && Calm()
      ensures old(Once()) ==> Once()
    {
      var f := Next();
      s, data := Reported(f), Get(bucket, key);
    }

    method Delete(key: string) returns (s: Status)
      modifies this`bucket, this`fates
      ensures bucket == old(bucket) || bucket == old(bucket) - {key}
      ensures s == Ok ==> bucket == old(bucket) - {key}
      ensures old(Calm()) ==> s == Ok && Calm()
    {
      var f := Next();
      if Effective(f) { bucket := bucket - {key}; }
      s := Reported(f);
    }

    method SetSchema(present: bool) returns (s: Status)
      modifies this`schema, this`fates
      ensures schema == old(schema) || schema == present
      ensures s == Ok ==> schema == present
      ensures old(Calm()) ==> s == Ok && Calm()
      ensures old(Once()) ==> Once()
    {
      var f := Next();
      if Effective(f) { schema := present; }
      s := Reported(f);
    }

    method Probe() returns (s: Status)
      modifies this`fates
      ensures old(Calm()) ==> s == Ok && Calm()
      ensures old(Once()) ==> Once()
      ensures forall n: nat :: n > 0 && old(ResendsAfter(n)) ==> s == Ok && ResendsAfter(n - 1)
    {
      var f := Next();
      s := Reported(f);
    }

    // ----- restore -----

    /** The conditional PUT and the read-back; `refused` when an object was already there. */
    method CreateObject(item: Object) returns (s: Status, refused: bool)
      requires resent.None?
      modifies this`bucket, this`fates, this`resent
      ensures bucket == old(bucket) || (item.key !in old(bucket) && bucket == old(bucket)[item.key := item.data])
      ensures s == Ok ==> item.key !in old(bucket) && bucket == old(bucket)[item.key := item.data]
      ensures refused ==> s == Error && item.key in bucket
      ensures resent == if refused && item.key !in old(bucket) then Some(item.key) else None
      ensures old(Calm()) ==> Calm() && (item.key !in old(bucket) ==> s == Ok)
      ensures old(Once()) ==> Once() && resent.None?
      ensures old(ResendsAfter(0)) ==> Calm() && refused
    {
      refused := false;
      var put := Put(item.key, item.data);
      if put != Created { return if put == PutCrashed then Crashed else Error, put == Precondition; }
      var actual;
      s, actual := Fetch(item.key);
      if s == Ok && actual != Some(item.data) { s := Error; }
    }

    /** One turn of the loop in `restoreObjects`: announce, create, read back, record. */
    method TurnObject(item: Object, state: Journal) returns (s: Status, next: Journal)
      requires journal == Some(state) && state.pending == "" && resent.None?
      modifies this`bucket, this`journal, this`fates, this`resent
      ensures journal.Some? && Turned(old(bucket), bucket, resent, state, item, journal.value)
      ensures s != Crashed ==> Turned(old(bucket), bucket, resent, state, item, next)
      ensures s == Ok ==> journal == Some(next) && next == state.(created := state.created + [item.key])
      ensures resent.Some? ==> s != Ok && (s != Crashed ==> next == state)
      ensures old(Calm()) ==> Calm() && (item.key !in old(bucket) ==> s == Ok)
      ensures old(Once()) ==> Once() && resent.None?
      ensures old(ResendsAfter(2)) && item.key !in old(bucket) ==>
                Calm() && s == Error && next == state && resent == Some(item.key)
    {
      next := state;
      s := Probe();
      if s != Ok { return; }
      next := next.(pending := item.key);
      s := WriteJournal(next);
      if s != Ok { return; }
      var refused;
      s, refused := CreateObject(item);
      if s != Ok {
        if refused {
          next := next.(pending := "");
          var ignored := WriteJournal(next);
          if ignored == Crashed { s := Crashed; }
        }
        return;
      }
      next := next.(created := next.created + [item.key], pending := "");
      s := WriteJournal(next);
    }

    /** The same turn, seen from a destination that the journal covers apart from what stays. */
    method RestoreObject(item: Object, state: Journal, ghost base: map<string, Bytes>,
        ghost index: map<string, Bytes>) returns (s: Status, next: Journal)
      requires journal == Some(state) && state.phase == Applying && state.pending == "" && resent.None?
      requires Accounted(base, index, bucket, schema, resent, state)
      requires ValidKey(item.key, item.prefix) && item.key in index && index[item.key] == item.data &&
               item.key !in state.created
      modifies this`bucket, this`journal, this`fates, this`resent
      ensures journal.Some? && Accounted(base, index, bucket, schema, resent, journal.value)
      ensures journal.value.backup == old(journal).value.backup
      ensures s != Crashed ==> Accounted(base, index, bucket, schema, resent, next) &&
                               next == state.(created := next.created, pending := next.pending)
      ensures s == Ok ==> journal == Some(next) && next == state.(created := state.created + [item.key]) &&
                          item.key !in old(bucket) && bucket == old(bucket)[item.key := item.data]
      ensures resent.Some? ==> s != Ok && resent == Some(item.key) && item.key !in old(bucket) && item.key in bucket
      ensures resent.Some? && s != Crashed ==> next == state
      ensures journal.value.phase == Applying
      ensures old(Calm()) ==> Calm() && (item.key !in old(bucket) ==> s == Ok)
      ensures old(Once()) ==> Once() && resent.None?
      ensures old(ResendsAfter(2)) && item.key !in old(bucket) ==>
                Calm() && s == Error && next == state && resent == Some(item.key) &&
                bucket == old(bucket)[item.key := item.data]
    {
      ghost var before := bucket;
      s, next := TurnObject(item, state);
      TurnedIsAccounted(base, index, before, bucket, schema, resent, state, item, journal.value);
      if s != Crashed { TurnedIsAccounted(base, index, before, bucket, schema, resent, state, item, next); }
    }

    /** The same turn, inside the loop over the index. */
    method RestoreNext(objects: seq<Object>, n: nat, state: Journal, ghost base: map<string, Bytes>,
        ghost index: map<string, Bytes>) returns (s: Status, next: Journal)
      requires IndexOk(objects) && Describes(index, objects) && n < |objects|
      requires journal == Some(state) && state.phase == Applying && resent.None?
      requires Placed(base, objects, n, bucket, state) && Accounted(base, index, bucket, schema, resent, state)
      modifies this`bucket, this`journal, this`fates, this`resent
      ensures journal.Some? && Accounted(base, index, bucket, schema, resent, journal.value)
      ensures journal.value.backup == state.backup && journal.value.phase == Applying
      ensures s != Crashed ==> Accounted(base, index, bucket, schema, resent, next) &&
                               next == state.(created := next.created, pending := next.pending)
      ensures s == Ok ==> journal == Some(next) && resent.None? && Placed(base, objects, n + 1, bucket, next)
      ensures resent.Some? ==> s != Ok && resent.value in index && resent.value !in base
      ensures resent.Some? && s != Crashed ==> resent.value !in Listed(next)
      ensures old(Calm()) ==> Calm() && (objects[n].key !in base ==> s == Ok)
      ensures old(Once()) ==> Once() && resent.None?
      ensures old(ResendsAfter(2)) && objects[n].key !in base ==>
                Calm() && s == Error && next == state && resent == Some(objects[n].key) &&
                bucket == old(bucket)[objects[n].key := objects[n].data]
    {
      NotYetPlaced(base, objects, n, bucket, state);
      s, next := RestoreObject(objects[n], state, base, index);
      if s == Ok { PlacedNext(base, objects, n, old(bucket), state); }
    }

    /** The loop. */
    method RestoreObjects(objects: seq<Object>, state: Journal, ghost base: map<string, Bytes>,
        ghost index: map<string, Bytes>) returns (s: Status, next: Journal)
      requires IndexOk(objects) && Describes(index, objects)
      requires journal == Some(state) && state.phase == Applying && state.pending == "" && state.created == []
      requires bucket == base && resent.None? && Accounted(base, index, bucket, schema, resent, state)
      modifies this`bucket, this`journal, this`fates, this`resent
      ensures journal.Some? && Accounted(base, index, bucket, schema, resent, journal.value)
      ensures journal.value.backup == old(journal).value.backup
      ensures s != Crashed ==> Accounted(base, index, bucket, schema, resent, next) &&
                               next == state.(created := next.created, pending := next.pending)
      ensures s == Ok ==> journal == Some(next) && next.pending == "" && next.created == Keys(objects) &&
                          bucket == base + index
      ensures resent.Some? ==> s != Ok && resent.value in index && resent.value !in base
      ensures resent.Some? && s != Crashed ==> resent.value !in Listed(next)
      ensures journal.value.phase == Applying
      ensures old(Calm()) ==> Calm() && (index.Keys !! base.Keys ==> s == Ok)
      ensures old(Once()) ==> Once() && resent.None?
      ensures old(ResendsAfter(2)) && objects != [] && objects[0].key !in base ==>
                Calm() && s == Error && next == state && resent == Some(objects[0].key) &&
                bucket == base[objects[0].key := objects[0].data]
    {
      s, next := Ok, state;
      var n := 0;
      while n < |objects|
        invariant 0 <= n <= |objects| && s == Ok && resent.None?
        invariant journal == Some(next) && next == state.(created := next.created) &&
                  Placed(base, objects, n, bucket, next)
        invariant Accounted(base, index, bucket, schema, resent, next)
        invariant old(Calm()) ==> Calm()
        invariant old(Once()) ==> Once()
        invariant n == 0 ==> next == state && bucket == base && (old(ResendsAfter(2)) ==> ResendsAfter(2))
        invariant old(ResendsAfter(2)) && objects != [] && objects[0].key !in base ==> n == 0
      {
        s, next := RestoreNext(objects, n, next, base, index);
        if s != Ok { return; }
        n := n + 1;
      }
      AllCreated(base, index, objects, bucket, schema, next);
    }

    /** The schema half of `applyRestore`: announce, create, record. */
    method RestoreSchema(state: Journal, ghost base: map<string, Bytes>,
        ghost index: map<string, Bytes>) returns (s: Status, next: Journal)
      requires journal == Some(state) && state.phase == Applying && !state.schemaCreated && !state.schemaPending
      requires resent.None? && Accounted(base, index, bucket, schema, resent, state)
      modifies this`schema, this`journal, this`fates
      ensures old(Once()) ==> Once()
      ensures journal.Some? && Accounted(base, index, bucket, schema, resent, journal.value)
      ensures journal.value.backup == old(journal).value.backup
      ensures s != Crashed ==> Accounted(base, index, bucket, schema, resent, next) &&
                               next == state.(schemaCreated := next.schemaCreated, schemaPending := next.schemaPending)
      ensures s == Ok ==> journal == Some(next) && schema && next.schemaCreated && !next.schemaPending
      ensures journal.value.phase == Applying
      ensures old(Calm()) ==> s == Ok && Calm()
    {
      next := state.(schemaPending := true);
      assert Listed(next) == Listed(state);
      s := WriteJournal(next);
      if s != Ok { return; }
      s := SetSchema(true);
      if s != Ok { return; }
      s := Probe();
      if s != Ok { return; }
      next := next.(schemaPending := false, schemaCreated := true);
      assert Listed(next) == Listed(state);
      s := WriteJournal(next);
    }

    /** The last check and the phase that goes with it. */
    method Verify(state: Journal, ghost base: map<string, Bytes>, ghost index: map<string, Bytes>)
      returns (s: Status, next: Journal)
      requires journal == Some(state) && state.phase == Applying
      requires resent.None? && Accounted(base, index, bucket, schema, resent, state)
      requires state.pending == "" && state.schemaCreated && !state.schemaPending
      modifies this`journal, this`fates
      ensures journal == Some(state) || journal == Some(state.(phase := Verified))
      ensures next == state || next == state.(phase := Verified)
      ensures Accounted(base, index, bucket, schema, resent, state.(phase := Verified))
      ensures s == Ok ==> journal == Some(next) && next.phase == Verified
      ensures old(Calm()) ==> s == Ok && Calm()
      ensures old(Once()) ==> Once()
    {
      next := state;
      var done := next.(phase := Verified);
      assert Listed(done) == Listed(next);
      SameKeysCover(base, index, bucket, schema, next, done);
      s := Probe();
      if s != Ok { return; }
      next := done;
      s := WriteJournal(next);
    }

    /** The body of `applyRestore` between the first journal write and the receipt. */
    method RestoreAll(objects: seq<Object>, first: Journal, ghost base: map<string, Bytes>,
        ghost index: map<string, Bytes>) returns (s: Status, next: Journal)
      requires IndexOk(objects) && Describes(index, objects) && first.phase == Applying && journal == Some(first)
      requires first.created == [] && first.pending == "" && !first.schemaCreated && !first.schemaPending &&
               first.failure == NoFailure
      requires bucket == base && resent.None? && Accounted(base, index, bucket, schema, resent, first)
      modifies this`bucket, this`schema, this`journal, this`fates, this`resent
      ensures journal.Some? && Accounted(base, index, bucket, schema, resent, journal.value)
      ensures journal.value.backup == old(journal).value.backup
      ensures s != Crashed ==> Accounted(base, index, bucket, schema, resent, next) && next.backup == first.backup
      ensures s == Ok ==> journal == Some(next) && next.phase == Verified && bucket == base + index && schema
      ensures resent.Some? ==> s != Ok && resent.value in index && resent.value !in base
      ensures resent.Some? && s != Crashed ==> resent.value !in Listed(next)
      ensures journal.value.phase != Failed
      ensures old(Calm()) ==> Calm() && (index.Keys !! base.Keys ==> s == Ok)
      ensures old(Once()) ==> Once() && resent.None?
      ensures old(ResendsAfter(2)) && objects != [] && objects[0].key !in base ==>
                Calm() && s == Error && next == first && resent == Some(objects[0].key) && schema == old(schema) &&
                bucket == base[objects[0].key := objects[0].data]
    {
      s, next := RestoreObjects(objects, first, base, index);
      if s != Ok { return; }
      s, next := RestoreSchema(next, base, index);
      if s != Ok { return; }
      s, next := Verify(next, base, index);
    }

    /** The deferred write of `applyRestore`. */
    method RecordFailure(next: Journal, ghost base: map<string, Bytes>, ghost index: map<string, Bytes>)
      returns (s: Status)
      requires journal.Some? && Accounted(base, index, bucket, schema, resent, journal.value)
      requires Accounted(base, index, bucket, schema, resent, next)
      modifies this`journal, this`fates
      ensures journal == old(journal) || journal == Some(Broken(next))
      ensures journal.Some? && Accounted(base, index, bucket, schema, resent, journal.value)
      ensures old(Calm()) ==> Calm() && s == Ok && journal == Some(Broken(next))
    {
      assert Listed(Broken(next)) == Listed(next);
      BrokenCovers(Stays(base, index, resent, Some(next)), index, bucket, schema, next);
      s := WriteJournal(Broken(next));
    }

    /** The body, and the failure recorded when there was one. */
    method RestoreOrRecord(objects: seq<Object>, first: Journal, ghost base: map<string, Bytes>,
        ghost index: map<string, Bytes>) returns (s: Status)
      requires IndexOk(objects) && Describes(index, objects) && first.phase == Applying && journal == Some(first)
      requires first.created == [] && first.pending == "" && !first.schemaCreated && !first.schemaPending &&
               first.failure == NoFailure
      requires bucket == base && resent.None? && Accounted(base, index, bucket, schema, resent, first)
      modifies this`bucket, this`schema, this`journal, this`fates, this`resent
      ensures journal.Some? && Accounted(base, index, bucket, schema, resent, journal.value)
      ensures journal.value.backup == first.backup
      ensures s == Ok ==> journal.value.phase == Verified && bucket == base + index && schema
      ensures resent.Some? ==> s != Ok && resent.value in index && resent.value !in base
      ensures resent.Some? && journal.value.phase == Failed ==> resent.value !in Listed(journal.value)
      ensures old(Calm()) && index.Keys !! base.Keys ==> s == Ok
      ensures old(Once()) ==> resent.None?
      ensures old(ResendsAfter(2)) && objects != [] && objects[0].key !in base ==>
                Calm() && s == Error && resent == Some(objects[0].key) && journal == Some(Broken(first)) &&
                schema == old(schema) && bucket == base[objects[0].key := objects[0].data]
    {
      var next;
      s, next := RestoreAll(objects, first, base, index);
      if s == Error {
        var ignored := RecordFailure(next, base, index);
        assert Listed(Broken(next)) == Listed(next);
        if ignored == Crashed { s := Crashed; }
      }
    }

    /** `applyRestore`. The deferred write records the failure unless the process died. */
    method ApplyRestore(prefixes: set<string>, objects: seq<Object>, backup: string,
        ghost index: map<string, Bytes>) returns (s: Status)
      requires IndexOk(objects) && Describes(index, objects) && Selected(prefixes, objects) && resent.None?
      modifies this`bucket, this`schema, this`journal, this`fates, this`resent
      ensures old(journal.None? && !schema) ==>
                Recoverable(Stays(old(bucket), index, resent, journal), index, bucket, schema, journal)
      ensures old(journal.Some? || schema) ==>
                s == Error && bucket == old(bucket) && schema == old(schema) && journal == old(journal) && resent.None?
      ensures s == Ok ==> journal.Some? && journal.value.phase == Verified && bucket == old(bucket) + index && schema
      ensures old(Calm() && journal.None? && !schema) && Clear(prefixes, old(bucket)) ==> s == Ok
      ensures journal != old(journal) ==>
                journal.Some? && journal.value.backup == backup && Clear(prefixes, old(bucket))
      ensures resent.Some? ==> s != Ok && journal.Some? && resent.value in index && resent.value !in old(bucket)
      ensures resent.Some? && journal.Some? && journal.value.phase == Failed ==> resent.value !in Listed(journal.value)
      ensures old(Once()) ==> resent.None?
      ensures old(ResendsAfter(3) && journal.None? && !schema) && Clear(prefixes, old(bucket)) && objects != [] ==>
                Calm() && s == Error && resent == Some(objects[0].key) && journal.Some? &&
                journal.value.phase == Failed && Listed(journal.value) == {} && !schema &&
                bucket == old(bucket)[objects[0].key := objects[0].data]
    {
      if journal.Some? || schema { return Error; }
      if !Clear(prefixes, bucket) { return Error; }
      ghost var base := bucket;
      var first := Journal(Applying, backup, [], "", false, false, NoFailure);
      assert Listed(first) == {} && Listed(Broken(first)) == {};
      ClearMeansApart(prefixes, objects, index, bucket);
      s := WriteJournal(first);
      if s != Ok { return; }
      s := RestoreOrRecord(objects, first, base, index);
    }

    // ----- cleanup -----

    /** One turn of the cleanup loop: check the bytes, delete, and strike the key from the journal. Whatever
        else is in the bucket, the only object that can disappear is this one, and only with the backup's bytes. */
    method CleanObject(key: string, index: map<string, Bytes>, state: Journal) returns (r: CleanupResult, next: Journal)
      requires journal == Some(state)
      modifies this`bucket, this`journal, this`fates
      ensures bucket == old(bucket) || (Intact(old(bucket), index, key) && bucket == old(bucket) - {key})
      ensures journal == Some(state) || (journal == Some(Cleaned(state, key)) && bucket == old(bucket) - {key})
      ensures r in {Completed, UnknownKey, Modified, Interrupted, Died}
      ensures r == Completed ==> journal == Some(next) && next == Cleaned(state, key)
      ensures r in {UnknownKey, Modified} ==> !Intact(old(bucket), index, key)
      ensures old(Calm()) ==> Calm() && (Intact(old(bucket), index, key) ==> r == Completed)
    {
      next := state;
      if key !in index { return UnknownKey, next; }
      var s, data := Fetch(key);
      if s != Ok { return Stopped(s), next; }
      if data.Some? {
        if data.value != index[key] { return Modified, next; }
        s := Delete(key);
        if s != Ok { return Stopped(s), next; }
      }
      assert bucket == old(bucket) - {key};
      next := Cleaned(state, key);
      s := WriteJournal(next);
      r := if s == Ok then Completed else Stopped(s);
    }

    /** The same turn, seen from a destination that the journal covers. */
    method CleanListed(key: string, index: map<string, Bytes>, state: Journal,
        ghost base: map<string, Bytes>) returns (r: CleanupResult, next: Journal)
      requires journal == Some(state) && state.phase == Failed && key != ""
      modifies this`bucket, this`journal, this`fates
      ensures bucket == old(bucket) || (Intact(old(bucket), index, key) && bucket == old(bucket) - {key})
      ensures journal.Some? && SameButKeys(state, journal.value)
      ensures r in {Completed, UnknownKey, Modified, Interrupted, Died}
      ensures r == Completed ==>
                journal == Some(next) && SameButKeys(state, next) && Listed(next) == Listed(state) - {key}
      ensures old(Tracked(base, index)) && key in Listed(state) && key !in base ==>
              Tracked(base, index) && r in {Completed, Interrupted, Died} && (old(Calm()) ==> r == Completed)
      ensures old(Calm()) ==> Calm()
    {
      ListedAfterCleaning(state, key);
      if Tracked(base, index) && key in Listed(state) &&
        key !in base { CleaningCovers(base, index, bucket, schema, state, key); }
      r, next := CleanObject(key, index, state);
    }

    /** The loop over the listed keys. */
    method CleanObjects(index: map<string, Bytes>, state: Journal,
        ghost base: map<string, Bytes>) returns (r: CleanupResult, next: Journal)
      requires journal == Some(state) && state.phase == Failed && ValidJournal(state)
      modifies this`bucket, this`journal, this`fates
      ensures OnlyBackupBytesGone(old(bucket), bucket, index, Listed(state))
      ensures journal.Some? && SameButKeys(state, journal.value)
      ensures r == Completed ==> journal == Some(next) && Listed(next) == {}
      ensures r in {Completed, UnknownKey, Modified, Interrupted, Died}
      ensures old(Tracked(base, index)) && Listed(state) !! base.Keys ==>
              Tracked(base, index) && r in {Completed, Interrupted, Died} && (old(Calm()) ==> r == Completed)
      ensures old(Calm()) ==> Calm()
    {
      var keys := state.created + (if state.pending == "" then [] else [state.pending]);
      KeysAreListed(state, keys);
      r, next := CleanKeys(keys, index, state, base);
    }

    method CleanKeys(keys: seq<string>, index: map<string, Bytes>, state: Journal,
        ghost base: map<string, Bytes>) returns (r: CleanupResult, next: Journal)
      requires journal == Some(state) && state.phase == Failed && Listed(state) == set k | k in keys
      requires forall i :: 0 <= i < |keys| ==> keys[i] != ""
      requires forall i, k :: 0 <= i < k < |keys| ==> keys[i] != keys[k]
      modifies this`bucket, this`journal, this`fates
      ensures OnlyBackupBytesGone(old(bucket), bucket, index, Listed(state))
      ensures journal.Some? && SameButKeys(state, journal.value)
      ensures r == Completed ==> journal == Some(next) && Listed(next) == {}
      ensures r in {Completed, UnknownKey, Modified, Interrupted, Died}
      ensures old(Tracked(base, index)) && Listed(state) !! base.Keys ==>
              Tracked(base, index) && r in {Completed, Interrupted, Died} && (old(Calm()) ==> r == Completed)
      ensures old(Calm()) ==> Calm()
    {
      r, next := Completed, state;
      ghost var ours := Tracked(base, index) && Listed(state) !! base.Keys;
      var n := 0;
      while n < |keys|
        invariant 0 <= n <= |keys| && r == Completed && journal == Some(next) && SameButKeys(state, next)
        invariant Listed(next) == Listed(state) - (set k | k in keys[..n])
        invariant OnlyBackupBytesGone(old(bucket), bucket, index, Listed(state))
        invariant ours ==> Tracked(base, index)
        invariant old(Calm()) ==> Calm()
      {
        assert keys[..n + 1] == keys[..n] + [keys[n]] && keys[n] !in keys[..n];
        ghost var was := bucket;
        r, next := CleanListed(keys[n], index, next, base);
        GoneTogether(old(bucket), was, bucket, index, Listed(state), keys[n]);
        if r != Completed { return; }
        n := n + 1;
      }
      assert keys[..n] == keys;
    }

    /** Dropping an announced or recorded schema, and striking it from the journal. */
    method DropSchema(state: Journal, ghost base: map<string, Bytes>,
        ghost index: map<string, Bytes>) returns (s: Status, next: Journal)
      requires journal == Some(state) && state.phase == Failed
      modifies this`schema, this`journal, this`fates
      ensures journal.Some? && journal.value.backup == state.backup && Listed(journal.value) == Listed(state)
      ensures s == Ok ==> journal == Some(next) && next == state.(schemaPending := false, schemaCreated := false) &&
                          !schema
      ensures old(Tracked(base, index)) ==> Tracked(base, index)
      ensures old(Calm()) ==> s == Ok && Calm()
    {
      next := state.(schemaPending := false, schemaCreated := false);
      assert Listed(next) == Listed(state);
      s := Probe();
      if s != Ok { return; }
      if schema {
        s := SetSchema(false);
        if s != Ok { return; }
      }
      s := WriteJournal(next);
    }

    /** The end of `cleanupRestore`: drop an announced or recorded schema, then the journal itself. */
    method CleanSchema(state: Journal, ghost base: map<string, Bytes>,
        ghost index: map<string, Bytes>) returns (r: CleanupResult)
      requires journal == Some(state) && state.phase == Failed && Listed(state) == {}
      modifies this`schema, this`journal, this`fates
      ensures r in {Completed, Interrupted, Died}
      ensures r == Completed ==> journal.None?
      ensures journal.Some? ==> journal.value.backup == state.backup && Listed(journal.value) == {}
      ensures old(Tracked(base, index)) ==> Recoverable(base, index, bucket, schema, journal)
      ensures old(Tracked(base, index)) && r == Completed ==> bucket == base && !schema
      ensures old(Calm()) ==> r == Completed && Calm()
    {
      var next := state;
      var s := Ok;
      if state.schemaPending || state.schemaCreated {
        s, next := DropSchema(state, base, index);
        if s != Ok { return Stopped(s); }
        assert Listed(next) == Listed(state);
      }
      if old(Tracked(base, index)) { EmptyJournalMeansUntouched(base, index, bucket, schema, next); }
      s := RemoveJournal();
      r := if s == Ok then Completed else Stopped(s);
    }

    /** The cleanup proper, once the journal has been read and accepted. */
    method Cleanup(index: map<string, Bytes>, read: Journal, ghost base: map<string, Bytes>) returns (r: CleanupResult)
      requires journal == Some(read) && ValidJournal(read)
      modifies this`bucket, this`schema, this`journal, this`fates
      ensures r in {Completed, UnknownKey, Modified, Interrupted, Died}
      ensures OnlyBackupBytesGone(old(bucket), bucket, index, Listed(read))
      ensures journal.Some? ==> journal.value.backup == read.backup && Listed(journal.value) <= Listed(read)
      ensures old(Tracked(base, index)) && Listed(read) !! base.Keys ==>
              Recoverable(base, index, bucket, schema, journal) && r in {Completed, Interrupted, Died} &&
              (r == Completed ==> journal.None? && bucket == base && !schema) && (old(Calm()) ==> r == Completed)
    {
      var state := read.(phase := Failed, failure := CleanupIncomplete);
      assert Listed(state) == Listed(read) && ValidJournal(state);
      var s := WriteJournal(state);
      if s != Ok { return Stopped(s); }
      var next;
      r, next := CleanObjects(index, state, base);
      if r != Completed { return; }
      r := CleanSchema(next, base, index);
    }

    /** `cleanupRestore` with its approval given. */
    method CleanupRestore(index: map<string, Bytes>, backup: string,
        ghost base: map<string, Bytes>) returns (r: CleanupResult)
      modifies this`bucket, this`schema, this`journal, this`fates
      ensures old(journal.None? || journal.value.phase == Verified || journal.value.backup != backup) ==>
              bucket == old(bucket) && schema == old(schema) && journal == old(journal) &&
              r in {Unavailable, WrongBackup}
      ensures old(journal.Some?) ==> OnlyBackupBytesGone(old(bucket), bucket, index, Listed(old(journal).value))
      ensures old(Recoverable(base, index, bucket, schema, journal) && Apart(base)) ==>
              Recoverable(base, index, bucket, schema, journal) && Apart(base) && r !in {UnknownKey, Modified} &&
              (r == Completed ==> journal.None? && bucket == base && !schema)
      ensures old(Tracked(base, index) && Calm() && Apart(base)) ==>
              (r == Completed <==> old(journal).value.phase != Verified && old(journal).value.backup == backup)
      ensures journal.Some? ==> old(journal.Some?) && journal.value.backup == old(journal).value.backup
    {
      if journal.None? { return Unavailable; }
      var read := journal.value;
      if !ValidJournal(read) || read.phase == Verified { return Unavailable; }
      if read.backup != backup { return WrongBackup; }
      r := Cleanup(index, read, base);
    }
  }

  lemma LeftApart(contents: map<string, Bytes>, index: map<string, Bytes>, resent: Option<string>, j: Journal)
    requires Fits(index, j) && index.Keys !! contents.Keys
    ensures Listed(j) !! Stays(contents, index, resent, Some(j)).Keys
  {}

  /** A restore that may stop anywhere, and then cleanups that may stop anywhere, until one completes. Each
      session has its own faults. `refused` is the key of a PUT that was refused after its own first attempt had
      taken effect, and `left` the journal as the restore left it: a completed cleanup leaves exactly the original
      bucket, plus exactly the object of the refused PUT when that journal does not list it, as it never does once
      the failure is recorded. */
  method RestoreThenCleanups(
    contents: map<string, Bytes>, prefixes: set<string>, objects: seq<Object>, index: map<string, Bytes>,
    backup: string, sessions: seq<seq<Fate>>)
    returns (d: Destination, last: CleanupResult, ghost refused: Option<string>, ghost left: Option<Journal>)
    requires IndexOk(objects) && Describes(index, objects) && Selected(prefixes, objects) && |sessions| >= 1
    ensures fresh(d)
    ensures Recoverable(Stays(contents, index, refused, left), index, d.bucket, d.schema, d.journal)
    ensures last == Completed && Clear(prefixes, contents) ==>
              d.bucket == Stays(contents, index, refused, left) && !d.schema && d.journal.None?
    ensures refused.Some? ==>
              Resent in sessions[0] && left.Some? && refused.value in index && refused.value !in contents
    ensures refused.Some? && left.value.phase == Failed ==> Forgets(index, refused, left)
    ensures last !in {UnknownKey, Modified}
  {
    d := new Destination(contents, sessions[0]);
    last := Unavailable;
    var restored := d.ApplyRestore(prefixes, objects, backup, index);
    refused, left := d.resent, d.journal;
    if !Clear(prefixes, contents) { return; }
    ClearMeansApart(prefixes, objects, index, contents);
    ghost var base := Stays(contents, index, refused, left);
    if left.Some? { LeftApart(contents, index, refused, left.value); }
    var n := 1;
    while n < |sessions| && last != Completed
      invariant 1 <= n <= |sessions|
      invariant Recoverable(base, index, d.bucket, d.schema, d.journal) && d.Apart(base)
      invariant last == Completed ==> d.bucket == base && !d.schema && d.journal.None?
      invariant last !in {UnknownKey, Modified}
    {
      d.fates := sessions[n];
      last := d.CleanupRestore(index, backup, base);
      n := n + 1;
    }
  }

  /** A completed cleanup leaves exactly the original bucket if and only if no refused PUT was forgotten; when
      every call is sent once, none is refused. */
  lemma NothingStaysIff(contents: map<string, Bytes>, index: map<string, Bytes>, refused: Option<string>,
      left: Option<Journal>)
    requires refused.Some? ==> left.Some? && refused.value in index && refused.value !in contents
    ensures Stays(contents, index, refused, left) == contents <==>
              refused.None? || refused.value in Listed(left.value)
    ensures refused.Some? && refused.value !in Listed(left.value) ==>
              Stays(contents, index, refused, left) == contents[refused.value := index[refused.value]]
  {
    if refused.Some? && refused.value !in Listed(left.value) {
      assert refused.value in Stays(contents, index, refused, left);
    }
  }

  /** The failing run: the answer to the first PUT is lost, the client sends it again and is refused, and every
      other call works. The cleanup completes, and the object stays. */
  method ResentPutLeavesItsObject(
    contents: map<string, Bytes>, prefixes: set<string>, objects: seq<Object>, index: map<string, Bytes>,
    backup: string) returns (d: Destination, last: CleanupResult)
    requires IndexOk(objects) && Describes(index, objects) && Selected(prefixes, objects)
    requires Clear(prefixes, contents) && objects != []
    ensures fresh(d)
    ensures last == Completed && d.journal.None? && !d.schema
    ensures d.bucket == contents[objects[0].key := objects[0].data] && objects[0].key !in contents
  {
    d := new Destination(contents, [Works, Works, Works, Resent]);
    var restored := d.ApplyRestore(prefixes, objects, backup, index);
    ClearMeansApart(prefixes, objects, index, contents);
    ghost var base := Stays(contents, index, d.resent, d.journal);
    assert base == contents[objects[0].key := objects[0].data];
    last := d.CleanupRestore(index, backup, base);
  }
}
