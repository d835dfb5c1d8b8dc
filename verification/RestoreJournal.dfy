/** The restore journal: what it must say for a cleanup to find everything a restore created. */
module RestoreJournal {
  import opened Options

  type Bytes = string

  /** An entry of the backup's object index. Size and SHA-256 stand for the bytes themselves. */
  datatype Object = Object(key: string, prefix: string, data: Bytes)

  datatype Phase = Applying | Failed | Verified

  /** The fixed texts of the journal's failure field. */
  datatype Note = NoFailure | RestoreIncomplete | CleanupIncomplete

  /** `pending` is the empty string when no object is in flight. */
  datatype Journal = Journal(
    phase: Phase, backup: string, created: seq<string>, pending: string, schemaCreated: bool, schemaPending: bool,
    failure: Note)

  // ----- keys -----

  predicate DotSegment(key: string) {
    exists i, j :: 0 <= i <= j <= |key| && (i == 0 || key[i - 1] == '/') && (j == |key| || key[j] == '/') &&
                   (key[i..j] == "." || key[i..j] == "..")
  }

  /** `validRecoveryObjectKey`. */
  predicate ValidKey(key: string, prefix: string) {
    key != "" && prefix <= key && '\\' !in key && '\0' !in key && !DotSegment(key)
  }

  /** What `verifyBackupArtifactsDetailed` has established about an index: distinct keys under their prefixes. */
  predicate IndexOk(objects: seq<Object>) {
    (forall i :: 0 <= i < |objects| ==> objects[i].prefix != "" && ValidKey(objects[i].key, objects[i].prefix)) &&
    (forall i, j :: 0 <= i < j < |objects| ==> objects[i].key != objects[j].key)
  }

  function Keys(objects: seq<Object>): (keys: seq<string>)
    ensures |keys| == |objects|
  {
    seq(|objects|, i requires 0 <= i < |objects| => objects[i].key)
  }

  /** The map from key to bytes that the cleanup builds from the index. */
  predicate Describes(index: map<string, Bytes>, objects: seq<Object>) {
    (forall i :: 0 <= i < |objects| ==> objects[i].key in index && index[objects[i].key] == objects[i].data) &&
    (forall k <- index :: k in Keys(objects))
  }

  // ----- journals -----

  /** The checks of `readRestoreState`, apart from identifier formats, canonical bytes and the timestamp. */
  predicate ValidJournal(j: Journal) {
    !(j.schemaCreated && j.schemaPending) &&
    (match j.phase
     case Applying => j.failure == NoFailure
     case Failed => j.failure != NoFailure
     case Verified => j.failure == NoFailure && j.pending == "" && !j.schemaPending && j.schemaCreated) &&
    (forall i :: 0 <= i < |j.created| ==> ValidKey(j.created[i], "") && j.created[i] != j.pending) &&
    (forall i, k :: 0 <= i < k < |j.created| ==> j.created[i] != j.created[k]) &&
    (j.pending != "" ==> ValidKey(j.pending, ""))
  }

  function Listed(j: Journal): set<string> {
    (set k | k in j.created) + (if j.pending == "" then {} else {j.pending})
  }

  /** The journal is readable and lists only keys of the backup. */
  predicate Fits(index: map<string, Bytes>, j: Journal) {
    ValidJournal(j) && Listed(j) <= index.Keys
  }

  /** Everything in the destination beyond `base` is an intact object of the backup that the journal lists,
      and a schema is announced or recorded. */
  predicate Covers(base: map<string, Bytes>, index: map<string, Bytes>, bucket: map<string, Bytes>, schema: bool,
      j: Journal) {
    (forall k <- base :: k in bucket && bucket[k] == base[k]) &&
    (forall k <- bucket :: k !in base ==> k in Listed(j) && k in index && bucket[k] == index[k]) &&
    (schema ==> j.schemaCreated || j.schemaPending)
  }

  /** The destination as a crash leaves it: untouched, or with a journal that covers it. */
  predicate Recoverable(base: map<string, Bytes>, index: map<string, Bytes>, bucket: map<string, Bytes>, schema: bool,
      journal: Option<Journal>) {
    if journal.None? then bucket == base && !schema
    else Fits(index, journal.value) && Covers(base, index, bucket, schema, journal.value)
  }

  /** The journal has forgotten an object: its PUT took effect, was sent again by the client, and the second
      attempt was refused, which strikes the key from the journal. */
  predicate Forgets(index: map<string, Bytes>, resent: Option<string>, journal: Option<Journal>) {
    resent.Some? && resent.value in index && journal.Some? && resent.value !in Listed(journal.value)
  }

  /** What a cleanup by this journal cannot remove: what was there before, and a forgotten object. */
  function Stays(base: map<string, Bytes>, index: map<string, Bytes>, resent: Option<string>, journal: Option<Journal>):
    map<string, Bytes>
  {
    if Forgets(index, resent, journal) then base[resent.value := index[resent.value]] else base
  }

  /** The journal is readable, and covers the destination apart from what stays. */
  predicate Accounted(base: map<string, Bytes>, index: map<string, Bytes>, bucket: map<string, Bytes>, schema: bool,
      resent: Option<string>, j: Journal)
  {
    Fits(index, j) && Covers(Stays(base, index, resent, Some(j)), index, bucket, schema, j)
  }

  /** A new object that the journal does not list is not covered: no cleanup will find it. */
  lemma ForgottenIsUncovered(base: map<string, Bytes>, index: map<string, Bytes>, bucket: map<string, Bytes>,
      schema: bool, j: Journal, key: string)
    requires key in index && key !in base && key !in Listed(j)
    ensures !Recoverable(base, index, bucket[key := index[key]], schema, Some(Broken(j)))
  {
    assert Listed(Broken(j)) == Listed(j);
    assert key in bucket[key := index[key]];
  }

  /** Striking the key of a refused PUT covers the bucket once the object counts as one that stays. */
  lemma ForgettingCovers(base: map<string, Bytes>, index: map<string, Bytes>, bucket: map<string, Bytes>, schema: bool,
      j: Journal, key: string)
    requires Fits(index, j) && Covers(base, index, bucket, schema, j) && key in index && key !in bucket &&
             key !in Listed(j)
    ensures Forgets(index, Some(key), Some(j))
    ensures Covers(Stays(base, index, Some(key), Some(j)), index, bucket[key := index[key]], schema, j)
  {}

  /** `recordCleanedRestoreObject`: the journal without one key. */
  function Without(created: seq<string>, key: string): (rest: seq<string>)
    ensures forall k :: k in rest <==> k in created && k != key
    ensures |rest| <= |created|
  {
    if created == [] then []
    else
      var front := Without(created[..|created| - 1], key);
      if created[|created| - 1] == key then front else front + [created[|created| - 1]]
  }

  function Cleaned(j: Journal, key: string): Journal {
    j.(created := Without(j.created, key), pending := if j.pending == key then "" else j.pending)
  }

  lemma {:induction false} WithoutKeepsOrder(created: seq<string>, key: string)
    requires forall i, k :: 0 <= i < k < |created| ==> created[i] != created[k]
    ensures forall i, k :: 0 <= i < k < |Without(created, key)| ==> Without(created, key)[i] != Without(created, key)[k]
  {
    if created != [] {
      var front := created[..|created| - 1];
      WithoutKeepsOrder(front, key);
      assert created[|created| - 1] !in front;
    }
  }

  lemma CleanedIsReadable(index: map<string, Bytes>, j: Journal, key: string)
    requires Fits(index, j) && j.phase == Failed && key != ""
    ensures Listed(Cleaned(j, key)) == Listed(j) - {key}
    ensures Fits(index, Cleaned(j, key))
  {
    WithoutKeepsOrder(j.created, key);
    var c := Cleaned(j, key);
    assert Listed(c) == Listed(j) - {key};
    forall i | 0 <= i < |c.created| ensures ValidKey(c.created[i], "") && c.created[i] != c.pending {
      assert c.created[i] in c.created;
      assert c.created[i] in j.created;
    }
  }

  /** A listed key is known and intact, and each half of its removal leaves the destination covered. */
  lemma CleaningCovers(base: map<string, Bytes>, index: map<string, Bytes>, bucket: map<string, Bytes>, schema: bool,
      j: Journal, key: string)
    requires Fits(index, j) && j.phase == Failed && Covers(base, index, bucket, schema, j) && key in Listed(j) &&
             key !in base
    ensures key in index && key != "" && (key in bucket ==> bucket[key] == index[key])
    ensures Covers(base, index, bucket - {key}, schema, j)
    ensures Fits(index, Cleaned(j, key)) && Covers(base, index, bucket - {key}, schema, Cleaned(j, key))
    ensures Listed(Cleaned(j, key)) == Listed(j) - {key}
  {
    if key in j.created {
      var i :| 0 <= i < |j.created| && j.created[i] == key;
      assert ValidKey(j.created[i], "");
    }
    CleanedIsReadable(index, j, key);
  }

  /** A journal that lists nothing and announces no schema covers only an untouched destination. */
  lemma EmptyJournalMeansUntouched(base: map<string, Bytes>, index: map<string, Bytes>, bucket: map<string, Bytes>,
      schema: bool, j: Journal)
    requires Covers(base, index, bucket, schema, j) && Listed(j) == {} && !j.schemaCreated && !j.schemaPending
    ensures bucket == base && !schema
  {
    assert forall k <- bucket :: k in base;
  }

  /** Announcing a key before its PUT covers the bucket as it is, and as a PUT of a new key leaves it. */
  lemma AnnouncedCovers(base: map<string, Bytes>, index: map<string, Bytes>, bucket: map<string, Bytes>, schema: bool,
      j: Journal, key: string)
    requires Fits(index, j) && j.phase == Applying && j.pending == "" && Covers(base, index, bucket, schema, j)
    requires key in index && ValidKey(key, "") && key !in j.created
    ensures Fits(index, j.(pending := key)) && Covers(base, index, bucket, schema, j.(pending := key))
    ensures key !in bucket ==> Covers(base, index, bucket[key := index[key]], schema, j.(pending := key))
  {
    assert Listed(j.(pending := key)) == Listed(j) + {key};
  }

  /** Recording the key as created covers the bucket after the PUT. */
  lemma RecordedCovers(base: map<string, Bytes>, index: map<string, Bytes>, bucket: map<string, Bytes>, schema: bool,
      j: Journal, key: string)
    requires Fits(index, j) && j.phase == Applying && j.pending == "" && Covers(base, index, bucket, schema, j)
    requires key in index && ValidKey(key, "") && key !in j.created && key !in bucket
    ensures Fits(index, j.(created := j.created + [key])) &&
            Covers(base, index, bucket[key := index[key]], schema, j.(created := j.created + [key]))
  {
    var r := j.(created := j.created + [key]);
    assert Listed(r) == Listed(j) + {key};
  }

  /** Where one turn of `restoreObjects` can leave a journal, the bucket and a refused PUT: the key announced,
      struck again after a refusal, or recorded. */
  predicate Turned(before: map<string, Bytes>, bucket: map<string, Bytes>, resent: Option<string>, state: Journal,
      item: Object, j: Journal)
  {
    var stored := bucket == before[item.key := item.data] && item.key !in before;
    (bucket == before || stored) && (resent.Some? ==> resent == Some(item.key) && stored) &&
    (j == state.(pending := item.key) ||
     (j == state && (resent.None? ==> bucket == before)) ||
     (j == state.(created := state.created + [item.key]) && stored && resent.None?))
  }

  lemma TurnedIsAccounted(base: map<string, Bytes>, index: map<string, Bytes>, before: map<string, Bytes>,
      bucket: map<string, Bytes>, schema: bool, resent: Option<string>, state: Journal, item: Object, j: Journal)
    requires Accounted(base, index, before, schema, None, state) && state.phase == Applying && state.pending == ""
    requires ValidKey(item.key, item.prefix) && item.key in index && index[item.key] == item.data &&
             item.key !in state.created
    requires Turned(before, bucket, resent, state, item, j)
    ensures Accounted(base, index, bucket, schema, resent, j)
  {
    AnnouncedCovers(base, index, before, schema, state, item.key);
    assert item.key in Listed(state.(pending := item.key));
    if item.key !in before {
      RecordedCovers(base, index, before, schema, state, item.key);
      ForgettingCovers(base, index, before, schema, state, item.key);
    }
  }

  /** Moving the phase or the schema flags keeps every key that was listed. */
  lemma SameKeysCover(base: map<string, Bytes>, index: map<string, Bytes>, bucket: map<string, Bytes>, schema: bool,
      j: Journal, k: Journal)
    requires Covers(base, index, bucket, schema, j) && Listed(j) <= index.Keys && Listed(k) == Listed(j) &&
             ValidJournal(k)
    requires (j.schemaCreated || j.schemaPending) ==> (k.schemaCreated || k.schemaPending)
    ensures Fits(index, k) && Covers(base, index, bucket, schema, k)
  {}

  /** The journal the deferred write of `applyRestore` leaves behind. */
  function Broken(j: Journal): Journal {
    j.(phase := Failed, failure := RestoreIncomplete)
  }

  lemma BrokenCovers(base: map<string, Bytes>, index: map<string, Bytes>, bucket: map<string, Bytes>, schema: bool,
      j: Journal)
    requires Fits(index, j) && Covers(base, index, bucket, schema, j)
    ensures Fits(index, Broken(j)) && Covers(base, index, bucket, schema, Broken(j))
  {
    assert Listed(Broken(j)) == Listed(j);
  }
}
