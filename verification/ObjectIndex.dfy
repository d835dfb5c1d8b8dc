/** The backup's object index: one canonical JSON line per object, in key order. */
module ObjectIndex {
  import opened Options

  /** `other` stands for the fields that neither the order nor the totals look at. */
  datatype Object = Object(key: string, size: int, sha256: string, other: string)

  /** json.Marshal and json.Unmarshal of one object. `good` marks the values that survive the trip: valid
      UTF-8 text and a metadata map that is not nil. */
  datatype Codec = Codec(enc: Object -> string, dec: string -> Option<Object>, good: Object -> bool,
      digest: string -> bool)

  /** An encoded object is one line that ends in a brace. */
  ghost predicate Lawful(c: Codec) {
    (forall o :: c.good(o) ==> c.dec(c.enc(o)) == Some(o)) &&
    (forall o :: '\n' !in c.enc(o) && |c.enc(o)| > 0 && c.enc(o)[|c.enc(o)| - 1] != '\r')
  }

  // ----- key order -----

  /** Go's string order. */
  predicate Less(a: string, b: string) {
    b != [] && (a == [] || a[0] < b[0] || (a[0] == b[0] && Less(a[1..], b[1..])))
  }

  lemma LessIsTransitive(a: string, b: string, c: string)
    requires Less(a, b) && Less(b, c)
    ensures Less(a, c)
  {}

  lemma LessIsTotal(a: string, b: string)
    ensures a == b || Less(a, b) || Less(b, a)
  {
    if a != [] && b != [] && a[0] == b[0] {
      LessIsTotal(a[1..], b[1..]);
      if a[1..] == b[1..] { assert a == [a[0]] + a[1..] && b == [b[0]] + b[1..]; }
    }
  }

  lemma LessIsIrreflexive(a: string)
    ensures !Less(a, a)
  {}

  predicate Ordered(objects: seq<Object>) {
    forall i, j :: 0 <= i < j < |objects| ==> Less(objects[i].key, objects[j].key)
  }

  predicate DistinctKeys(objects: seq<Object>) {
    forall i, j :: 0 <= i < j < |objects| ==> objects[i].key != objects[j].key
  }

  function Insert(o: Object, sorted: seq<Object>): seq<Object> {
    if sorted == [] || !Less(sorted[0].key, o.key) then [o] + sorted
    else [sorted[0]] + Insert(o, sorted[1..])
  }

  /** sort.Slice by key; `SortedOnce` shows that the algorithm does not matter. */
  function SortByKey(objects: seq<Object>): seq<Object> {
    if objects == [] then [] else Insert(objects[0], SortByKey(objects[1..]))
  }

  lemma {:induction false} InsertKeeps(o: Object, sorted: seq<Object>)
    ensures multiset(Insert(o, sorted)) == multiset{o} + multiset(sorted)
  {
    if sorted != [] && Less(sorted[0].key, o.key) {
      InsertKeeps(o, sorted[1..]);
      assert sorted == [sorted[0]] + sorted[1..];
    }
  }

  lemma {:induction false} SortKeeps(objects: seq<Object>)
    ensures multiset(SortByKey(objects)) == multiset(objects)
  {
    if objects != [] {
      SortKeeps(objects[1..]);
      InsertKeeps(objects[0], SortByKey(objects[1..]));
      assert objects == [objects[0]] + objects[1..];
    }
  }

  lemma {:induction false} InsertOrders(o: Object, sorted: seq<Object>)
    requires Ordered(sorted) && forall p <- sorted :: p.key != o.key
    ensures Ordered(Insert(o, sorted))
  {
    if sorted != [] {
      LessIsTotal(sorted[0].key, o.key);
      if Less(sorted[0].key, o.key) {
        InsertOrders(o, sorted[1..]);
        InsertKeeps(o, sorted[1..]);
        var rest := Insert(o, sorted[1..]);
        forall j | 0 <= j < |rest| ensures Less(sorted[0].key, rest[j].key) {
          assert rest[j] in multiset(rest);
          assert rest[j] == o || rest[j] in sorted[1..];
        }
      } else {
        forall j | 0 <= j < |sorted| ensures Less(o.key, sorted[j].key) {
          if j > 0 { LessIsTransitive(o.key, sorted[0].key, sorted[j].key); }
        }
      }
    }
  }

  lemma {:induction false} SortOrders(objects: seq<Object>)
    requires DistinctKeys(objects)
    ensures Ordered(SortByKey(objects))
  {
    if objects != [] {
      SortOrders(objects[1..]);
      SortKeeps(objects[1..]);
      forall p <- SortByKey(objects[1..]) ensures p.key != objects[0].key {
        assert p in multiset(SortByKey(objects[1..]));
        var j :| 0 <= j < |objects| - 1 && objects[1..][j] == p;
        assert objects[j + 1] == p;
      }
      InsertOrders(objects[0], SortByKey(objects[1..]));
    }
  }

  lemma FirstIsLeast(a: seq<Object>, b: seq<Object>)
    requires Ordered(a) && Ordered(b) && a != [] && b != [] && a[0] in b && b[0] in a
    ensures a[0] == b[0]
  {
    if a[0] != b[0] {
      var i :| 0 <= i < |b| && b[i] == a[0];
      var j :| 0 <= j < |a| && a[j] == b[0];
      assert Less(b[0].key, a[0].key) && Less(a[0].key, b[0].key);
      LessIsTransitive(a[0].key, b[0].key, a[0].key);
      LessIsIrreflexive(a[0].key);
      assert false;
    }
  }

  lemma MultisetTail(a: seq<Object>)
    requires a != []
    ensures multiset(a[1..]) == multiset(a) - multiset{a[0]}
  {
    assert a == [a[0]] + a[1..];
  }

  /** There is only one way to list objects in key order. */
  lemma {:induction false} SortedOnce(a: seq<Object>, b: seq<Object>)
    requires Ordered(a) && Ordered(b) && multiset(a) == multiset(b)
    ensures a == b
  {
    assert |a| == |multiset(a)| == |multiset(b)| == |b|;
    if a != [] {
      assert a[0] in multiset(a) && b[0] in multiset(b);
      FirstIsLeast(a, b);
      MultisetTail(a);
      MultisetTail(b);
      SortedOnce(a[1..], b[1..]);
      assert a == [a[0]] + a[1..] && b == [b[0]] + b[1..];
    }
  }

  // ----- printing and parsing -----

  function Print(c: Codec, objects: seq<Object>): string {
    if objects == [] then [] else c.enc(objects[0]) + "\n" + Print(c, objects[1..])
  }

  /** The scanner's buffer is 1 MiB and holds the line end too. */
  const LineLimit := 1048575

  /** Where the first line ends. */
  function Cut(data: string): (i: nat)
    ensures i <= |data| && (forall k :: 0 <= k < i ==> data[k] != '\n') && (i < |data| ==> data[i] == '\n')
  {
    if data == [] || data[0] == '\n' then 0 else 1 + Cut(data[1..])
  }

  /** The scanner drops one carriage return at the end of a line. */
  function Strip(line: string): string {
    if line != [] && line[|line| - 1] == '\r' then line[..|line| - 1] else line
  }

  function Rest(data: string): string {
    if Cut(data) < |data| then data[Cut(data) + 1..] else []
  }

  /** The checks on one line: it decodes, re-encodes to itself, and its key comes after the last one. */
  function Accept(c: Codec, line: string, last: string): Option<Object> {
    var o := c.dec(line);
    if o.Some? && c.enc(o.value) == line && Less(last, o.value.key) && c.digest(o.value.sha256) then o else None
  }

  function Parse(c: Codec, data: string, last: string): Option<seq<Object>>
    decreases |data|
  {
    if data == [] then Some([])
    else if Cut(data) > LineLimit then None
    else
      var o := Accept(c, Strip(data[..Cut(data)]), last);
      if o.None? then None
      else
        var rest := Parse(c, Rest(data), o.value.key);
        if rest.None? then None else Some([o.value] + rest.value)
  }

  function After(objects: seq<Object>, rest: Option<seq<Object>>): Option<seq<Object>> {
    if rest.None? then None else Some(objects + rest.value)
  }

  lemma AfterNothing(rest: Option<seq<Object>>)
    ensures After([], rest) == rest
  {
    if rest.Some? { assert [] + rest.value == rest.value; }
  }

  /** `canonicalObjectLines`. */
  method CanonicalObjectLines(c: Codec, objects: seq<Object>) returns (output: string)
    ensures output == Print(c, SortByKey(objects))
  {
    var sorted := SortByKey(objects);
    output := [];
    var n := 0;
    while n < |sorted|
      invariant 0 <= n <= |sorted|
      invariant output + Print(c, sorted[n..]) == Print(c, sorted)
    {
      assert sorted[n..][1..] == sorted[n + 1..];
      ghost var was := output;
      output := output + c.enc(sorted[n]);
      output := output + "\n";
      assert output + Print(c, sorted[n + 1..]) == was + (c.enc(sorted[n]) + "\n" + Print(c, sorted[n + 1..]));
      n := n + 1;
    }
  }

  lemma AfterTwice(objects: seq<Object>, o: Object, rest: Option<seq<Object>>)
    ensures After(objects, After([o], rest)) == After(objects + [o], rest)
  {
    if rest.Some? { assert objects + ([o] + rest.value) == objects + [o] + rest.value; }
  }

  /** One turn of the parser's loop. */
  method ParseLine(c: Codec, data: string, last: string) returns (o: Option<Object>, rest: string)
    requires data != []
    ensures |rest| < |data|
    ensures Parse(c, data, last) == if o.None? then None else After([o.value], Parse(c, rest, o.value.key))
  {
    var end := Cut(data);
    rest := Rest(data);
    o := if end > LineLimit then None else Accept(c, Strip(data[..end]), last);
  }

  /** `parseRecoveryObjectLines`: `None` stands for its error. */
  method ParseObjectLines(c: Codec, data: string) returns (result: Option<seq<Object>>)
    ensures result == Parse(c, data, "")
  {
    var objects: seq<Object> := [];
    var last, left := "", data;
    AfterNothing(Parse(c, data, ""));
    while left != []
      invariant Parse(c, data, "") == After(objects, Parse(c, left, last))
      decreases |left|
    {
      var o, rest := ParseLine(c, left, last);
      if o.None? { return None; }
      AfterTwice(objects, o.value, Parse(c, rest, o.value.key));
      objects, last, left := objects + [o.value], o.value.key, rest;
    }
    assert objects + [] == objects;
    result := Some(objects);
  }

  lemma {:induction false} CutAfter(line: string, rest: string)
    requires '\n' !in line
    ensures Cut(line + "\n" + rest) == |line|
  {
    var data := line + "\n" + rest;
    if line == [] {
      assert data[0] == '\n';
    } else {
      assert data[0] == line[0] && data[1..] == line[1..] + "\n" + rest;
      CutAfter(line[1..], rest);
    }
  }

  /** How the scanner reads one printed line. */
  lemma ReadsLine(line: string, rest: string)
    requires '\n' !in line && line != [] && line[|line| - 1] != '\r'
    ensures var data := line + "\n" + rest;
            Cut(data) == |line| && Strip(data[..Cut(data)]) == line && Rest(data) == rest
  {
    CutAfter(line, rest);
    var data := line + "\n" + rest;
    assert data[..|line|] == line && data[|line| + 1..] == rest;
  }

  lemma ParsesLine(c: Codec, o: Object, rest: string, last: string)
    requires Lawful(c) && c.good(o) && c.digest(o.sha256) && Less(last, o.key)
    ensures Parse(c, c.enc(o) + "\n" + rest, last) == if |c.enc(o)| > LineLimit then None
            else After([o], Parse(c, rest, o.key))
  {
    ReadsLine(c.enc(o), rest);
    assert Accept(c, c.enc(o), last) == Some(o);
  }

  predicate LinesFit(c: Codec, objects: seq<Object>) {
    forall i :: 0 <= i < |objects| ==> |c.enc(objects[i])| <= LineLimit
  }

  predicate AllGood(c: Codec, objects: seq<Object>) {
    forall i :: 0 <= i < |objects| ==> c.good(objects[i]) && c.digest(objects[i].sha256)
  }

  lemma {:induction false} PrintedParses(c: Codec, objects: seq<Object>, last: string)
    requires Lawful(c) && Ordered(objects) && AllGood(c, objects) && (objects != [] ==> Less(last, objects[0].key))
    ensures Parse(c, Print(c, objects), last) == if LinesFit(c, objects) then Some(objects) else None
  {
    if objects != [] {
      var tail := objects[1..];
      PrintedParses(c, tail, objects[0].key);
      ParsesLine(c, objects[0], Print(c, tail), last);
      assert objects == [objects[0]] + tail;
      assert LinesFit(c, objects) <==> |c.enc(objects[0])| <= LineLimit && LinesFit(c, tail) by {
        assert forall i :: 0 <= i < |tail| ==> tail[i] == objects[i + 1];
        assert forall i :: 0 < i < |objects| ==> objects[i] == tail[i - 1];
      }
    }
  }

  lemma SameObjects(a: seq<Object>, b: seq<Object>)
    requires multiset(a) == multiset(b)
    ensures |a| == |b| && forall o :: o in a <==> o in b
  {
    assert |a| == |multiset(a)| == |multiset(b)| == |b|;
    assert forall o :: o in a <==> o in multiset(a);
    assert forall o :: o in b <==> o in multiset(b);
  }

  lemma SameFit(c: Codec, a: seq<Object>, b: seq<Object>)
    requires (forall o :: o in b ==> o in a) && LinesFit(c, a)
    ensures LinesFit(c, b)
  {
    forall i | 0 <= i < |b| ensures |c.enc(b[i])| <= LineLimit {
      assert b[i] in a;
      var j :| 0 <= j < |a| && a[j] == b[i];
    }
  }

  lemma SameGood(c: Codec, a: seq<Object>, b: seq<Object>)
    requires (forall o :: o in b ==> o in a) && AllGood(c, a)
    ensures AllGood(c, b)
  {
    forall i | 0 <= i < |b| ensures c.good(b[i]) && c.digest(b[i].sha256) {
      assert b[i] in a;
      var j :| 0 <= j < |a| && a[j] == b[i];
    }
  }

  /** Printing and parsing any objects with distinct, non-empty keys and valid digests gives them back in
      key order, exactly when every line fits the scanner. */
  lemma RoundTrip(c: Codec, objects: seq<Object>)
    requires Lawful(c) && DistinctKeys(objects) && AllGood(c, objects) && forall o <- objects :: o.key != ""
    ensures Parse(c, Print(c, SortByKey(objects)), "") == if LinesFit(c, objects) then Some(SortByKey(objects))
            else None
  {
    var sorted := SortByKey(objects);
    SortKeeps(objects);
    SortOrders(objects);
    SameObjects(sorted, objects);
    SameGood(c, objects, sorted);
    if sorted != [] { assert sorted[0] in objects; }
    if LinesFit(c, sorted) { SameFit(c, sorted, objects); }
    if LinesFit(c, objects) { SameFit(c, objects, sorted); }
    PrintedParses(c, sorted, "");
  }

  /** Sorting objects that are in order already changes nothing. */
  lemma SortIsStable(objects: seq<Object>)
    requires Ordered(objects)
    ensures SortByKey(objects) == objects
  {
    forall i, j | 0 <= i < j < |objects| ensures objects[i].key != objects[j].key { LessIsIrreflexive(objects[i].key); }
    SortKeeps(objects);
    SortOrders(objects);
    SortedOnce(SortByKey(objects), objects);
  }

  /** Every line is ended by a bare newline. */
  ghost predicate BareNewlines(data: string) {
    (data != [] ==> data[|data| - 1] == '\n') && forall i :: !CrLfAt(data, i)
  }

  predicate CrLfAt(data: string, i: int) {
    0 <= i < |data| - 1 && data[i] == '\r' && data[i + 1] == '\n'
  }

  lemma CrLfShifts(data: string, c: nat, rest: string, i: int)
    requires c < |data| && rest == data[c + 1..] && 0 <= i
    ensures CrLfAt(rest, i) == CrLfAt(data, c + 1 + i)
  {
    if i < |rest| { assert rest[i] == data[c + 1 + i]; }
    if i + 1 < |rest| { assert rest[i + 1] == data[c + 2 + i]; }
  }

  predicate FirstNewline(data: string, c: nat) {
    c < |data| && data[c] == '\n' && forall k :: 0 <= k < c ==> data[k] != '\n'
  }

  lemma {:induction false} ParsedIsOrdered(c: Codec, data: string, last: string)
    requires Parse(c, data, last).Some?
    ensures Ordered(Parse(c, data, last).value)
    ensures forall o <- Parse(c, data, last).value :: Less(last, o.key) && c.digest(o.sha256)
    decreases |data|
  {
    if data != [] {
      var o := Accept(c, Strip(data[..Cut(data)]), last).value;
      ParsedIsOrdered(c, Rest(data), o.key);
      var rest := Parse(c, Rest(data), o.key).value;
      forall p <- rest ensures Less(last, p.key) { LessIsTransitive(last, o.key, p.key); }
    }
  }

  /** A first line and the rest are bare together. */
  lemma BareSplitAt(data: string, c: nat, rest: string)
    requires FirstNewline(data, c) && rest == data[c + 1..]
    ensures BareNewlines(data) <==> BareNewlines(rest) && !CrLfAt(data, c - 1)
  {
    if rest != [] { assert rest[|rest| - 1] == data[|data| - 1]; }
    if BareNewlines(data) {
      forall i ensures !CrLfAt(rest, i) { if i >= 0 { CrLfShifts(data, c, rest, i); } }
    }
    if BareNewlines(rest) && !CrLfAt(data, c - 1) {
      forall i ensures !CrLfAt(data, i) { if i > c { CrLfShifts(data, c, rest, i - c - 1); } }
    }
  }

  lemma BareSplit(data: string)
    requires data != [] && Cut(data) < |data|
    ensures BareNewlines(data) <==> BareNewlines(Rest(data)) && (Cut(data) > 0 ==> data[Cut(data) - 1] != '\r')
  {
    var c: int := Cut(data);
    assert FirstNewline(data, c);
    BareSplitAt(data, c, Rest(data));
    assert CrLfAt(data, c - 1) <==> c > 0 && data[c - 1] == '\r';
  }

  lemma ParseOpens(c: Codec, data: string, last: string)
    requires data != [] && Parse(c, data, last).Some?
    ensures var line := Strip(data[..Cut(data)]);
            Accept(c, line, last).Some? &&
            var o := Accept(c, line, last).value;
            c.enc(o) == line && Parse(c, Rest(data), o.key).Some? &&
            Parse(c, data, last).value == [o] + Parse(c, Rest(data), o.key).value
  {}

  lemma PrintOpens(c: Codec, o: Object, rest: seq<Object>)
    ensures Print(c, [o] + rest) == c.enc(o) + "\n" + Print(c, rest)
  {
    assert ([o] + rest)[1..] == rest;
  }

  /** The parser also accepts carriage returns before newlines and a missing last newline. Printing what it
      accepted reproduces the bytes exactly when neither is there. */
  lemma {:induction false} ReprintsIff(c: Codec, data: string, last: string)
    requires Lawful(c) && Parse(c, data, last).Some?
    ensures Print(c, Parse(c, data, last).value) == data <==> BareNewlines(data)
    decreases |data|
  {
    if data != [] {
      ParseOpens(c, data, last);
      var line := Strip(data[..Cut(data)]);
      var o := Accept(c, line, last).value;
      var rest := Parse(c, Rest(data), o.key).value;
      ReprintsIff(c, Rest(data), o.key);
      PrintOpens(c, o, rest);
      LineReprintsIff(data, line, Print(c, rest));
    }
  }

  /** One line: the printed form is the data exactly when the line ends in a bare newline and the rest agrees. */
  lemma LineReprintsIff(data: string, line: string, rest: string)
    requires data != [] && line == Strip(data[..Cut(data)]) && '\n' !in line && line != [] && line[|line| - 1] != '\r'
    requires rest == Rest(data) <==> BareNewlines(Rest(data))
    ensures line + "\n" + rest == data <==> BareNewlines(data)
  {
    ReadsLine(line, rest);
    if line + "\n" + rest == data {
      BareSplit(data);
    }
    if BareNewlines(data) {
      assert Cut(data) < |data|;
      BareSplit(data);
      assert data == data[..Cut(data)] + "\n" + Rest(data);
    }
  }

  /** What the check of the canonical bytes adds to the parser. */
  lemma AcceptedIndexIsCanonical(c: Codec, data: string)
    requires Lawful(c) && Parse(c, data, "").Some?
    ensures Print(c, SortByKey(Parse(c, data, "").value)) == data <==> BareNewlines(data)
  {
    var objects := Parse(c, data, "").value;
    ParsedIsOrdered(c, data, "");
    SortIsStable(objects);
    ReprintsIff(c, data, "");
  }
}
