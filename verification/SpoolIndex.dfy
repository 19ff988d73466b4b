/** The spool index as a value: the sorted listing of a directory of batch files, and what each
    spool operation does to it. */
module SpoolIndex {
  import opened Wrappers
  import opened Telemetry
  import opened SpoolNames

  /** A regular file of the spool directory; its size is that of the encoded batch. */
  datatype File = File(batch: MetricBatch, modifiedAt: int)

  /** An absolute file path, split into its directory and base name. */
  datatype Path = Path(directory: string, base: string)

  datatype SpoolItem = SpoolItem(
    path: Path, bootId: string, firstSequence: nat, lastSequence: nat, size: nat, modifiedAt: int)

  /** Oldest first; files of one directory with equal times are ordered by name. */
  predicate Less(a: SpoolItem, b: SpoolItem) {
    if a.modifiedAt == b.modifiedAt then LexLess(a.path.base, b.path.base) else a.modifiedAt < b.modifiedAt
  }

  predicate Sorted(items: seq<SpoolItem>) {
    forall i, j :: 0 <= i < j < |items| ==> Less(items[i], items[j])
  }

  function ItemOf(directory: string, name: string, file: File): SpoolItem
    requires Parse(name).Some?
  {
    var parts := Parse(name).value;
    SpoolItem(Path(directory, name), parts.bootId, parts.first, parts.last, file.batch.encodedSize, file.modifiedAt)
  }

  predicate Lists(items: seq<SpoolItem>, name: string) {
    exists i :: 0 <= i < |items| && items[i].path.base == name
  }

  /** The batch files of a directory, by name; anything else in it is ignored. */
  function Catalog(directory: string, files: map<string, File>): map<string, SpoolItem> {
    map name | name in files && Parse(name).Some? :: ItemOf(directory, name, files[name])
  }

  predicate Accurate(item: SpoolItem, catalog: map<string, SpoolItem>) {
    item.path.base in catalog && item == catalog[item.path.base]
  }

  /** items is the sorted, duplicate-free listing of the catalog. */
  ghost predicate IsIndex(items: seq<SpoolItem>, catalog: map<string, SpoolItem>) {
    && Sorted(items)
    && (forall i :: 0 <= i < |items| ==> Accurate(items[i], catalog))
    && (forall name :: name in catalog ==> Lists(items, name))
  }

  lemma {:induction false} CatalogWithout(directory: string, files: map<string, File>, names: set<string>)
    ensures Catalog(directory, files - names) == Catalog(directory, files) - names
  {
  }

  lemma {:induction false} CatalogWith(directory: string, files: map<string, File>, name: string, file: File)
    requires Parse(name).Some?
    ensures Catalog(directory, files[name := file]) == Catalog(directory, files)[name := ItemOf(directory, name, file)]
  {
  }

  function Total(items: seq<SpoolItem>): nat {
    if items == [] then 0 else items[0].size + Total(items[1..])
  }

  // ----- The order -----

  lemma {:induction false} LessIsStrictTotal(a: SpoolItem, b: SpoolItem)
    ensures !Less(a, a)
    ensures Less(a, b) ==> !Less(b, a)
    ensures a.path.base != b.path.base ==> Less(a, b) || Less(b, a)
  {
    LexIrreflexive(a.path.base);
    LexTotal(a.path.base, b.path.base);
    if LexLess(a.path.base, b.path.base) && LexLess(b.path.base, a.path.base) {
      LexTransitive(a.path.base, b.path.base, a.path.base);
    }
  }

  lemma {:induction false} LessTransitive(a: SpoolItem, b: SpoolItem, c: SpoolItem)
    requires Less(a, b) && Less(b, c)
    ensures Less(a, c)
  {
    if a.modifiedAt == b.modifiedAt == c.modifiedAt {
      LexTransitive(a.path.base, b.path.base, c.path.base);
    }
  }

  /** Each name is listed once. */
  lemma {:induction false} ListedOnce(items: seq<SpoolItem>, catalog: map<string, SpoolItem>, i: nat, j: nat)
    requires IsIndex(items, catalog)
    requires i < |items| && j < |items| && items[i].path.base == items[j].path.base
    ensures i == j
  {
    if i != j {
      assert items[i] == items[j];
      LessIsStrictTotal(items[i], items[j]);
    }
  }

  /** The first item of a sorted listing is determined by the files. */
  lemma {:induction false} SameHead(a: seq<SpoolItem>, b: seq<SpoolItem>, catalog: map<string, SpoolItem>)
    requires IsIndex(a, catalog) && IsIndex(b, catalog)
    requires a != []
    ensures b != [] && a[0] == b[0]
  {
    assert Accurate(a[0], catalog);
    assert Lists(b, a[0].path.base);
    var i :| 0 <= i < |b| && b[i].path.base == a[0].path.base;
    assert Accurate(b[0], catalog) && Accurate(b[i], catalog);
    assert Lists(a, b[0].path.base);
    var j :| 0 <= j < |a| && a[j].path.base == b[0].path.base;
    assert Accurate(a[j], catalog);
    assert b[i] == a[0] && a[j] == b[0];
    if i > 0 {
      assert Less(b[0], b[i]);
      if j > 0 {
        assert Less(a[0], a[j]);
      }
      LessIsStrictTotal(a[0], b[0]);
    }
  }

  lemma {:induction false} DropHead(items: seq<SpoolItem>, catalog: map<string, SpoolItem>)
    requires IsIndex(items, catalog) && items != []
    ensures IsIndex(items[1..], catalog - {items[0].path.base})
  {
    RemoveAt(items, catalog, 0);
    assert Without(items, 0) == items[1..];
  }

  function Without(items: seq<SpoolItem>, at: nat): seq<SpoolItem>
    requires at < |items|
  {
    items[..at] + items[at + 1..]
  }

  lemma {:induction false} SortedWithout(items: seq<SpoolItem>, at: nat)
    requires Sorted(items) && at < |items|
    ensures Sorted(Without(items, at))
  {
    forall i, j | 0 <= i < j < |Without(items, at)|
      ensures Less(Without(items, at)[i], Without(items, at)[j])
    {
      assert Less(items[if i < at then i else i + 1], items[if j < at then j else j + 1]);
    }
  }

  /** Removing an indexed file and its entry keeps the index. */
  lemma {:induction false} RemoveAt(items: seq<SpoolItem>, catalog: map<string, SpoolItem>, at: nat)
    requires IsIndex(items, catalog) && at < |items|
    ensures IsIndex(Without(items, at), catalog - {items[at].path.base})
  {
    var rest := Without(items, at);
    SortedWithout(items, at);
    var gone := items[at].path.base;
    forall i | 0 <= i < |rest|
      ensures Accurate(rest[i], catalog - {gone})
    {
      var k := if i < at then i else i + 1;
      assert rest[i] == items[k] && Accurate(items[k], catalog);
      if items[k].path.base == gone {
        ListedOnce(items, catalog, k, at);
      }
    }
    forall name | name in catalog - {gone}
      ensures Lists(rest, name)
    {
      assert Lists(items, name);
      var k :| 0 <= k < |items| && items[k].path.base == name;
      assert rest[if k < at then k else k - 1] == items[k];
    }
  }

  /** A directory has only one index: a restart rebuilds the queue it replaces. */
  lemma {:induction false} IndexIsUnique(a: seq<SpoolItem>, b: seq<SpoolItem>, catalog: map<string, SpoolItem>)
    requires IsIndex(a, catalog) && IsIndex(b, catalog)
    ensures a == b
    decreases |a|
  {
    if a == [] {
      if b != [] {
        SameHead(b, a, catalog);
      }
    } else {
      SameHead(a, b, catalog);
      DropHead(a, catalog);
      DropHead(b, catalog);
      IndexIsUnique(a[1..], b[1..], catalog - {a[0].path.base});
      assert a == [a[0]] + a[1..] && b == [b[0]] + b[1..];
    }
  }

  // ----- Sorting -----

  function InsertItem(items: seq<SpoolItem>, item: SpoolItem): seq<SpoolItem> {
    if items == [] || Less(item, items[0]) then [item] + items
    else [items[0]] + InsertItem(items[1..], item)
  }

  /** Sorting by spoolItemLess. */
  function SortItems(items: seq<SpoolItem>): seq<SpoolItem> {
    if items == [] then [] else InsertItem(SortItems(items[..|items| - 1]), items[|items| - 1])
  }

  /** Where the new item lands: after everything it does not precede. */
  function Position(items: seq<SpoolItem>, item: SpoolItem): (p: nat)
    ensures p <= |items|
    ensures forall i :: 0 <= i < p ==> !Less(item, items[i])
    ensures p < |items| ==> Less(item, items[p])
  {
    if items == [] || Less(item, items[0]) then 0
    else
      assert forall i :: 0 < i < |items| ==> items[i] == items[1..][i - 1];
      Position(items[1..], item) + 1
  }

  lemma {:induction false} InsertsAtPosition(items: seq<SpoolItem>, item: SpoolItem)
    ensures var p := Position(items, item);
            InsertItem(items, item) == items[..p] + [item] + items[p..]
  {
    hide Less;
    if items != [] && !Less(item, items[0]) {
      InsertsAtPosition(items[1..], item);
      var q := Position(items[1..], item);
      assert items[..q + 1] == [items[0]] + items[1..][..q];
      assert items[q + 1..] == items[1..][q..];
    }
  }

  lemma {:induction false} SortOfSorted(items: seq<SpoolItem>)
    requires Sorted(items)
    ensures SortItems(items) == items
  {
    if items != [] {
      var front, last := items[..|items| - 1], items[|items| - 1];
      SortOfSorted(front);
      var p := Position(front, last);
      InsertsAtPosition(front, last);
      if p < |front| {
        assert Less(items[p], last);
        LessIsStrictTotal(last, front[p]);
      }
      assert items == front + [last];
    }
  }

  lemma {:induction false} InsertKeepsSorted(items: seq<SpoolItem>, item: SpoolItem)
    requires Sorted(items)
    requires !Lists(items, item.path.base)
    ensures Sorted(InsertItem(items, item))
  {
    var p := Position(items, item);
    InsertsAtPosition(items, item);
    var r := InsertItem(items, item);
    forall i, j | 0 <= i < j < |r|
      ensures Less(r[i], r[j])
    {
      if j == p {
        LessIsStrictTotal(item, items[i]);
      } else if i == p {
        if j > p + 1 {
          LessTransitive(item, items[p], items[j - 1]);
        }
      }
    }
  }

  lemma {:induction false} InsertedMembers(items: seq<SpoolItem>, item: SpoolItem, x: SpoolItem)
    ensures x in InsertItem(items, item) <==> x in items || x == item
  {
    hide Less;
    if items != [] && !Less(item, items[0]) {
      InsertedMembers(items[1..], item, x);
      assert items == [items[0]] + items[1..];
    }
  }

  lemma {:induction false} ListsMember(items: seq<SpoolItem>, name: string) returns (item: SpoolItem)
    requires Lists(items, name)
    ensures item in items && item.path.base == name
  {
    var k :| 0 <= k < |items| && items[k].path.base == name;
    item := items[k];
  }

  /** Cataloguing a new item and inserting it keeps the index. */
  lemma {:induction false} InsertIndexes(items: seq<SpoolItem>, catalog: map<string, SpoolItem>, item: SpoolItem)
    requires IsIndex(items, catalog)
    requires item.path.base !in catalog
    ensures IsIndex(InsertItem(items, item), catalog[item.path.base := item])
  {
    hide InsertItem, Less;
    var name, r := item.path.base, InsertItem(items, item);
    forall i | 0 <= i < |items| ensures items[i].path.base != name {
      assert Accurate(items[i], catalog);
    }
    InsertKeepsSorted(items, item);
    forall i | 0 <= i < |r|
      ensures Accurate(r[i], catalog[name := item])
    {
      InsertedMembers(items, item, r[i]);
      assert r[i] in items ==> Accurate(r[i], catalog);
    }
    forall n | n in catalog[name := item]
      ensures Lists(r, n)
    {
      var x := item;
      if n != name {
        x := ListsMember(items, n);
      }
      InsertedMembers(items, item, x);
    }
  }

  /** With a clock that has not run back, nothing of the same boot and a lower sequence lands after the new item. */
  lemma {:induction false} InsertKeepsBootOrder(items: seq<SpoolItem>, item: SpoolItem)
    requires IsBootId(item.bootId) && item.firstSequence < UINT64_LIMIT && item.lastSequence < UINT64_LIMIT
    requires item.path.base == Format(Parts(item.bootId, item.firstSequence, item.lastSequence))
    requires forall i :: 0 <= i < |items| && items[i].bootId == item.bootId ==>
               && items[i].modifiedAt <= item.modifiedAt
               && items[i].firstSequence < item.firstSequence
               && items[i].lastSequence < UINT64_LIMIT
               && items[i].path.base == Format(Parts(items[i].bootId, items[i].firstSequence, items[i].lastSequence))
    requires Sorted(items)
    ensures forall i :: Position(items, item) <= i < |items| ==> items[i].bootId != item.bootId
  {
    var p := Position(items, item);
    InsertsAtPosition(items, item);
    forall i | p <= i < |items|
      ensures items[i].bootId != item.bootId
    {
      if i > p {
        LessTransitive(item, items[p], items[i]);
      }
      if items[i].bootId == item.bootId {
        NameOrderIsSequenceOrder(Parts(item.bootId, item.firstSequence, item.lastSequence),
                                 Parts(items[i].bootId, items[i].firstSequence, items[i].lastSequence));
      }
    }
  }

  // ----- Totals -----

  lemma {:induction false} TotalConcat(a: seq<SpoolItem>, b: seq<SpoolItem>)
    ensures Total(a + b) == Total(a) + Total(b)
  {
    if a == [] {
      assert a + b == b;
    } else {
      TotalConcat(a[1..], b);
      assert (a + b)[1..] == a[1..] + b;
    }
  }

  lemma {:induction false} TotalOfInsert(items: seq<SpoolItem>, item: SpoolItem)
    ensures Total(InsertItem(items, item)) == Total(items) + item.size
  {
    var p := Position(items, item);
    InsertsAtPosition(items, item);
    TotalConcat(items[..p] + [item], items[p..]);
    TotalConcat(items[..p], [item]);
    TotalConcat(items[..p], items[p..]);
    assert items == items[..p] + items[p..];
  }

  lemma {:induction false} TotalOfRemoval(items: seq<SpoolItem>, at: nat)
    requires at < |items|
    ensures Total(Without(items, at)) == Total(items) - items[at].size
    ensures items[at].size <= Total(items)
  {
    TotalConcat(items[..at], items[at + 1..]);
    TotalConcat(items[..at], items[at..]);
    assert items == items[..at] + items[at..];
    assert items[at..][1..] == items[at + 1..];
  }

  // ----- Eviction and pruning -----

  /** The k oldest items are exactly what must go for `required` more bytes to fit. */
  predicate ShortestPrefix(items: seq<SpoolItem>, required: nat, maximum: nat, k: nat) {
    && k <= |items|
    && (k == |items| || Total(items[k..]) + required <= maximum)
    && forall j :: 0 <= j < k ==> Total(items[j..]) + required > maximum
  }

  /** The prefix is enough to evict, and no shorter one is. */
  lemma {:induction false} ShortestInTotals(items: seq<SpoolItem>, required: nat, maximum: nat, k: nat)
    requires ShortestPrefix(items, required, maximum, k) && required <= maximum
    ensures Total(items[k..]) + required <= maximum
    ensures forall j :: 0 <= j < k ==> Total(items[j..]) + required > maximum
  {
  }

  /** The names of the n oldest items. */
  function Names(items: seq<SpoolItem>, n: nat): set<string>
    requires n <= |items|
  {
    if n == 0 then {} else Names(items, n - 1) + {items[n - 1].path.base}
  }

  predicate Covered(item: SpoolItem, bootId: string, through: nat) {
    item.bootId == bootId && item.lastSequence <= through
  }

  /** What a cumulative acknowledgement leaves of the first n items. */
  function Keep(items: seq<SpoolItem>, n: nat, bootId: string, through: nat): (kept: seq<SpoolItem>)
    requires n <= |items|
    ensures |kept| <= n
  {
    if n == 0 then []
    else if Covered(items[n - 1], bootId, through) then Keep(items, n - 1, bootId, through)
    else Keep(items, n - 1, bootId, through) + [items[n - 1]]
  }

  /** The files a cumulative acknowledgement removes for the first n items. */
  function Dropped(items: seq<SpoolItem>, n: nat, bootId: string, through: nat): set<string>
    requires n <= |items|
  {
    if n == 0 then {}
    else if Covered(items[n - 1], bootId, through)
    then Dropped(items, n - 1, bootId, through) + {items[n - 1].path.base}
    else Dropped(items, n - 1, bootId, through)
  }

  lemma {:induction false} MinusTwice<V>(m: map<string, V>, names: set<string>, name: string)
    ensures m - names - {name} == m - (names + {name})
  {
  }

  /** Dropping the evicted prefix from index and directory together keeps the index. */
  lemma {:induction false} DropPrefix(items: seq<SpoolItem>, catalog: map<string, SpoolItem>, k: nat)
    requires IsIndex(items, catalog) && k <= |items|
    ensures IsIndex(items[k..], catalog - Names(items, k))
  {
    if k == 0 {
      assert items[0..] == items && catalog - Names(items, 0) == catalog;
    } else {
      DropPrefix(items, catalog, k - 1);
      var rest, left := items[k - 1..], catalog - Names(items, k - 1);
      DropHead(rest, left);
      MinusTwice(catalog, Names(items, k - 1), items[k - 1].path.base);
      assert rest[1..] == items[k..];
    }
  }

  /** What is queued once the first i items have been filtered. */
  function Filtered(items: seq<SpoolItem>, i: nat, bootId: string, through: nat): seq<SpoolItem>
    requires i <= |items|
  {
    Keep(items, i, bootId, through) + items[i..]
  }

  lemma {:induction false} KeepStep(items: seq<SpoolItem>, i: nat, bootId: string, through: nat)
    requires i < |items|
    ensures var n := |Keep(items, i, bootId, through)|;
            var mid := Filtered(items, i, bootId, through);
            n < |mid| && mid[n] == items[i]
            && Filtered(items, i + 1, bootId, through)
               == if Covered(items[i], bootId, through) then Without(mid, n) else mid
  {
    var kept := Keep(items, i, bootId, through);
    var mid := kept + items[i..];
    if Covered(items[i], bootId, through) {
      assert mid[..|kept|] == kept && mid[|kept| + 1..] == items[i + 1..];
    } else {
      assert items[i..] == [items[i]] + items[i + 1..];
    }
  }

  lemma {:induction false} KeepIndexesStep(items: seq<SpoolItem>, left: map<string, SpoolItem>, i: nat, bootId: string,
                                           through: nat)
    requires i < |items|
    requires IsIndex(Filtered(items, i, bootId, through), left)
    ensures IsIndex(Filtered(items, i + 1, bootId, through),
                    if Covered(items[i], bootId, through) then left - {items[i].path.base} else left)
  {
    KeepStep(items, i, bootId, through);
    if Covered(items[i], bootId, through) {
      RemoveAt(Filtered(items, i, bootId, through), left, |Keep(items, i, bootId, through)|);
    }
  }

  /** After filtering the first i items, what is left is still the index of what is left on disk. */
  lemma {:induction false} KeepIndexes(items: seq<SpoolItem>, catalog: map<string, SpoolItem>,
                                       i: nat, bootId: string, through: nat)
    requires IsIndex(items, catalog) && i <= |items|
    ensures IsIndex(Filtered(items, i, bootId, through), catalog - Dropped(items, i, bootId, through))
  {
    if i == 0 {
      assert Filtered(items, 0, bootId, through) == items;
      assert catalog - Dropped(items, 0, bootId, through) == catalog;
    } else {
      KeepIndexes(items, catalog, i - 1, bootId, through);
      KeepIndexesStep(items, catalog - Dropped(items, i - 1, bootId, through), i - 1, bootId, through);
      MinusTwice(catalog, Dropped(items, i - 1, bootId, through), items[i - 1].path.base);
    }
  }

  lemma {:induction false} DroppedMembers(items: seq<SpoolItem>, n: nat, bootId: string, through: nat, name: string)
    requires n <= |items|
    ensures name in Dropped(items, n, bootId, through)
      <==> exists i :: 0 <= i < n && Covered(items[i], bootId, through) && items[i].path.base == name
  {
    if n > 0 {
      DroppedMembers(items, n - 1, bootId, through, name);
    }
  }

  // ----- Names and batches -----

  /** What the file name of a batch records. */
  function PartsOf(batch: MetricBatch): Parts
    requires batch.samples != []
  {
    Parts(Sanitize(batch.bootId), FirstSequence(batch.samples), LastSequence(batch.samples))
  }

  /** Sequences are unsigned 64-bit numbers. */
  predicate Uint64Sequences(batch: MetricBatch) {
    forall i :: 0 <= i < |batch.samples| ==> batch.samples[i].sequence < UINT64_LIMIT
  }

  function NameOf(batch: MetricBatch): (name: string)
    requires batch.samples != [] && Sanitize(batch.bootId) != "" && Uint64Sequences(batch)
    ensures Matches(name) && Parse(name) == Some(PartsOf(batch))
  {
    SanitizeIsIdempotent(batch.bootId);
    ParseFormat(PartsOf(batch));
    Format(PartsOf(batch))
  }

  function ItemFor(directory: string, batch: MetricBatch, modifiedAt: int): SpoolItem
    requires batch.samples != [] && Sanitize(batch.bootId) != "" && Uint64Sequences(batch)
  {
    ItemOf(directory, NameOf(batch), File(batch, modifiedAt))
  }

  // ----- Lookups -----

  /** The first entry with this name, or the length of the queue. */
  function Find(items: seq<SpoolItem>, name: string): (at: nat)
    ensures at <= |items|
    ensures at < |items| ==> items[at].path.base == name
    ensures at == |items| <==> !Lists(items, name)
    ensures forall i :: 0 <= i < at ==> items[i].path.base != name
  {
    if items == [] then 0
    else if items[0].path.base == name then 0
    else
      assert forall i :: 0 < i < |items| ==> items[i] == items[1..][i - 1];
      1 + Find(items[1..], name)
  }

  /** The queue without the entry of this name. */
  function Remove(items: seq<SpoolItem>, name: string): seq<SpoolItem> {
    if Find(items, name) < |items| then Without(items, Find(items, name)) else items
  }

  function Highest(items: seq<SpoolItem>, bootId: string): nat {
    if items == [] then 0
    else
      var n := |items| - 1;
      var rest := Highest(items[..n], bootId);
      if items[n].bootId == bootId then Max(rest, items[n].lastSequence) else rest
  }

  lemma {:induction false} RemoveIndexes(items: seq<SpoolItem>, catalog: map<string, SpoolItem>, name: string)
    requires IsIndex(items, catalog)
    ensures IsIndex(Remove(items, name), catalog - {name})
    ensures Total(Remove(items, name)) <= Total(items)
  {
    var at := Find(items, name);
    if at < |items| {
      RemoveAt(items, catalog, at);
      TotalOfRemoval(items, at);
    } else {
      assert name !in catalog;
      assert catalog - {name} == catalog;
    }
  }

  /** When every other batch of the boot is newer, acknowledging the head through its last sequence
      removes the head and nothing else: the hot path and the cumulative one agree. */
  lemma {:induction false} HotPathIsCumulative(items: seq<SpoolItem>)
    requires items != []
    requires forall i :: 0 < i < |items| && items[i].bootId == items[0].bootId ==>
               items[0].lastSequence < items[i].lastSequence
    ensures Keep(items, |items|, items[0].bootId, items[0].lastSequence) == Remove(items, items[0].path.base)
              == items[1..]
    ensures Dropped(items, |items|, items[0].bootId, items[0].lastSequence) == {items[0].path.base}
  {
    hide Keep, Dropped;
    KeepAllButHead(items, |items|);
    assert Without(items, 0) == items[1..];
  }

  lemma {:induction false} KeepAllButHead(items: seq<SpoolItem>, n: nat)
    requires 0 < n <= |items|
    requires forall i :: 0 < i < |items| && items[i].bootId == items[0].bootId ==>
               items[0].lastSequence < items[i].lastSequence
    ensures Keep(items, n, items[0].bootId, items[0].lastSequence) == items[1..n]
    ensures Dropped(items, n, items[0].bootId, items[0].lastSequence) == {items[0].path.base}
  {
    if n > 1 {
      KeepAllButHead(items, n - 1);
      assert items[1..n] == items[1..n - 1] + [items[n - 1]];
    }
  }
}
