/** The spool index and directory, read as a queue of batches, take exactly the queue steps of the pipeline. */
module SpoolRefinement {
  import opened Telemetry
  import opened SpoolNames
  import opened SpoolIndex
  import BatchQueue
  import Spool

  /** An entry that names the batch in its file, as Put leaves it. */
  predicate GenuineItem(item: SpoolItem, files: map<string, File>) {
    && item.path.base in files
    && var b := files[item.path.base].batch;
       && b.samples != [] && IsBootId(b.bootId) && Uint64Sequences(b)
       && item.bootId == b.bootId
       && item.firstSequence == FirstSequence(b.samples) && item.lastSequence == LastSequence(b.samples)
       && item.path.base == Format(Parts(b.bootId, item.firstSequence, item.lastSequence))
  }

  predicate Genuine(items: seq<SpoolItem>, files: map<string, File>) {
    forall i :: 0 <= i < |items| ==> GenuineItem(items[i], files)
  }

  /** The batches in their queue order. */
  function Batches(items: seq<SpoolItem>, files: map<string, File>): (q: seq<MetricBatch>)
    requires Genuine(items, files)
    ensures |q| == |items|
    ensures forall i :: 0 <= i < |q| ==> q[i] == files[items[i].path.base].batch
  {
    seq(|items|, i requires 0 <= i < |items| => files[items[i].path.base].batch)
  }

  /** Files that stay keep their contents. */
  lemma {:induction false} FewerFiles(items: seq<SpoolItem>, files: map<string, File>, files': map<string, File>)
    requires Genuine(items, files)
    requires forall i :: 0 <= i < |items| ==>
               items[i].path.base in files' && files'[items[i].path.base] == files[items[i].path.base]
    ensures Genuine(items, files') && Batches(items, files') == Batches(items, files)
  {
    hide Format;
  }

  lemma {:induction false} EvictRefines(items: seq<SpoolItem>, files: map<string, File>, k: nat)
    requires Genuine(items, files) && k <= |items|
    ensures Genuine(items[k..], files) && Batches(items[k..], files) == Batches(items, files)[k..]
  {
    hide Format;
  }

  /** Put inserts the batch into the queue where its item lands. */
  lemma {:induction false} PutRefines(items: seq<SpoolItem>, directory: string, files: map<string, File>,
                                      batch: MetricBatch, modifiedAt: int)
    requires Genuine(items, files)
    requires batch.samples != [] && IsBootId(batch.bootId) && Uint64Sequences(batch)
    requires Sanitize(batch.bootId) != "" && NameOf(batch) !in files
    ensures var item := ItemFor(directory, batch, modifiedAt);
            var files' := files[NameOf(batch) := File(batch, modifiedAt)];
            && Genuine(InsertItem(items, item), files')
            && Batches(InsertItem(items, item), files')
               == BatchQueue.InsertAt(Batches(items, files), batch, Position(items, item))
  {
    var item := ItemFor(directory, batch, modifiedAt);
    NewItemIsGenuine(directory, files, batch, modifiedAt);
    hide Format, NameOf, ItemFor, Less, InsertItem;
    var files' := files[NameOf(batch) := File(batch, modifiedAt)];
    FewerFiles(items, files, files');
    InsertsAtPosition(items, item);
    BatchesOfInsert(items, files', item, Position(items, item));
  }

  lemma {:induction false} BatchesOfInsert(items: seq<SpoolItem>, files: map<string, File>, item: SpoolItem, p: nat)
    requires Genuine(items, files) && GenuineItem(item, files) && p <= |items|
    ensures Genuine(items[..p] + [item] + items[p..], files)
    ensures Batches(items[..p] + [item] + items[p..], files)
         == BatchQueue.InsertAt(Batches(items, files), files[item.path.base].batch, p)
  {
    hide GenuineItem;
    var r := items[..p] + [item] + items[p..];
    forall i | 0 <= i < |r| ensures GenuineItem(r[i], files) {
      assert i < p ==> r[i] == items[i];
      assert i > p ==> r[i] == items[i - 1];
    }
  }

  lemma {:induction false} NewItemIsGenuine(directory: string, files: map<string, File>, batch: MetricBatch,
                                            modifiedAt: int)
    requires batch.samples != [] && IsBootId(batch.bootId) && Uint64Sequences(batch)
    requires Sanitize(batch.bootId) != ""
    ensures GenuineItem(ItemFor(directory, batch, modifiedAt), files[NameOf(batch) := File(batch, modifiedAt)])
    ensures ItemFor(directory, batch, modifiedAt).path.base == NameOf(batch)
  {
    SanitizeKeepsBootIds(batch.bootId);
  }

  /** If the clock has not run back, Put meets the pipeline's condition: nothing of the same boot lies behind. */
  lemma {:induction false} PutKeepsBootOrder(items: seq<SpoolItem>, directory: string, files: map<string, File>,
                                             batch: MetricBatch, modifiedAt: int)
    requires Genuine(items, files) && Sorted(items)
    requires batch.samples != [] && IsBootId(batch.bootId) && Uint64Sequences(batch)
    requires Sanitize(batch.bootId) != ""
    requires forall i :: 0 <= i < |items| && items[i].bootId == batch.bootId ==>
               items[i].modifiedAt <= modifiedAt && items[i].firstSequence < FirstSequence(batch.samples)
    ensures var p := Position(items, ItemFor(directory, batch, modifiedAt));
            forall i :: p <= i < |items| ==> Batches(items, files)[i].bootId != batch.bootId
  {
    var item := ItemFor(directory, batch, modifiedAt);
    NewItemIsGenuine(directory, files, batch, modifiedAt);
    assert GenuineItem(item, files[NameOf(batch) := File(batch, modifiedAt)]);
    hide Format, NameOf, ItemFor;
    forall i | 0 <= i < |items| && items[i].bootId == item.bootId
      ensures items[i].lastSequence < UINT64_LIMIT
      ensures items[i].path.base == Format(Parts(items[i].bootId, items[i].firstSequence, items[i].lastSequence))
    {
      assert GenuineItem(items[i], files);
    }
    InsertKeepsBootOrder(items, item);
    forall i | 0 <= i < |items| ensures items[i].bootId == Batches(items, files)[i].bootId {
      assert GenuineItem(items[i], files);
    }
  }

  lemma {:induction false} KeptItems(items: seq<SpoolItem>, n: nat, files: map<string, File>, bootId: string,
                                     through: nat)
    requires n <= |items| && Genuine(items, files)
    ensures Genuine(Keep(items, n, bootId, through), files)
  {
    hide GenuineItem;
    if n > 0 {
      KeptItems(items, n - 1, files, bootId, through);
    }
  }

  /** Cumulative acknowledgement filters items and batches alike. */
  lemma {:induction false} AcknowledgeRefines(items: seq<SpoolItem>, n: nat, files: map<string, File>, bootId: string,
                                              through: nat)
    requires n <= |items| && Genuine(items, files)
    ensures Genuine(Keep(items, n, bootId, through), files)
    ensures Batches(Keep(items, n, bootId, through), files)
         == BatchQueue.Prune(Batches(items, files), n, bootId, through)
  {
    hide GenuineItem, Genuine, Covered, BatchQueue.CoveredBy, Batches;
    KeptItems(items, n, files, bootId, through);
    if n > 0 {
      AcknowledgeRefines(items, n - 1, files, bootId, through);
      SameCoverage(items, files, n - 1, bootId, through);
    }
  }

  lemma {:induction false} SameCoverage(items: seq<SpoolItem>, files: map<string, File>, i: nat, bootId: string,
                                        through: nat)
    requires Genuine(items, files) && i < |items|
    ensures Covered(items[i], bootId, through) <==> BatchQueue.CoveredBy(Batches(items, files)[i], bootId, through)
  {
    hide Format;
    assert GenuineItem(items[i], files);
  }

  /** Two genuine entries have the same file name exactly when they hold the same boot and span. */
  lemma {:induction false} SameNameSameFile(items: seq<SpoolItem>, files: map<string, File>, i: nat, batch: MetricBatch)
    requires Genuine(items, files) && i < |items|
    requires batch.samples != [] && IsBootId(batch.bootId) && Uint64Sequences(batch) && Sanitize(batch.bootId) != ""
    ensures items[i].path.base == NameOf(batch) <==> BatchQueue.SameFile(Batches(items, files)[i], batch)
  {
    assert GenuineItem(items[i], files);
    SanitizeKeepsBootIds(batch.bootId);
    var b := files[items[i].path.base].batch;
    if items[i].path.base == NameOf(batch) {
      FormatIsInjective(Parts(b.bootId, items[i].firstSequence, items[i].lastSequence), PartsOf(batch));
    }
  }

  /** Acknowledging or quarantining one item removes that batch's file from the queue. */
  lemma {:induction false} FindRefines(items: seq<SpoolItem>, files: map<string, File>, batch: MetricBatch)
    requires Genuine(items, files)
    requires batch.samples != [] && IsBootId(batch.bootId) && Uint64Sequences(batch) && Sanitize(batch.bootId) != ""
    ensures Find(items, NameOf(batch)) == BatchQueue.IndexOf(Batches(items, files), batch)
  {
    if items != [] {
      SameNameSameFile(items, files, 0, batch);
      EvictRefines(items, files, 1);
      FindRefines(items[1..], files, batch);
    }
  }

  lemma {:induction false} RemoveRefines(items: seq<SpoolItem>, files: map<string, File>, batch: MetricBatch)
    requires Genuine(items, files)
    requires batch.samples != [] && IsBootId(batch.bootId) && Uint64Sequences(batch) && Sanitize(batch.bootId) != ""
    ensures Genuine(Remove(items, NameOf(batch)), files)
    ensures Batches(Remove(items, NameOf(batch)), files) == BatchQueue.RemoveFile(Batches(items, files), batch)
  {
    var at, q := Find(items, NameOf(batch)), Batches(items, files);
    assert Remove(items, NameOf(batch)) == if at < |items| then Without(items, at) else items;
    hide *;
    FindRefines(items, files, batch);
    RemoveFileAt(q, batch);
    if at < |items| {
      BatchesOfRemoval(items, files, at);
    }
  }

  lemma {:induction false} RemoveFileAt(q: seq<MetricBatch>, batch: MetricBatch)
    ensures var at := BatchQueue.IndexOf(q, batch);
            BatchQueue.RemoveFile(q, batch) == if at < |q| then q[..at] + q[at + 1..] else q
  {
  }

  lemma {:induction false} BatchesOfRemoval(items: seq<SpoolItem>, files: map<string, File>, at: nat)
    requires Genuine(items, files) && at < |items|
    ensures Genuine(Without(items, at), files)
    ensures Batches(Without(items, at), files) == Batches(items, files)[..at] + Batches(items, files)[at + 1..]
  {
    hide GenuineItem;
    var r := Without(items, at);
    forall i | 0 <= i < |r| ensures GenuineItem(r[i], files) {
      assert i < at ==> r[i] == items[i];
      assert i >= at ==> r[i] == items[i + 1];
    }
  }

  /** The highest spooled sequence of a boot, from which numbering resumes. */
  lemma {:induction false} HighestRefines(items: seq<SpoolItem>, files: map<string, File>, bootId: string)
    requires Genuine(items, files)
    ensures Highest(items, bootId) == BatchQueue.Highest(Batches(items, files), bootId)
  {
    if items != [] {
      var n := |items| - 1;
      assert Batches(items[..n], files) == Batches(items, files)[..n];
      HighestRefines(items[..n], files, bootId);
      assert GenuineItem(items[n], files);
    }
  }

  // ----- Whole operations -----

  /** What is indexed is on disk. */
  lemma {:induction false} IndexedIsOnDisk(items: seq<SpoolItem>, directory: string, files: map<string, File>, i: nat)
    requires IsIndex(items, Catalog(directory, files)) && i < |items|
    ensures items[i].path.base in files
  {
    hide Parse, Format;
    assert Accurate(items[i], Catalog(directory, files));
  }

  /** An index of some of the files, whose entries were genuine before. */
  lemma {:induction false} StaysGenuine(items: seq<SpoolItem>, directory: string, files: map<string, File>,
                                        names: set<string>)
    requires Genuine(items, files) && IsIndex(items, Catalog(directory, files - names))
    ensures Genuine(items, files - names) && Batches(items, files - names) == Batches(items, files)
  {
    hide Genuine, Batches, IsIndex, Catalog;
    forall i | 0 <= i < |items| ensures items[i].path.base in files - names {
      IndexedIsOnDisk(items, directory, files - names, i);
    }
    FewerFiles(items, files, files - names);
  }

  /** A successful Put takes the put step of the pipeline: evict a prefix, and insert the batch where its item lands. */
  lemma {:induction false} PutIsQueuePut(items: seq<SpoolItem>, directory: string, files: map<string, File>,
                                         batch: MetricBatch, modifiedAt: int, evicted: nat)
    requires IsIndex(items, Catalog(directory, files)) && Genuine(items, files) && evicted <= |items|
    requires batch.samples != [] && IsBootId(batch.bootId) && Uint64Sequences(batch) && Sanitize(batch.bootId) != ""
    requires NameOf(batch) !in files - Names(items, evicted)
    ensures var rest, item := items[evicted..], ItemFor(directory, batch, modifiedAt);
            var items', files' := InsertItem(rest, item),
                  (files - Names(items, evicted))[NameOf(batch) := File(batch, modifiedAt)];
            && Genuine(items', files')
            && Batches(items', files')
                 == BatchQueue.InsertAt(Batches(items, files)[evicted..], batch, Position(rest, item))
  {
    hide *;
    EvictRefines(items, files, evicted);
    Spool.StillIndexed(items, directory, files, evicted);
    StaysGenuine(items[evicted..], directory, files, Names(items, evicted));
    PutRefines(items[evicted..], directory, files - Names(items, evicted), batch, modifiedAt);
  }

  /** A successful cumulative acknowledgement takes the pruning step of the pipeline. */
  lemma {:induction false} AcknowledgeIsQueuePrune(items: seq<SpoolItem>, directory: string, files: map<string, File>,
                                                   bootId: string, through: nat)
    requires IsIndex(items, Catalog(directory, files)) && Genuine(items, files) && IsBootId(bootId)
    ensures var items' := Keep(items, |items|, Sanitize(bootId), through);
            var files' := files - Dropped(items, |items|, Sanitize(bootId), through);
            && Genuine(items', files')
            && Batches(items', files') == BatchQueue.Acknowledge(Batches(items, files), bootId, through)
  {
    SanitizeKeepsBootIds(bootId);
    AcknowledgeRefines(items, |items|, files, bootId, through);
    assert BatchQueue.Acknowledge(Batches(items, files), bootId, through)
        == BatchQueue.Prune(Batches(items, files), |items|, bootId, through);
    hide *;
    Spool.FilterEnd(items, directory, files, bootId, through);
    StaysGenuine(Keep(items, |items|, bootId, through), directory, files, Dropped(items, |items|, bootId, through));
  }

  /** A successful AcknowledgeItem or Quarantine of a batch takes its file out of the queue. */
  lemma {:induction false} RemovalIsQueueRemoval(items: seq<SpoolItem>, directory: string, files: map<string, File>,
                                                 batch: MetricBatch)
    requires IsIndex(items, Catalog(directory, files)) && Genuine(items, files)
    requires batch.samples != [] && IsBootId(batch.bootId) && Uint64Sequences(batch) && Sanitize(batch.bootId) != ""
    ensures var items', files' := Remove(items, NameOf(batch)), files - {NameOf(batch)};
            && Genuine(items', files')
            && Batches(items', files') == BatchQueue.RemoveFile(Batches(items, files), batch)
  {
    hide *;
    var name := NameOf(batch);
    RemoveRefines(items, files, batch);
    RemoveIndexes(items, Catalog(directory, files), name);
    CatalogWithout(directory, files, {name});
    StaysGenuine(Remove(items, name), directory, files, {name});
  }
}
