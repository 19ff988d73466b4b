/** The bounded on-disk spool of the agent. */
module Spool {
  import opened Wrappers
  import opened Telemetry
  import opened SpoolNames
  import opened SpoolIndex

  const MAXIMUM_QUARANTINED: nat := 16

  datatype SpoolError = EmptyBatch | InvalidBoot | TooLarge | NoRoom | RemoveFailed | InvalidPath | RenameFailed

  /** The spool directory and its `rejected` subdirectory. Removing or renaming a `stuck` file fails. */
  class Disk {
    var files: map<string, File>
    var rejected: map<string, File>
    var stuck: set<string>

    /** Removing a missing file counts as success. */
    method RemoveFile(name: string) returns (gone: bool)
      modifies this`files
      ensures gone <==> !(name in old(files) && name in stuck)
      ensures files == if gone then old(files) - {name} else old(files)
    {
      gone := !(name in files && name in stuck);
      if gone {
        files := files - {name};
      }
    }
  }

  class Spool {
    const disk: Disk
    const directory: string
    const maximumBytes: nat
    var items: seq<SpoolItem>
    var usedBytes: nat

    /** The index lists the directory, and the byte count is exact. */
    ghost predicate Valid()
      reads this, disk
    {
      && IsIndex(items, Catalog(directory, disk.files))
      && usedBytes == Total(items)
    }

    constructor Open(disk: Disk, directory: string, maximumBytes: nat)
      ensures Valid()
      ensures this.disk == disk && this.directory == directory && this.maximumBytes == maximumBytes
    {
      this.disk, this.directory, this.maximumBytes := disk, directory, maximumBytes;
      var loaded := LoadSpoolItems(directory, disk.files);
      var used := SumSizes(loaded);
      items, usedBytes := loaded, used;
    }

    static method SumSizes(items: seq<SpoolItem>) returns (used: nat)
      ensures used == Total(items)
    {
      used := 0;
      for i := 0 to |items|
        invariant used == Total(items[..i])
      {
        TotalConcat(items[..i], [items[i]]);
        assert items[..i + 1] == items[..i] + [items[i]];
        used := used + items[i].size;
      }
      assert items[..|items|] == items;
    }

    /** Scan the directory entries in any order, keep the batch files, and sort them. */
    static method LoadSpoolItems(directory: string, files: map<string, File>) returns (items: seq<SpoolItem>)
      ensures IsIndex(items, Catalog(directory, files))
    {
      items := [];
      var entries := files.Keys;
      ghost var seen: map<string, SpoolItem> := map[];
      while entries != {}
        invariant entries <= files.Keys
        invariant IsIndex(SortItems(items), seen)
        invariant seen.Keys !! entries
        invariant forall name :: name in seen ==>
                    name in files && Parse(name).Some? && seen[name] == ItemOf(directory, name, files[name])
        invariant forall name :: name in files && Parse(name).Some? ==> name in seen || name in entries
        decreases |entries|
      {
        var name :| name in entries;
        entries := entries - {name};
        if Parse(name).Some? {
          var item := ItemOf(directory, name, files[name]);
          InsertIndexes(SortItems(items), seen, item);
          assert (items + [item])[..|items|] == items;
          items, seen := items + [item], seen[name := item];
        }
      }
      assert seen == Catalog(directory, files);
      items := SortItems(items);
    }

    /** Evict oldest-first until the batch fits. */
    method MakeRoom(required: nat) returns (r: Result<(), SpoolError>, ghost evicted: nat)
      requires Valid()
      modifies this, disk`files
      ensures Valid()
      ensures evicted <= |old(items)| && items == old(items)[evicted..]
      ensures disk.files == old(disk.files) - Names(old(items), evicted)
      ensures required <= maximumBytes ==> r != Err(NoRoom)
      ensures r.Ok? ==> ShortestPrefix(old(items), required, maximumBytes, evicted)
                        && usedBytes + required <= maximumBytes
      ensures r.Err? ==> r.error == RemoveFailed || r.error == NoRoom
      ensures r == Err(RemoveFailed) ==> evicted < |old(items)| && old(items)[evicted].path.base in disk.stuck
                                         && Total(old(items)[evicted..]) + required > maximumBytes
    {
      hide IsIndex, Catalog, Parse, Names;
      ghost var was, before := items, disk.files;
      evicted := 0;
      NothingEvicted(was, before);
      while usedBytes + required > maximumBytes && |items| > 0
        invariant evicted <= |was| && items == was[evicted..]
        invariant disk.files == before - Names(was, evicted)
        invariant usedBytes == Total(items)
        invariant forall j :: 0 <= j < evicted ==> Total(was[j..]) + required > maximumBytes
        decreases |items|
      {
        var oldest := items[0];
        var gone := disk.RemoveFile(oldest.path.base);
        if !gone {
          StillIndexed(was, directory, before, evicted);
          return Err(RemoveFailed), evicted;
        }
        EvictStep(was, before, evicted);
        usedBytes := SubtractBytes(usedBytes, oldest.size);
        items := items[1..];
        evicted := evicted + 1;
      }
      StillIndexed(was, directory, before, evicted);
      if usedBytes + required > maximumBytes {
        return Err(NoRoom), evicted;
      }
      r := Ok(());
    }

    method Span(samples: seq<Sample>) returns (first: nat, last: nat)
      requires samples != []
      ensures first == FirstSequence(samples) && last == LastSequence(samples)
    {
      first, last := samples[0].sequence, samples[0].sequence;
      for i := 1 to |samples|
        invariant first == FirstSequence(samples[..i]) && last == LastSequence(samples[..i])
      {
        assert samples[..i + 1][..i] == samples[..i];
        first, last := Min(first, samples[i].sequence), Max(last, samples[i].sequence);
      }
      assert samples[..|samples|] == samples;
    }

    /** Write the file and index it: append, and sort only if it does not belong at the end. */
    method Enqueue(name: string, file: File, item: SpoolItem)
      requires Valid() && Parse(name).Some? && item == ItemOf(directory, name, file)
      modifies this, disk`files
      ensures disk.files == old(disk.files)[name := file]
      ensures items == InsertItem(old(items), item)
      ensures usedBytes == Total(items) == old(usedBytes) + item.size
      ensures Valid() <==> name !in old(disk.files)
    {
      ghost var rest, before := items, disk.files;
      disk.files := disk.files[name := file];
      items := items + [item];
      usedBytes := usedBytes + item.size;
      if |items| > 1 && Less(item, items[|items| - 2]) {
        items := SortItems(items);
      }
      EnqueueEffect(rest, directory, before, name, file, items);
    }

    /** Store a batch as the file its boot and sequences name. */
    method Put(batch: MetricBatch, modifiedAt: int) returns (r: Result<(), SpoolError>, ghost evicted: nat)
      requires Valid() && Uint64Sequences(batch)
      modifies this, disk`files
      ensures r == Err(EmptyBatch) <==> batch.samples == []
      ensures r == Err(InvalidBoot) <==> batch.samples != [] && Sanitize(batch.bootId) == ""
      ensures IsUuid(batch.bootId) ==> r != Err(InvalidBoot)
      ensures r == Err(TooLarge)
        <==> batch.samples != [] && Sanitize(batch.bootId) != "" && batch.encodedSize > maximumBytes
      // A batch that fits an empty spool always finds room, unless a file cannot be removed.
      ensures r.Err? && r.error != EmptyBatch && r.error != InvalidBoot && r.error != TooLarge ==>
                r.error == RemoveFailed && evicted < |old(items)| && old(items)[evicted].path.base in disk.stuck
                && Total(old(items)[evicted..]) + batch.encodedSize > maximumBytes
      ensures evicted <= |old(items)|
      ensures r.Err? ==> Valid() && items == old(items)[evicted..]
                         && disk.files == old(disk.files) - Names(old(items), evicted)
      ensures r.Err? && r.error != RemoveFailed ==> evicted == 0
      // Success drops the shortest oldest-first prefix and inserts the new item in order.
      ensures r.Ok? ==> ShortestPrefix(old(items), batch.encodedSize, maximumBytes, evicted)
      ensures r.Ok? ==> (disk.files
                         == (old(disk.files) - Names(old(items), evicted))[NameOf(batch) := File(batch, modifiedAt)])
      ensures r.Ok? ==> items == InsertItem(old(items)[evicted..], ItemFor(directory, batch, modifiedAt))
      ensures r.Ok? ==> usedBytes == Total(items) <= maximumBytes
      // The index stays true to the directory exactly when no queued batch had the same name.
      ensures r.Ok? ==> (Valid() <==> NameOf(batch) !in old(disk.files) - Names(old(items), evicted))
    {
      evicted := 0;
      assert items[0..] == items && disk.files - Names(items, 0) == disk.files;
      if |batch.samples| == 0 {
        return Err(EmptyBatch), 0;
      }
      var bootId := Sanitize(batch.bootId);
      if IsUuid(batch.bootId) {
        UuidIsKept(batch.bootId);
      }
      if bootId == "" {
        return Err(InvalidBoot), 0;
      }
      var first, last := Span(batch.samples);
      if batch.encodedSize > maximumBytes {
        return Err(TooLarge), 0;
      }
      var made;
      made, evicted := MakeRoom(batch.encodedSize);
      if made.Err? {
        return Err(made.error), evicted;
      }
      var name := Format(Parts(bootId, first, last));
      assert name == NameOf(batch);
      Enqueue(name, File(batch, modifiedAt), ItemFor(directory, batch, modifiedAt));
      r := Ok(());
    }

    method Oldest() returns (item: Option<SpoolItem>)
      requires Valid()
      ensures item == if items == [] then None else Some(items[0])
      // It is the first of all batch files in the directory, and there is none only if there are no such files.
      ensures item.None? <==> Catalog(directory, disk.files) == map[]
      ensures item.Some? ==>
                var name := item.value.path.base;
                name in Catalog(directory, disk.files) && Catalog(directory, disk.files)[name] == item.value
                && forall n :: n in Catalog(directory, disk.files) && n != name ==>
                     Less(item.value, Catalog(directory, disk.files)[n])
    {
      HeadIsFirst(items, Catalog(directory, disk.files));
      item := if |items| == 0 then None else Some(items[0]);
    }

    /** Cumulative acknowledgement: filter the queue in place, removing the covered files. */
    method Acknowledge(boot: string, through: nat) returns (r: Result<(), SpoolError>, ghost stop: nat)
      requires Valid()
      modifies this, disk`files
      ensures r.Ok? <==> Dropped(old(items), |old(items)|, Sanitize(boot), through) !! disk.stuck
      ensures r.Ok? ==> Valid() && items == Keep(old(items), |old(items)|, Sanitize(boot), through)
                        && disk.files == old(disk.files) - Dropped(old(items), |old(items)|, Sanitize(boot), through)
      // A failed removal stops midway and leaves the index overwritten up to that point.
      ensures r.Err? ==> r.error == RemoveFailed && FirstStuck(old(items), stop, Sanitize(boot), through, disk.stuck)
      ensures r.Err? ==> var kept := Keep(old(items), stop, Sanitize(boot), through);
                         |kept| <= stop && items == kept + old(items)[|kept|..]
      ensures r.Err? ==> disk.files == old(disk.files) - Dropped(old(items), stop, Sanitize(boot), through)
      // It then still lists the directory exactly when the first covered item of the queue is a stuck one.
      ensures r.Err? ==> (Valid() <==> StartsStuck(old(items), Sanitize(boot), through, disk.stuck))
    {
      hide IsIndex, Catalog, Parse, Sanitize, Keep, Dropped, Total, Filtered;
      var bootId := Sanitize(boot);
      ghost var was, before := items, disk.files;
      var remaining := 0;
      stop := 0;
      FilterStart(was, before, bootId, through);
      for i := 0 to |items|
        invariant remaining == |Keep(was, i, bootId, through)| <= i
        invariant items == Keep(was, i, bootId, through) + was[remaining..]
        invariant usedBytes == Total(Filtered(was, i, bootId, through))
        invariant disk.files == before - Dropped(was, i, bootId, through)
        invariant Dropped(was, i, bootId, through) !! disk.stuck
      {
        var item := items[i];
        AcknowledgeStep(was, before, i, bootId, through);
        if item.bootId == bootId && item.lastSequence <= through {
          var gone := disk.RemoveFile(item.path.base);
          if !gone {
            HalfFiltered(was, directory, before, i, bootId, through);
            DroppedMembers(was, |was|, bootId, through, item.path.base);
            FailsAtFirstStuck(was, i, bootId, through, disk.stuck);
            return Err(RemoveFailed), i;
          }
          StillOnDisk(was, directory, before, i, bootId, through);
          usedBytes := SubtractBytes(usedBytes, item.size);
        } else {
          items := items[remaining := item];
          remaining := remaining + 1;
        }
      }
      items := items[..remaining];
      FilterEnd(was, directory, before, bootId, through);
      r := Ok(());
    }

    predicate ValidItemPath(path: Path) {
      path.directory == directory && Matches(path.base)
    }

    method RemoveIndexedItem(name: string)
      modifies this
      requires usedBytes == Total(items)
      ensures items == Remove(old(items), name) && usedBytes == Total(items)
    {
      for i := 0 to |items|
        invariant items == old(items) && usedBytes == old(usedBytes)
        invariant forall j :: 0 <= j < i ==> items[j].path.base != name
      {
        if items[i].path.base == name {
          TotalOfRemoval(items, i);
          usedBytes := SubtractBytes(usedBytes, items[i].size);
          items := items[..i] + items[i + 1..];
          return;
        }
      }
    }

    /** Acknowledge the one batch in flight; harmless if it was evicted meanwhile. */
    method AcknowledgeItem(item: SpoolItem) returns (r: Result<(), SpoolError>)
      requires Valid()
      modifies this, disk`files
      ensures Valid()
      ensures r == Err(InvalidPath) <==> !ValidItemPath(item.path)
      ensures r == Err(InvalidPath) <==> item.path.directory != directory || !Matches(item.path.base)
      ensures r == Err(RemoveFailed)
        <==> ValidItemPath(item.path) && item.path.base in old(disk.files) && item.path.base in disk.stuck
      ensures r.Err? ==> r.error == InvalidPath || r.error == RemoveFailed
      ensures r.Err? ==> items == old(items) && disk.files == old(disk.files)
      ensures r.Ok? ==> items == Remove(old(items), item.path.base) && disk.files == old(disk.files) - {item.path.base}
    {
      hide IsIndex, Catalog, Parse, Matches, Remove, Total;
      if !ValidItemPath(item.path) {
        return Err(InvalidPath);
      }
      ghost var before := disk.files;
      var gone := disk.RemoveFile(item.path.base);
      if !gone {
        return Err(RemoveFailed);
      }
      RemoveIndexes(items, Catalog(directory, before), item.path.base);
      CatalogWithout(directory, before, {item.path.base});
      RemoveIndexedItem(item.path.base);
      r := Ok(());
    }

    /** Move a rejected batch out of the queue and keep only the newest rejected files. */
    method Quarantine(item: SpoolItem) returns (r: Result<Path, SpoolError>)
      requires Valid()
      modifies this, disk`files, disk`rejected
      ensures Valid()
      ensures r == Err(InvalidPath) <==> !ValidItemPath(item.path)
      ensures r == Err(RenameFailed)
        <==> ValidItemPath(item.path) && (item.path.base !in old(disk.files) || item.path.base in disk.stuck)
      ensures r.Err? ==> r.error == InvalidPath || r.error == RenameFailed
      ensures r.Err? ==> items == old(items) && disk.files == old(disk.files) && disk.rejected == old(disk.rejected)
      ensures r.Ok? ==> items == Remove(old(items), item.path.base) && disk.files == old(disk.files) - {item.path.base}
      ensures r.Ok? ==> NewestOf(old(disk.rejected)[item.path.base := old(disk.files)[item.path.base]],
                                 disk.rejected, 16)
    {
      hide IsIndex, Catalog, Parse, Matches, Remove, Total, NewestOf;
      if !ValidItemPath(item.path) {
        return Err(InvalidPath);
      }
      var name := item.path.base;
      if name !in disk.files || name in disk.stuck {
        return Err(RenameFailed);
      }
      ghost var before := disk.files;
      disk.rejected := disk.rejected[name := disk.files[name]];
      disk.files := disk.files - {name};
      RemoveIndexes(items, Catalog(directory, before), name);
      CatalogWithout(directory, before, {name});
      RemoveIndexedItem(name);
      PruneRejected();
      r := Ok(Path(directory + "/rejected", name));
    }

    method PruneRejected()
      modifies disk`rejected
      ensures NewestOf(old(disk.rejected), disk.rejected, 16)
    {
      ghost var all := disk.rejected;
      while |disk.rejected| > MAXIMUM_QUARANTINED
        invariant disk.rejected.Keys <= all.Keys
        invariant forall n :: n in disk.rejected ==> disk.rejected[n] == all[n]
        invariant forall n, m :: n in all && n !in disk.rejected && m in disk.rejected ==>
                    all[n].modifiedAt <= all[m].modifiedAt
        invariant |disk.rejected| >= MAXIMUM_QUARANTINED || disk.rejected == all
        invariant |all| <= MAXIMUM_QUARANTINED ==> disk.rejected == all
        decreases |disk.rejected|
      {
        var oldest := OldestName(disk.rejected);
        assert |disk.rejected - {oldest}| == |disk.rejected| - 1 by {
          assert (disk.rejected - {oldest}).Keys == disk.rejected.Keys - {oldest};
          assert |disk.rejected.Keys - {oldest}| == |disk.rejected.Keys| - 1;
        }
        disk.rejected := disk.rejected - {oldest};
      }
    }

    method HighestSequence(boot: string) returns (r: Result<nat, SpoolError>)
      ensures r == if Sanitize(boot) == "" then Err(InvalidBoot) else Ok(Highest(items, Sanitize(boot)))
    {
      var bootId := Sanitize(boot);
      if bootId == "" {
        return Err(InvalidBoot);
      }
      var highest := 0;
      for i := 0 to |items|
        invariant highest == Highest(items[..i], bootId)
      {
        assert items[..i + 1][..i] == items[..i];
        if items[i].bootId == bootId {
          highest := Max(highest, items[i].lastSequence);
        }
      }
      assert items[..|items|] == items;
      r := Ok(highest);
    }
  }

  /** Unsigned subtraction that stops at zero. */
  function SubtractBytes(total: nat, value: nat): nat {
    if total < value then 0 else total - value
  }

  /** left holds the newest files of all, up to the limit. */
  ghost predicate NewestOf(all: map<string, File>, left: map<string, File>, limit: nat) {
    && left.Keys <= all.Keys
    && (forall n :: n in left ==> left[n] == all[n])
    && (forall n, m :: n in all && n !in left && m in left ==> all[n].modifiedAt <= all[m].modifiedAt)
    && (if |all| <= limit then left == all else |left| == limit)
  }

  method OldestName(files: map<string, File>) returns (name: string)
    requires |files| > 0
    ensures name in files && forall n :: n in files ==> files[name].modifiedAt <= files[n].modifiedAt
  {
    var pending := files.Keys;
    name :| name in pending;
    while pending != {}
      invariant pending <= files.Keys && name in files
      invariant forall n :: n in files && n !in pending ==> files[name].modifiedAt <= files[n].modifiedAt
      decreases |pending|
    {
      var n :| n in pending;
      if files[n].modifiedAt < files[name].modifiedAt {
        name := n;
      }
      pending := pending - {n};
    }
  }

  /** A spool opened on the same directory after a restart has the same queue and byte count. */
  method Reopen(spool: Spool) returns (reopened: Spool)
    requires spool.Valid()
    ensures fresh(reopened) && reopened.Valid()
    ensures reopened.items == spool.items && reopened.usedBytes == spool.usedBytes
  {
    reopened := new Spool.Open(spool.disk, spool.directory, spool.maximumBytes);
    IndexIsUnique(reopened.items, spool.items, Catalog(spool.directory, spool.disk.files));
  }

  lemma {:induction false} AppendThenSort(rest: seq<SpoolItem>, item: SpoolItem, items: seq<SpoolItem>)
    requires Sorted(rest)
    requires items == if rest != [] && Less(item, rest[|rest| - 1]) then SortItems(rest + [item]) else rest + [item]
    ensures items == InsertItem(rest, item)
  {
    SortOfSorted(rest);
    assert (rest + [item])[..|rest|] == rest;
    var p := Position(rest, item);
    InsertsAtPosition(rest, item);
    if p < |rest| && !Less(item, rest[|rest| - 1]) {
      if p < |rest| - 1 {
        LessTransitive(item, rest[p], rest[|rest| - 1]);
      }
    } else if p == |rest| {
      assert rest[..p] == rest && rest[p..] == [];
    }
  }

  lemma {:induction false} EnqueueEffect(rest: seq<SpoolItem>, directory: string, files: map<string, File>,
                                         name: string, file: File, items: seq<SpoolItem>)
    requires IsIndex(rest, Catalog(directory, files)) && Parse(name).Some?
    requires var item := ItemOf(directory, name, file);
             items == if |rest + [item]| > 1 && Less(item, (rest + [item])[|rest + [item]| - 2])
                      then SortItems(rest + [item]) else rest + [item]
    ensures items == InsertItem(rest, ItemOf(directory, name, file))
    ensures Total(items) == Total(rest) + file.batch.encodedSize
    ensures IsIndex(items, Catalog(directory, files[name := file])) <==> name !in files
  {
    var item := ItemOf(directory, name, file);
    AppendThenSort(rest, item, items);
    TotalOfInsert(rest, item);
    IndexedIffNew(rest, directory, files, name, file);
  }

  lemma {:induction false} DuplicateIsNoIndex(rest: seq<SpoolItem>, catalog: map<string, SpoolItem>, item: SpoolItem,
                           catalog': map<string, SpoolItem>)
    requires IsIndex(rest, catalog) && item.path.base in catalog
    ensures !IsIndex(InsertItem(rest, item), catalog')
  {
    assert Lists(rest, item.path.base);
    hide IsIndex, Less, InsertItem;
    var k :| 0 <= k < |rest| && rest[k].path.base == item.path.base;
    var p := Position(rest, item);
    InsertsAtPosition(rest, item);
    var r := InsertItem(rest, item);
    assert r[p] == item && r[if k < p then k else k + 1] == rest[k];
    if IsIndex(r, catalog') {
      ListedOnce(r, catalog', p, if k < p then k else k + 1);
    }
  }

  /** Inserting an item under a name already listed makes a duplicate, and no index has duplicates. */
  lemma {:induction false} IndexedIffNew(rest: seq<SpoolItem>, directory: string, files: map<string, File>,
                                         name: string, file: File)
    requires IsIndex(rest, Catalog(directory, files))
    requires Parse(name).Some?
    ensures IsIndex(InsertItem(rest, ItemOf(directory, name, file)), Catalog(directory, files[name := file]))
      <==> name !in files
  {
    hide Parse, Less, IsIndex;
    var item := ItemOf(directory, name, file);
    CatalogWith(directory, files, name, file);
    if name !in files {
      InsertIndexes(rest, Catalog(directory, files), item);
    } else {
      DuplicateIsNoIndex(rest, Catalog(directory, files), item, Catalog(directory, files[name := file]));
    }
  }

  /** The head of an index is the least of all catalogued items. */
  lemma {:induction false} HeadIsFirst(items: seq<SpoolItem>, catalog: map<string, SpoolItem>)
    requires IsIndex(items, catalog)
    ensures items == [] <==> catalog == map[]
    ensures items != [] ==>
              items[0].path.base in catalog && catalog[items[0].path.base] == items[0]
              && forall n :: n in catalog && n != items[0].path.base ==> Less(items[0], catalog[n])
  {
    hide Less;
    forall n | n in catalog ensures items != [] && (n == items[0].path.base || Less(items[0], catalog[n])) {
      assert Lists(items, n);
      var i :| 0 <= i < |items| && items[i].path.base == n;
      assert Accurate(items[i], catalog);
      if i > 0 {
        assert Less(items[0], items[i]);
      }
    }
    if items != [] {
      assert Accurate(items[0], catalog);
    }
  }

  lemma {:induction false} StillIndexed(was: seq<SpoolItem>, directory: string, files: map<string, File>, k: nat)
    requires IsIndex(was, Catalog(directory, files)) && k <= |was|
    ensures IsIndex(was[k..], Catalog(directory, files - Names(was, k)))
  {
    DropPrefix(was, Catalog(directory, files), k);
    CatalogWithout(directory, files, Names(was, k));
  }

  lemma {:induction false} NothingEvicted(was: seq<SpoolItem>, files: map<string, File>)
    ensures was[0..] == was && files - Names(was, 0) == files
  {
  }

  lemma {:induction false} EvictStep(was: seq<SpoolItem>, files: map<string, File>, k: nat)
    requires k < |was|
    ensures files - Names(was, k) - {was[k].path.base} == files - Names(was, k + 1)
    ensures was[k..][1..] == was[k + 1..]
    ensures Total(was[k..]) == was[k].size + Total(was[k + 1..])
  {
    MinusTwice(files, Names(was, k), was[k].path.base);
    assert was[k..][1..] == was[k + 1..];
  }

  lemma {:induction false} FilterStart(was: seq<SpoolItem>, files: map<string, File>, bootId: string, through: nat)
    ensures Keep(was, 0, bootId, through) == [] && Filtered(was, 0, bootId, through) == was == [] + was[0..]
    ensures Dropped(was, 0, bootId, through) == {} && files - Dropped(was, 0, bootId, through) == files
  {
  }

  /** One turn of the in-place filter: either the entry's file goes, or the entry moves down. */
  lemma {:induction false} AcknowledgeStep(was: seq<SpoolItem>, files: map<string, File>, i: nat, bootId: string,
                                           through: nat)
    requires i < |was|
    ensures var kept, kept' := Keep(was, i, bootId, through), Keep(was, i + 1, bootId, through);
            var dropped, dropped' := Dropped(was, i, bootId, through), Dropped(was, i + 1, bootId, through);
            var total, total' := Total(Filtered(was, i, bootId, through)), Total(Filtered(was, i + 1, bootId, through));
            var items := kept + was[|kept|..];
            items[i] == was[i]
            && if Covered(was[i], bootId, through) then
                 && kept' == kept && dropped' == dropped + {was[i].path.base}
                 && files - dropped' == files - dropped - {was[i].path.base}
                 && total == total' + was[i].size
               else
                 && kept' == kept + [was[i]] && dropped' == dropped && total == total'
                 && items[|kept| := was[i]] == kept' + was[|kept| + 1..]
  {
    MinusTwice(files, Dropped(was, i, bootId, through), was[i].path.base);
    KeepStep(was, i, bootId, through);
    var kept := Keep(was, i, bootId, through);
    if Covered(was[i], bootId, through) {
      TotalOfRemoval(Filtered(was, i, bootId, through), |kept|);
    }
  }

  lemma {:induction false} FilterEnd(was: seq<SpoolItem>, directory: string, files: map<string, File>, bootId: string,
                                     through: nat)
    requires IsIndex(was, Catalog(directory, files))
    ensures Filtered(was, |was|, bootId, through) == Keep(was, |was|, bootId, through)
    ensures IsIndex(Keep(was, |was|, bootId, through), Catalog(directory, files - Dropped(was, |was|, bootId, through)))
  {
    KeepIndexes(was, Catalog(directory, files), |was|, bootId, through);
    CatalogWithout(directory, files, Dropped(was, |was|, bootId, through));
    assert Filtered(was, |was|, bootId, through) == Keep(was, |was|, bootId, through);
  }

  lemma {:induction false} StillOnDisk(was: seq<SpoolItem>, directory: string, files: map<string, File>, i: nat,
                                       bootId: string, through: nat)
    requires IsIndex(was, Catalog(directory, files)) && i < |was|
    ensures was[i].path.base in files - Dropped(was, i, bootId, through)
  {
    assert Accurate(was[i], Catalog(directory, files));
    DroppedMembers(was, i, bootId, through, was[i].path.base);
    if was[i].path.base in Dropped(was, i, bootId, through) {
      var k :| 0 <= k < i && was[k].path.base == was[i].path.base;
      ListedOnce(was, Catalog(directory, files), k, i);
    }
  }

  /** The i-th item is the first covered one whose file cannot be removed. */
  predicate FirstStuck(items: seq<SpoolItem>, i: nat, bootId: string, through: nat, stuck: set<string>) {
    && i < |items| && Covered(items[i], bootId, through) && items[i].path.base in stuck
    && forall j :: 0 <= j < i && Covered(items[j], bootId, through) ==> items[j].path.base !in stuck
  }

  /** The first covered item is one whose file cannot be removed. */
  predicate StartsStuck(items: seq<SpoolItem>, bootId: string, through: nat, stuck: set<string>) {
    exists i :: 0 <= i < |items| && Covered(items[i], bootId, through) && items[i].path.base in stuck
      && forall j :: 0 <= j < i ==> !Covered(items[j], bootId, through)
  }

  /** Nothing is gone before the first stuck item exactly if no covered item precedes it. */
  lemma {:induction false} FailsAtFirstStuck(items: seq<SpoolItem>, i: nat, bootId: string, through: nat,
                                             stuck: set<string>)
    requires i < |items| && Covered(items[i], bootId, through) && items[i].path.base in stuck
    requires Dropped(items, i, bootId, through) !! stuck
    ensures FirstStuck(items, i, bootId, through, stuck)
    ensures Dropped(items, i, bootId, through) == {} <==> StartsStuck(items, bootId, through, stuck)
  {
    hide Covered;
    forall j | 0 <= j < i && Covered(items[j], bootId, through)
      ensures items[j].path.base in Dropped(items, i, bootId, through)
    {
      DroppedMembers(items, i, bootId, through, items[j].path.base);
    }
    if Dropped(items, i, bootId, through) != {} {
      var name :| name in Dropped(items, i, bootId, through);
      DroppedMembers(items, i, bootId, through, name);
    }
  }

  /** The state a failed removal leaves: an index of the remaining files exactly when none were removed. */
  lemma {:induction false} HalfFiltered(was: seq<SpoolItem>, directory: string, files: map<string, File>, i: nat,
                                        bootId: string, through: nat)
    requires IsIndex(was, Catalog(directory, files)) && i < |was|
    ensures var kept := Keep(was, i, bootId, through);
            var dropped := Dropped(was, i, bootId, through);
            |kept| <= i
            && (IsIndex(kept + was[|kept|..], Catalog(directory, files - dropped)) <==> dropped == {})
            && (dropped == {} ==> Filtered(was, i, bootId, through) == kept + was[|kept|..])
  {
    var kept := Keep(was, i, bootId, through);
    var dropped := Dropped(was, i, bootId, through);
    KeepIndexes(was, Catalog(directory, files), i, bootId, through);
    CatalogWithout(directory, files, dropped);
    KeptCount(was, i, bootId, through);
    if dropped == {} {
      assert files - dropped == files;
    } else if IsIndex(kept + was[|kept|..], Catalog(directory, files - dropped)) {
      IndexIsUnique(kept + was[|kept|..], Filtered(was, i, bootId, through), Catalog(directory, files - dropped));
    }
  }

  lemma {:induction false} KeptCount(items: seq<SpoolItem>, n: nat, bootId: string, through: nat)
    requires n <= |items|
    ensures |Keep(items, n, bootId, through)| == n <==> Dropped(items, n, bootId, through) == {}
    ensures Dropped(items, n, bootId, through) == {} ==> Keep(items, n, bootId, through) == items[..n]
  {
    if n > 0 {
      KeptCount(items, n - 1, bootId, through);
    }
  }
}
