/** `SACReplayBuffer`: preallocated columns written in a circle hold the last items. */
module ReplayRing {
  import opened Wrappers
  import opened Arithmetic
  import opened BatchTables

  // ---------------------------------------------------------------- one column

  /** An index modulo the capacity. */
  function Cursor(n: nat, capacity: nat): (r: nat)
    requires capacity > 0
    ensures r < capacity
  {
    n % capacity
  }

  /** `(pos + i) % capacity` for less than one turn. */
  lemma Wrap(pos: nat, i: nat, capacity: nat)
    requires pos < capacity && i <= capacity
    ensures Cursor(pos + i, capacity) == if pos + i < capacity then pos + i else pos + i - capacity
  {
  }

  /** `column[indices] = values` for the indices from `pos` on, wrapped around. */
  function Scatter<T>(column: seq<T>, pos: nat, values: seq<T>): (r: seq<T>)
    requires pos < |column| && |values| <= |column|
    ensures |r| == |column|
  {
    seq(|column|, j requires 0 <= j < |column| =>
      var i := if j >= pos then j - pos else j - pos + |column|;
      if i < |values| then values[i] else column[j])
  }

  lemma ScatterNext<T>(column: seq<T>, pos: nat, values: seq<T>, x: T)
    requires pos < |column| && |values| < |column|
    ensures Scatter(column, pos, values + [x]) == Scatter(column, pos, values)[Cursor(pos + |values|, |column|) := x]
  {
    Wrap(pos, |values|, |column|);
    hide Cursor;
  }

  lemma ScatterNothing<T>(column: seq<T>, pos: nat)
    requires pos < |column|
    ensures Scatter(column, pos, []) == column
  {
  }

  /** The item of the history that a live slot holds: the newest `pos` items, then the older ones. */
  function HistoryIndex(slot: nat, pos: nat, size: nat, length: nat): (i: nat)
    requires slot < size <= length && pos <= size
    ensures length - size <= i < length
  {
    if slot < pos then length - pos + slot else length - size + slot - pos
  }

  /** The next index to write and the number of live slots after `n` items. */
  ghost predicate Counters(n: nat, capacity: nat, pos: nat, size: nat) {
    capacity > 0 && pos == Cursor(n, capacity) && size == Min(n, capacity)
  }

  lemma CountersBelow(n: nat, capacity: nat, pos: nat, size: nat)
    requires Counters(n, capacity, pos, size)
    ensures pos <= size <= n && size <= capacity && pos < capacity
    ensures n < capacity ==> pos == n
  {
  }

  /** The counters after one more item: the oldest slot is the next, and a slot is freed when there is none. */
  lemma CountersNext(n: nat, capacity: nat, pos: nat, size: nat)
    requires Counters(n, capacity, pos, size)
    ensures Counters(n + 1, capacity, Cursor(pos + 1, capacity), Min(size + 1, capacity))
    ensures Cursor(pos + 1, capacity) == if pos + 1 < capacity then pos + 1 else 0
    ensures n < capacity ==> pos == n
  {
    CountModulo(n, 1, capacity);
    Wrap(pos, 1, capacity);
    CountersBelow(n, capacity, pos, size);
  }

  /** A column of `capacity` slots holds the last items of its history. */
  ghost predicate Live<T>(column: seq<T>, pos: nat, size: nat, history: seq<T>) {
    && Counters(|history|, |column|, pos, size) && pos <= size <= |column| && size <= |history|
    && forall j :: 0 <= j < size ==> column[j] == history[HistoryIndex(j, pos, size, |history|)]
  }

  lemma WrittenAt<T>(column: seq<T>, pos: nat, size: nat, history: seq<T>, x: T, at: nat, count: nat, j: nat)
    requires Live(column, pos, size, history) && pos < |column|
    requires at == (if pos + 1 < |column| then pos + 1 else 0) && count == Min(size + 1, |column|) && j < count
    requires |history| < |column| ==> pos == |history|
    ensures at <= count <= |history| + 1
    ensures column[pos := x][j] == (history + [x])[HistoryIndex(j, at, count, |history| + 1)]
  {
    SizeIsMin(column, pos, size, history);
    hide Counters;
    if j != pos {
      assert column[j] == history[HistoryIndex(j, pos, size, |history|)];
    }
  }

  lemma SizeIsMin<T>(column: seq<T>, pos: nat, size: nat, history: seq<T>)
    requires Live(column, pos, size, history)
    ensures size == Min(|history|, |column|)
  {
  }

  lemma WriteKeepsLive<T>(column: seq<T>, pos: nat, size: nat, history: seq<T>, x: T)
    requires Live(column, pos, size, history) && pos < |column|
    ensures Live(column[pos := x], Cursor(pos + 1, |column|), Min(size + 1, |column|), history + [x])
  {
    hide Counters, Cursor, Min, HistoryIndex;
    var written, at, count := column[pos := x], Cursor(pos + 1, |column|), Min(size + 1, |column|);
    CountersNext(|history|, |column|, pos, size);
    CountersBelow(|history| + 1, |column|, at, count);
    forall j | 0 <= j < count
      ensures written[j] == (history + [x])[HistoryIndex(j, at, count, |history| + 1)]
    {
      WrittenAt(column, pos, size, history, x, at, count, j);
    }
  }

  // ---------------------------------------------------------------- all columns

  /** The tensors of the buffer, the next index to write and the number of live slots. */
  datatype Ring<V> = Ring(columns: Batch<V>, pos: nat, size: nat)

  ghost predicate RingOk<V>(ring: Ring<V>, capacity: nat) {
    capacity > 0 && ring.pos < capacity && forall key :: key in ring.columns ==> |ring.columns[key]| == capacity
  }

  ghost predicate HasKeys<V>(items: seq<map<string, V>>, keys: set<string>) {
    forall i :: 0 <= i < |items| ==> items[i].Keys == keys
  }

  function Column<V>(items: seq<map<string, V>>, key: string): (r: seq<V>)
    requires forall i :: 0 <= i < |items| ==> key in items[i]
    ensures |r| == |items|
  {
    seq(|items|, i requires 0 <= i < |items| => items[i][key])
  }

  /** The ring holds the last `capacity` items of the history, every item whole. */
  ghost predicate Holds<V>(ring: Ring<V>, capacity: nat, history: seq<map<string, V>>) {
    && RingOk(ring, capacity) && HasKeys(history, ring.columns.Keys)
    && Counters(|history|, capacity, ring.pos, ring.size)
    && forall key :: key in ring.columns ==> Live(ring.columns[key], ring.pos, ring.size, Column(history, key))
  }

  /** `add`. */
  ghost function AfterAdd<V>(ring: Ring<V>, capacity: nat, item: map<string, V>): Ring<V>
    requires RingOk(ring, capacity) && item.Keys == ring.columns.Keys
  {
    Ring(map key | key in ring.columns ::
      ring.columns[key][ring.pos := item[key]], Cursor(ring.pos + 1, capacity), Min(ring.size + 1, capacity))
  }

  lemma ColumnSnoc<V>(items: seq<map<string, V>>, item: map<string, V>, key: string)
    requires key in item && forall i :: 0 <= i < |items| ==> key in items[i]
    ensures Column(items + [item], key) == Column(items, key) + [item[key]]
  {
  }

  lemma AddOk<V>(ring: Ring<V>, capacity: nat, item: map<string, V>)
    requires RingOk(ring, capacity) && item.Keys == ring.columns.Keys
    ensures RingOk(AfterAdd(ring, capacity, item), capacity)
      && AfterAdd(ring, capacity, item).columns.Keys == ring.columns.Keys
  {
    Wrap(ring.pos, 1, capacity);
  }

  lemma AddedColumn<V>(ring: Ring<V>, capacity: nat, history: seq<map<string, V>>, item: map<string, V>, key: string)
    requires Holds(ring, capacity, history) && item.Keys == ring.columns.Keys && key in item
    ensures ring.pos < |ring.columns[key]| && forall i :: 0 <= i < |history| ==> key in history[i]
    ensures Live(ring.columns[key][ring.pos := item[key]], Cursor(ring.pos + 1, capacity), Min(ring.size + 1, capacity),
      Column(history + [item], key))
  {
    hide Live, Column, Min, Cursor;
    WriteKeepsLive(ring.columns[key], ring.pos, ring.size, Column(history, key), item[key]);
    ColumnSnoc(history, item, key);
  }

  lemma AddHolds<V>(ring: Ring<V>, capacity: nat, history: seq<map<string, V>>, item: map<string, V>)
    requires Holds(ring, capacity, history) && item.Keys == ring.columns.Keys
    ensures Holds(AfterAdd(ring, capacity, item), capacity, history + [item])
  {
    hide Live, Column, Min, Cursor;
    AddOk(ring, capacity, item);
    CountersNext(|history|, capacity, ring.pos, ring.size);
    forall key | key in ring.columns
      ensures Live(AfterAdd(ring, capacity, item).columns[key], Cursor(ring.pos + 1, capacity),
        Min(ring.size + 1, capacity),
        Column(history + [item], key))
    {
      AddedColumn(ring, capacity, history, item, key);
    }
  }

  /** Adding the items one after the other. */
  ghost function AfterAdds<V>(ring: Ring<V>, capacity: nat, items: seq<map<string, V>>): (r: Ring<V>)
    requires RingOk(ring, capacity) && HasKeys(items, ring.columns.Keys)
    ensures RingOk(r, capacity) && r.columns.Keys == ring.columns.Keys
  {
    if items == [] then ring
    else AfterAdd(AfterAdds(ring, capacity, items[..|items| - 1]), capacity, items[|items| - 1])
  }

  lemma {:induction false} AddsHold<V>(ring: Ring<V>, capacity: nat, history: seq<map<string, V>>,
      items: seq<map<string, V>>)
    requires Holds(ring, capacity, history) && HasKeys(items, ring.columns.Keys)
    ensures Holds(AfterAdds(ring, capacity, items), capacity, history + items)
  {
    hide Live;
    if items == [] {
      assert history + items == history;
    } else {
      var init, item := items[..|items| - 1], items[|items| - 1];
      AddsHold(ring, capacity, history, init);
      AddHolds(AfterAdds(ring, capacity, init), capacity, history + init, item);
      assert history + items == history + init + [item];
    }
  }

  // ---------------------------------------------------------------- several items at once

  /** A batch of `count` items, with any keys. */
  ghost predicate Writable<V>(batch: Batch<V>, capacity: nat, pos: nat, count: nat) {
    pos < capacity && count <= capacity && forall key :: key in batch ==> |batch[key]| == count
  }

  ghost predicate AllLong<V>(columns: Batch<V>, capacity: nat) {
    forall key :: key in columns ==> |columns[key]| == capacity
  }

  /** `insert_nested_batch`: only the columns the batch has are written. */
  ghost function Overwritten<V>(columns: Batch<V>, capacity: nat, pos: nat, batch: Batch<V>, count: nat)
    : (r: Batch<V>)
    requires Writable(batch, capacity, pos, count) && AllLong(columns, capacity)
    ensures r.Keys == columns.Keys && AllLong(r, capacity)
  {
    map key | key in columns :: if key in batch then Scatter(columns[key], pos, batch[key]) else columns[key]
  }

  /** `insert_nested_batch` with the step of the counters behind it. */
  ghost function AfterWrite<V>(ring: Ring<V>, capacity: nat, batch: Batch<V>, count: nat): (r: Ring<V>)
    requires RingOk(ring, capacity) && Writable(batch, capacity, ring.pos, count)
    ensures RingOk(r, capacity) && r.columns.Keys == ring.columns.Keys
  {
    Ring(Overwritten(ring.columns, capacity, ring.pos, batch, count), Cursor(ring.pos + count, capacity),
      Min(ring.size + count, capacity))
  }

  /** The item that a slot ends with: where the batch has no column, the slot keeps what it had. */
  function NewItem<V>(columns: Batch<V>, capacity: nat, pos: nat, batch: Batch<V>, i: nat): (item: map<string, V>)
    requires capacity > 0 && forall key :: key in columns ==> |columns[key]| == capacity
    requires forall key :: key in batch ==> i < |batch[key]|
    ensures item.Keys == columns.Keys
  {
    map key | key in columns :: if key in batch then batch[key][i] else columns[key][Cursor(pos + i, capacity)]
  }

  ghost function NewItems<V>(columns: Batch<V>, capacity: nat, pos: nat, batch: Batch<V>, count: nat)
    : (items: seq<map<string, V>>)
    requires Writable(batch, capacity, pos, count) && AllLong(columns, capacity)
    ensures |items| == count && forall i :: 0 <= i < count ==> items[i].Keys == columns.Keys
  {
    seq(count, i requires 0 <= i < count => NewItem(columns, capacity, pos, batch, i))
  }

  lemma PosNext(pos: nat, size: nat, i: nat, capacity: nat)
    requires pos < capacity && i < capacity
    ensures Cursor(Cursor(pos + i, capacity) + 1, capacity) == Cursor(pos + (i + 1), capacity)
    ensures Min(Min(size + i, capacity) + 1, capacity) == Min(size + (i + 1), capacity)
  {
    Wrap(pos, i, capacity);
    Wrap(pos, i + 1, capacity);
    Wrap(Cursor(pos + i, capacity), 1, capacity);
    hide Cursor;
  }

  lemma Unmoved(pos: nat, size: nat, capacity: nat)
    requires pos < capacity && size <= capacity
    ensures Cursor(pos + 0, capacity) == pos && Min(size + 0, capacity) == size
  {
  }

  lemma KeysOfInit<V>(items: seq<map<string, V>>, keys: set<string>)
    requires HasKeys(items, keys) && items != []
    ensures HasKeys(items[..|items| - 1], keys) && items[|items| - 1].Keys == keys
  {
  }

  lemma AddedCounters<V>(ring: Ring<V>, capacity: nat, item: map<string, V>)
    requires RingOk(ring, capacity) && item.Keys == ring.columns.Keys
    ensures AfterAdd(ring, capacity, item).pos == Cursor(ring.pos + 1, capacity)
    ensures AfterAdd(ring, capacity, item).size == Min(ring.size + 1, capacity)
  {
  }

  lemma {:induction false} AddsCounters<V>(ring: Ring<V>, capacity: nat, items: seq<map<string, V>>)
    requires RingOk(ring, capacity) && HasKeys(items, ring.columns.Keys) && |items| <= capacity
      && ring.size <= capacity
    ensures AfterAdds(ring, capacity, items).pos == Cursor(ring.pos + |items|, capacity)
    ensures AfterAdds(ring, capacity, items).size == Min(ring.size + |items|, capacity)
  {
    hide AfterAdd, Cursor, Min, HasKeys;
    if items == [] {
      Unmoved(ring.pos, ring.size, capacity);
    } else {
      KeysOfInit(items, ring.columns.Keys);
      var init, item := items[..|items| - 1], items[|items| - 1];
      AddsCounters(ring, capacity, init);
      AddedCounters(AfterAdds(ring, capacity, init), capacity, item);
      PosNext(ring.pos, ring.size, |init|, capacity);
    }
  }

  lemma AddColumn<V>(ring: Ring<V>, capacity: nat, item: map<string, V>, key: string)
    requires RingOk(ring, capacity) && item.Keys == ring.columns.Keys && key in ring.columns
    ensures key in AfterAdd(ring, capacity, item).columns && ring.pos < |ring.columns[key]| && key in item
    ensures AfterAdd(ring, capacity, item).columns[key] == ring.columns[key][ring.pos := item[key]]
  {
  }

  lemma HaveKey<V>(items: seq<map<string, V>>, keys: set<string>, key: string)
    requires HasKeys(items, keys) && key in keys
    ensures forall i :: 0 <= i < |items| ==> key in items[i]
  {
  }

  /** Up to `capacity` items added one after the other, seen in one column. */
  lemma {:induction false} AddsColumn<V>(ring: Ring<V>, capacity: nat, items: seq<map<string, V>>, key: string)
    requires RingOk(ring, capacity) && HasKeys(items, ring.columns.Keys) && |items| <= capacity
      && ring.size <= capacity && key in ring.columns
    ensures ring.pos < |ring.columns[key]| == capacity && forall i :: 0 <= i < |items| ==> key in items[i]
    ensures AfterAdds(ring, capacity, items).columns[key] == Scatter(ring.columns[key], ring.pos, Column(items, key))
  {
    HaveKey(items, ring.columns.Keys, key);
    ColumnLong(ring, capacity, key);
    hide AfterAdd, Cursor, HasKeys, Scatter, RingOk;
    if items == [] {
      ScatterNothing(ring.columns[key], ring.pos);
      assert Column(items, key) == [];
    } else {
      KeysOfInit(items, ring.columns.Keys);
      var init, item := items[..|items| - 1], items[|items| - 1];
      AddsColumn(ring, capacity, init, key);
      AddsCounters(ring, capacity, init);
      AddColumn(AfterAdds(ring, capacity, init), capacity, item, key);
      ScatterNext(ring.columns[key], ring.pos, Column(init, key), item[key]);
      ColumnSnoc(init, item, key);
      assert items == init + [item];
    }
  }

  lemma ColumnLong<V>(ring: Ring<V>, capacity: nat, key: string)
    requires RingOk(ring, capacity) && key in ring.columns
    ensures |ring.columns[key]| == capacity && ring.pos < capacity && capacity > 0
  {
  }

  /** What `count` slots from `pos` on hold. */
  function Slots<T>(column: seq<T>, pos: nat, count: nat): (r: seq<T>)
    requires pos < |column| && count <= |column|
    ensures |r| == count
  {
    seq(count, i requires 0 <= i < count => column[Cursor(pos + i, |column|)])
  }

  lemma ScatterOwn<T>(column: seq<T>, pos: nat, count: nat)
    requires pos < |column| && count <= |column|
    ensures Scatter(column, pos, Slots(column, pos, count)) == column
  {
    forall i: nat | i < count
      ensures Slots(column, pos, count)[i] == column[if pos + i < |column| then pos + i else pos + i - |column|]
    {
      Wrap(pos, i, |column|);
    }
    hide Cursor, Slots;
  }

  lemma NewColumn<V>(columns: Batch<V>, capacity: nat, pos: nat, batch: Batch<V>, count: nat, key: string)
    requires Writable(batch, capacity, pos, count) && AllLong(columns, capacity) && key in columns
    ensures |columns[key]| == capacity && forall i :: 0 <= i < count ==>
      key in NewItems(columns, capacity, pos, batch, count)[i]
    ensures Column(NewItems(columns, capacity, pos, batch, count), key)
      == if key in batch then batch[key] else Slots(columns[key], pos, count)
  {
    hide Cursor;
  }

  lemma ColumnsByKey<V>(a: Batch<V>, b: Batch<V>)
    requires a.Keys == b.Keys && forall key :: key in a ==> a[key] == b[key]
    ensures a == b
  {
  }

  lemma OverwrittenColumn<V>(columns: Batch<V>, capacity: nat, pos: nat, batch: Batch<V>, count: nat, key: string)
    requires Writable(batch, capacity, pos, count) && AllLong(columns, capacity) && key in columns
    ensures |columns[key]| == capacity && |Column(NewItems(columns, capacity, pos, batch, count), key)| == count
    ensures Overwritten(columns, capacity, pos, batch, count)[key]
      == Scatter(columns[key], pos, Column(NewItems(columns, capacity, pos, batch, count), key))
  {
    NewColumn(columns, capacity, pos, batch, count, key);
    hide Scatter, Slots, NewItems, Column;
    if key !in batch {
      ScatterOwn(columns[key], pos, count);
    }
  }

  lemma NewKeys<V>(columns: Batch<V>, capacity: nat, pos: nat, batch: Batch<V>, count: nat)
    requires Writable(batch, capacity, pos, count) && AllLong(columns, capacity)
    ensures HasKeys(NewItems(columns, capacity, pos, batch, count), columns.Keys)
  {
    hide NewItems;
  }

  lemma RingLong<V>(ring: Ring<V>, capacity: nat)
    requires RingOk(ring, capacity)
    ensures AllLong(ring.columns, capacity) && ring.pos < capacity
  {
  }

  lemma WritableMeans<V>(batch: Batch<V>, capacity: nat, pos: nat, count: nat)
    requires Writable(batch, capacity, pos, count)
    ensures pos < capacity && count <= capacity
  {
  }

  lemma AfterWriteMeans<V>(ring: Ring<V>, capacity: nat, batch: Batch<V>, count: nat)
    requires RingOk(ring, capacity) && Writable(batch, capacity, ring.pos, count)
    ensures AllLong(ring.columns, capacity)
    ensures var r := AfterWrite(ring, capacity, batch, count);
      && r.pos == Cursor(ring.pos + count, capacity) && r.size == Min(ring.size + count, capacity)
      && r.columns == Overwritten(ring.columns, capacity, ring.pos, batch, count)
  {
  }

  lemma WrittenColumn<V>(ring: Ring<V>, capacity: nat, batch: Batch<V>, count: nat, items: seq<map<string, V>>,
      key: string)
    requires RingOk(ring, capacity) && ring.size <= capacity && Writable(batch, capacity, ring.pos, count)
    requires AllLong(ring.columns, capacity) && items == NewItems(ring.columns, capacity, ring.pos, batch, count)
    requires HasKeys(items, ring.columns.Keys) && key in ring.columns
    ensures Overwritten(ring.columns, capacity, ring.pos, batch, count)[key]
      == AfterAdds(ring, capacity, items).columns[key]
  {
    hide RingOk, Cursor, Min, Overwritten, AfterAdds, NewItems, HasKeys, Column, Scatter;
    AddsColumn(ring, capacity, items, key);
    OverwrittenColumn(ring.columns, capacity, ring.pos, batch, count, key);
  }

  /** Writing a batch at wrapped indices is adding its items, completed by what the slots held, one by one. */
  lemma BatchIsAdds<V>(ring: Ring<V>, capacity: nat, batch: Batch<V>, count: nat)
    requires RingOk(ring, capacity) && ring.size <= capacity && Writable(batch, capacity, ring.pos, count)
    ensures AllLong(ring.columns, capacity)
    ensures var items := NewItems(ring.columns, capacity, ring.pos, batch, count);
      HasKeys(items, ring.columns.Keys) && AfterWrite(ring, capacity, batch, count) == AfterAdds(ring, capacity, items)
  {
    hide *;
    RingLong(ring, capacity);
    NewKeys(ring.columns, capacity, ring.pos, batch, count);
    var items := NewItems(ring.columns, capacity, ring.pos, batch, count);
    WritableMeans(batch, capacity, ring.pos, count);
    AddsCounters(ring, capacity, items);
    AfterWriteMeans(ring, capacity, batch, count);
    var a, b := AfterWrite(ring, capacity, batch, count), AfterAdds(ring, capacity, items);
    forall key | key in ring.columns
      ensures a.columns[key] == b.columns[key]
    {
      WrittenColumn(ring, capacity, batch, count, items, key);
    }
    ColumnsByKey(a.columns, b.columns);
  }

  /** So the ring then holds those items too. */
  lemma WriteHolds<V>(ring: Ring<V>, capacity: nat, history: seq<map<string, V>>, batch: Batch<V>, count: nat)
    requires Holds(ring, capacity, history) && Writable(batch, capacity, ring.pos, count)
    ensures RingOk(ring, capacity) && AllLong(ring.columns, capacity)
    ensures Holds(AfterWrite(ring, capacity, batch, count), capacity,
      history + NewItems(ring.columns, capacity, ring.pos, batch, count))
  {
    HoldsMeans(ring, capacity, history);
    hide *;
    BatchIsAdds(ring, capacity, batch, count);
    AddsHold(ring, capacity, history, NewItems(ring.columns, capacity, ring.pos, batch, count));
  }

  lemma HoldsMeans<V>(ring: Ring<V>, capacity: nat, history: seq<map<string, V>>)
    requires Holds(ring, capacity, history)
    ensures RingOk(ring, capacity) && ring.size == Min(|history|, capacity) && ring.size <= capacity && capacity > 0
    ensures ring.pos < capacity && ring.pos <= ring.size && (ring.size < capacity ==> ring.pos == ring.size)
    ensures AllLong(ring.columns, capacity)
  {
    CountersBelow(|history|, capacity, ring.pos, ring.size);
  }

  /** Items that have all keys need no completion. */
  lemma CompleteItems<V>(columns: Batch<V>, capacity: nat, pos: nat, batch: Batch<V>, tk: string)
    requires Aligned(batch, tk) && batch.Keys == columns.Keys
    requires AllLong(columns, capacity) && Writable(batch, capacity, pos, |batch[tk]|)
    ensures NewItems(columns, capacity, pos, batch, |batch[tk]|) == Rows(batch, tk)
  {
    hide Cursor;
    forall i | 0 <= i < |batch[tk]|
      ensures NewItems(columns, capacity, pos, batch, |batch[tk]|)[i] == Rows(batch, tk)[i]
    {
      assert NewItem(columns, capacity, pos, batch, i) == map key | key in batch :: batch[key][i];
    }
  }

  lemma ClearHolds<V>(ring: Ring<V>, capacity: nat, history: seq<map<string, V>>)
    requires Holds(ring, capacity, history)
    ensures Holds(Ring(ring.columns, 0, 0), capacity, [])
  {
    hide Column;
    forall key | key in ring.columns
      ensures Live(ring.columns[key], 0, 0, Column([], key))
    {
    }
  }

  // ---------------------------------------------------------------- insertions that fail half-way

  /** The keys in the order of the dictionary, each once. */
  ghost predicate Ordered(order: seq<string>, keys: set<string>) {
    (forall key :: key in order <==> key in keys) && forall i, j :: 0 <= i < j < |order| ==> order[i] != order[j]
  }

  /** The keys written before the first one that is missing raises. */
  function WrittenKeys(order: seq<string>, keys: set<string>): (r: seq<string>)
    ensures forall key :: key in r ==> key in keys && key in order
    ensures (forall key :: key in order ==> key in keys) ==> r == order
  {
    if order == [] || order[0] !in keys then []
    else
      assert order == [order[0]] + order[1..];
      [order[0]] + WrittenKeys(order[1..], keys)
  }

  /** The columns of the batch written before the first missing key raises; all of them if none is missing. */
  function WrittenPart<V>(batch: Batch<V>, order: seq<string>, keys: set<string>): Batch<V> {
    map key | key in batch && key in WrittenKeys(order, keys) :: batch[key]
  }

  lemma AllIsWritten<V>(batch: Batch<V>, order: seq<string>, keys: set<string>)
    requires Ordered(order, batch.Keys) && batch.Keys <= keys
    ensures WrittenPart(batch, order, keys) == batch
  {
  }

  /** What the batch has for live slots is what they hold. */
  ghost predicate LeavesLive<V>(ring: Ring<V>, capacity: nat, batch: Batch<V>, count: nat)
    requires RingOk(ring, capacity) && Writable(batch, capacity, ring.pos, count)
  {
    forall key :: key in batch && key in ring.columns ==> Agrees(ring.columns[key], ring.pos, ring.size, batch[key])
  }

  ghost predicate Agrees<T>(column: seq<T>, pos: nat, size: nat, values: seq<T>)
    requires |column| > 0
  {
    forall i: nat :: i < |values| && Cursor(pos + i, |column|) < size ==> values[i] == column[Cursor(pos + i, |column|)]
  }

  lemma ScatterAt<T>(column: seq<T>, pos: nat, values: seq<T>, i: nat)
    requires pos < |column| && |values| <= |column| && i < |values|
    ensures Scatter(column, pos, values)[Cursor(pos + i, |column|)] == values[i]
  {
    Wrap(pos, i, |column|);
  }

  /** Each slot that is written is written once. */
  lemma ScatterElse<T>(column: seq<T>, pos: nat, values: seq<T>, j: nat) returns (i: nat)
    requires pos < |column| && |values| <= |column| && j < |column| && Scatter(column, pos, values)[j] != column[j]
    ensures i < |values| && Cursor(pos + i, |column|) == j && Scatter(column, pos, values)[j] == values[i]
  {
    i := if j >= pos then j - pos else j - pos + |column|;
    Wrap(pos, i, |column|);
  }

  /** A column stays right under unchanged counters exactly if no live slot changes. */
  lemma LiveIff<T>(column: seq<T>, pos: nat, size: nat, history: seq<T>, values: seq<T>)
    requires Live(column, pos, size, history) && pos < |column| && |values| <= |column|
    ensures Live(Scatter(column, pos, values), pos, size, history) <==> Agrees(column, pos, size, values)
  {
    hide Counters, HistoryIndex, Cursor, Scatter;
    var after := Scatter(column, pos, values);
    if Agrees(column, pos, size, values) {
      forall j: nat | j < size
        ensures after[j] == column[j]
      {
        if after[j] != column[j] {
          var i := ScatterElse(column, pos, values, j);
        }
      }
    }
    if Live(after, pos, size, history) {
      forall i: nat | i < |values| && Cursor(pos + i, |column|) < size
        ensures values[i] == column[Cursor(pos + i, |column|)]
      {
        ScatterAt(column, pos, values, i);
      }
    }
  }

  lemma SomeLive<V>(ring: Ring<V>, capacity: nat, history: seq<map<string, V>>, batch: Batch<V>, count: nat,
      key: string)
    requires Holds(ring, capacity, history) && Writable(batch, capacity, ring.pos, count)
    requires key in ring.columns
    ensures |ring.columns[key]| == capacity && capacity > 0 && ring.pos < capacity
    ensures AllLong(ring.columns, capacity) && forall i :: 0 <= i < |history| ==> key in history[i]
    ensures Live(Overwritten(ring.columns, capacity, ring.pos, batch, count)[key], ring.pos, ring.size,
        Column(history, key))
      <==> (key in batch ==> Agrees(ring.columns[key], ring.pos, ring.size, batch[key]))
  {
    hide Live, Column, Scatter, Agrees, Counters;
    if key in batch {
      LiveIff(ring.columns[key], ring.pos, ring.size, Column(history, key), batch[key]);
    }
  }

  /** The ring is right after a write without a step of the counters exactly if no live slot changes. */
  lemma WrittenHoldsIff<V>(ring: Ring<V>, capacity: nat, history: seq<map<string, V>>, batch: Batch<V>, count: nat)
    requires Holds(ring, capacity, history) && Writable(batch, capacity, ring.pos, count)
    ensures RingOk(ring, capacity) && AllLong(ring.columns, capacity)
    ensures Holds(Ring(Overwritten(ring.columns, capacity, ring.pos, batch, count), ring.pos, ring.size), capacity,
        history)
      <==> LeavesLive(ring, capacity, batch, count)
  {
    HoldsMeans(ring, capacity, history);
    hide Live, Column, Overwritten, Agrees, Counters, Writable, AllLong;
    var after := Overwritten(ring.columns, capacity, ring.pos, batch, count);
    forall key | key in ring.columns
      ensures |ring.columns[key]| == capacity && forall i :: 0 <= i < |history| ==> key in history[i]
      ensures Live(after[key], ring.pos, ring.size, Column(history, key))
        <==> (key in batch ==> Agrees(ring.columns[key], ring.pos, ring.size, batch[key]))
    {
      SomeLive(ring, capacity, history, batch, count, key);
    }
  }

  /** Free slots may be written without harm. */
  lemma FreeSlotsLeaveLive<V>(ring: Ring<V>, capacity: nat, history: seq<map<string, V>>, batch: Batch<V>, count: nat)
    requires Holds(ring, capacity, history) && Writable(batch, capacity, ring.pos, count)
    requires ring.size + count <= capacity
    ensures RingOk(ring, capacity) && LeavesLive(ring, capacity, batch, count)
  {
    HoldsMeans(ring, capacity, history);
    hide Holds, Cursor, Min, RingOk, AllLong, Agrees;
    forall key | key in batch && key in ring.columns
      ensures |ring.columns[key]| > 0 && Agrees(ring.columns[key], ring.pos, ring.size, batch[key])
    {
      ColumnLong(ring, capacity, key);
      FreeAgrees(ring.columns[key], ring.pos, ring.size, batch[key]);
    }
  }

  lemma FreeAgrees<T>(column: seq<T>, pos: nat, size: nat, values: seq<T>)
    requires pos < |column| && pos <= size && size + |values| <= |column| && (size < |column| ==> pos == size)
    ensures Agrees(column, pos, size, values)
  {
    hide Cursor;
    forall i: nat | i < |values|
      ensures Cursor(pos + i, |column|) < size ==> values[i] == column[Cursor(pos + i, |column|)]
    {
      Wrap(pos, i, |column|);
    }
  }

  // ---------------------------------------------------------------- whole runs

  /** The buffer, and the items added since the last `clear`. */
  datatype State<V> = State(ring: Ring<V>, history: seq<map<string, V>>)

  /** The calls that change the buffer; dictionaries come with the order of their keys. */
  datatype Op<V> =
    | AddItem(item: map<string, V>, order: seq<string>)
    | AddBatch(batch: Batch<V>, order: seq<string>, preprocess: bool)
    | ClearAll

  /** `if not self.buffer: self._initialize_storage(...)`: items without any key become items of zeros. */
  ghost function Started<V>(st: State<V>, keys: set<string>, capacity: nat, zero: V): State<V> {
    if st.ring.columns != map[] then st
    else
      State(Ring(map key | key in keys :: seq(capacity, _ => zero), st.ring.pos, st.ring.size),
        seq(|st.history|, _ => map key | key in keys :: zero))
  }

  /** A batch of one item. */
  function Single<V>(item: map<string, V>): Batch<V> {
    map key | key in item :: [item[key]]
  }

  /** All columns are equally long. */
  predicate Uniform<V>(batch: Batch<V>) {
    forall k, l :: k in batch && l in batch ==> |batch[k]| == |batch[l]|
  }

  /** `num_to_add`: preprocessing takes it from all tensors, and fails if there are none or they differ. */
  function RowCount<V>(batch: Batch<V>, order: seq<string>, preprocess: bool): Option<nat>
    requires forall key :: key in order ==> key in batch
  {
    if !preprocess then (if "rewards" in batch then Some(|batch["rewards"]|) else None)
    else if order == [] || !Uniform(batch) then None
    else Some(|batch[order[0]]|)
  }

  /** The keys are listed in order; without preprocessing the caller has made the columns equally long. */
  ghost predicate OpOk<V>(op: Op<V>) {
    match op
    case AddItem(item, order) => Ordered(order, item.Keys)
    case AddBatch(batch, order, preprocess) => Ordered(order, batch.Keys) && (preprocess || Uniform(batch))
    case ClearAll => true
  }

  /** The insertion at `pos`, which stops at a key the buffer does not have. */
  ghost function AfterInsertion<V>(st: State<V>, capacity: nat, batch: Batch<V>, order: seq<string>,
      count: nat): State<V>
    requires RingOk(st.ring, capacity) && Writable(batch, capacity, st.ring.pos, count)
  {
    var columns := st.ring.columns;
    if batch.Keys <= columns.Keys then
      State(AfterWrite(st.ring, capacity, batch, count),
        st.history + NewItems(columns, capacity, st.ring.pos, batch, count))
    else
      State(Ring(Overwritten(columns, capacity, st.ring.pos, WrittenPart(batch, order, columns.Keys), count),
        st.ring.pos, st.ring.size), st.history)
  }

  /** The insertion an operation comes to, if it comes to one: the buffer before it, the batch and its size. */
  datatype Insertion<V> = Insertion(before: State<V>, batch: Batch<V>, order: seq<string>, count: nat)

  ghost function InsertionOf<V>(st: State<V>, capacity: nat, zero: V, op: Op<V>): Option<Insertion<V>>
    requires OpOk(op)
  {
    match op
    case AddItem(item, order) =>
      Some(Insertion(Started(st, item.Keys, capacity, zero), Single(item), order, 1))
    case AddBatch(batch, order, preprocess) =>
      var count := RowCount(batch, order, preprocess);
      if count.None? || count.value == 0 || count.value >= capacity then None
      else Some(Insertion(Started(st, batch.Keys, capacity, zero), batch, order, count.value))
    case ClearAll => None
  }

  ghost predicate StateOk<V>(st: State<V>, capacity: nat) {
    RingOk(st.ring, capacity) && st.ring.size <= capacity
  }

  lemma StartedOk<V>(st: State<V>, keys: set<string>, capacity: nat, zero: V)
    requires StateOk(st, capacity)
    ensures StateOk(Started(st, keys, capacity, zero), capacity)
    ensures var after := Started(st, keys, capacity, zero);
      after.ring.pos == st.ring.pos && after.ring.size == st.ring.size && |after.history| == |st.history|
  {
  }

  lemma InsertionOk<V>(st: State<V>, capacity: nat, zero: V, op: Op<V>)
    requires OpOk(op) && StateOk(st, capacity) && InsertionOf(st, capacity, zero, op).Some?
    ensures var x := InsertionOf(st, capacity, zero, op).value;
      && StateOk(x.before, capacity) && Writable(x.batch, capacity, x.before.ring.pos, x.count)
      && Ordered(x.order, x.batch.Keys)
  {
    match op
    case AddItem(item, order) =>
      StartedOk(st, item.Keys, capacity, zero);
      assert Single(item).Keys == item.Keys;
    case AddBatch(batch, order, preprocess) =>
      StartedOk(st, batch.Keys, capacity, zero);
  }

  /** What a call leaves. A batch that is too large has its columns made before it raises. */
  ghost function Stepped<V>(st: State<V>, capacity: nat, zero: V, op: Op<V>): State<V>
    requires OpOk(op) && StateOk(st, capacity)
  {
    var x := InsertionOf(st, capacity, zero, op);
    if x.Some? then
      InsertionOk(st, capacity, zero, op);
      AfterInsertion(x.value.before, capacity, x.value.batch, x.value.order, x.value.count)
    else match op
      case AddBatch(batch, order, preprocess) =>
        var count := RowCount(batch, order, preprocess);
        if count.None? || count.value == 0 then st else Started(st, batch.Keys, capacity, zero)
      case _ => State(Ring(st.ring.columns, 0, 0), [])
  }

  /** The call raises: nothing to add, too much, or a key that is no column. */
  ghost predicate Raises<V>(st: State<V>, capacity: nat, zero: V, op: Op<V>)
    requires OpOk(op)
  {
    var x := InsertionOf(st, capacity, zero, op);
    if x.None? then !op.ClearAll? else !(x.value.batch.Keys <= x.value.before.ring.columns.Keys)
  }

  /** The call raises after it has changed a live slot. */
  ghost predicate Harms<V>(st: State<V>, capacity: nat, zero: V, op: Op<V>)
    requires OpOk(op) && StateOk(st, capacity)
  {
    var x := InsertionOf(st, capacity, zero, op);
    x.Some? && (
      InsertionOk(st, capacity, zero, op);
      var columns := x.value.before.ring.columns;
      && !(x.value.batch.Keys <= columns.Keys)
      && !LeavesLive(x.value.before.ring, capacity, WrittenPart(x.value.batch, x.value.order, columns.Keys),
        x.value.count))
  }

  lemma PartWritable<V>(batch: Batch<V>, capacity: nat, pos: nat, count: nat, order: seq<string>, keys: set<string>)
    requires Writable(batch, capacity, pos, count)
    ensures Writable(WrittenPart(batch, order, keys), capacity, pos, count)
  {
  }

  lemma AfterInsertionOk<V>(st: State<V>, capacity: nat, batch: Batch<V>, order: seq<string>, count: nat)
    requires StateOk(st, capacity) && Writable(batch, capacity, st.ring.pos, count)
    ensures StateOk(AfterInsertion(st, capacity, batch, order, count), capacity)
  {
    PartWritable(batch, capacity, st.ring.pos, count, order, st.ring.columns.Keys);
    hide WrittenPart, Scatter;
  }

  lemma SteppedOk<V>(st: State<V>, capacity: nat, zero: V, op: Op<V>)
    requires OpOk(op) && StateOk(st, capacity)
    ensures StateOk(Stepped(st, capacity, zero, op), capacity)
  {
    var x := InsertionOf(st, capacity, zero, op);
    if x.Some? {
      InsertionOk(st, capacity, zero, op);
      hide InsertionOf, AfterInsertion, OpOk, StateOk;
      AfterInsertionOk(x.value.before, capacity, x.value.batch, x.value.order, x.value.count);
    } else if op.AddBatch? {
      StartedOk(st, op.batch.Keys, capacity, zero);
      hide Started;
    }
  }

  ghost predicate StateHolds<V>(st: State<V>, capacity: nat) {
    Holds(st.ring, capacity, st.history)
  }

  lemma HoldsIsOk<V>(st: State<V>, capacity: nat)
    requires StateHolds(st, capacity)
    ensures StateOk(st, capacity)
  {
    HoldsMeans(st.ring, capacity, st.history);
    hide Holds;
  }

  lemma StartedHolds<V>(st: State<V>, keys: set<string>, capacity: nat, zero: V)
    requires StateHolds(st, capacity)
    ensures StateHolds(Started(st, keys, capacity, zero), capacity)
  {
    hide Counters, HistoryIndex;
    if st.ring.columns == map[] {
      var after := Started(st, keys, capacity, zero);
      CountersBelow(|st.history|, capacity, st.ring.pos, st.ring.size);
      forall key | key in keys
        ensures Live(after.ring.columns[key], after.ring.pos, after.ring.size, Column(after.history, key))
      {
      }
    }
  }

  /** An insertion keeps the ring right unless it fails after it has changed a live slot. */
  lemma InsertionHolds<V>(st: State<V>, capacity: nat, batch: Batch<V>, order: seq<string>, count: nat)
    requires StateHolds(st, capacity) && RingOk(st.ring, capacity) && Writable(batch, capacity, st.ring.pos, count)
    ensures Writable(WrittenPart(batch, order, st.ring.columns.Keys), capacity, st.ring.pos, count)
    ensures StateHolds(AfterInsertion(st, capacity, batch, order, count), capacity)
      <==> (batch.Keys <= st.ring.columns.Keys
        || LeavesLive(st.ring, capacity, WrittenPart(batch, order, st.ring.columns.Keys), count))
  {
    hide Holds, AfterWrite, NewItems, Overwritten, LeavesLive, RingOk, WrittenPart, Writable;
    PartWritable(batch, capacity, st.ring.pos, count, order, st.ring.columns.Keys);
    if batch.Keys <= st.ring.columns.Keys {
      WriteHolds(st.ring, capacity, st.history, batch, count);
    } else {
      WrittenHoldsIff(st.ring, capacity, st.history, WrittenPart(batch, order, st.ring.columns.Keys), count);
    }
  }

  /** Every call keeps the ring equal to the last items, exactly unless it raises after it has changed a live slot. */
  lemma StepHolds<V>(st: State<V>, capacity: nat, zero: V, op: Op<V>)
    requires OpOk(op) && StateHolds(st, capacity)
    ensures StateOk(st, capacity)
    ensures StateHolds(Stepped(st, capacity, zero, op), capacity) <==> !Harms(st, capacity, zero, op)
  {
    HoldsIsOk(st, capacity);
    hide StateOk, OpOk, AfterInsertion, LeavesLive, WrittenPart, Started, Holds, Single, RowCount;
    match op
    case AddItem(item, order) =>
      StartedHolds(st, item.Keys, capacity, zero);
      var x := InsertionOf(st, capacity, zero, op).value;
      InsertionOk(st, capacity, zero, op);
      StateOkMeans(x.before, capacity);
      InsertionHolds(x.before, capacity, x.batch, x.order, x.count);
    case AddBatch(batch, order, preprocess) =>
      StartedHolds(st, batch.Keys, capacity, zero);
      if InsertionOf(st, capacity, zero, op).Some? {
        var x := InsertionOf(st, capacity, zero, op).value;
        InsertionOk(st, capacity, zero, op);
        StateOkMeans(x.before, capacity);
        InsertionHolds(x.before, capacity, x.batch, x.order, x.count);
      }
    case ClearAll => ClearHolds(st.ring, capacity, st.history);
  }

  lemma StateOkMeans<V>(st: State<V>, capacity: nat)
    requires StateOk(st, capacity)
    ensures RingOk(st.ring, capacity)
  {
  }

  /** What `add` comes to. */
  lemma AddItemMeans<V>(st: State<V>, capacity: nat, zero: V, item: map<string, V>, order: seq<string>)
    requires StateHolds(st, capacity) && Ordered(order, item.Keys)
    ensures StateOk(st, capacity) && OpOk(AddItem(item, order)) && Single(item).Keys == item.Keys
    ensures var op, before := AddItem(item, order), Started(st, item.Keys, capacity, zero);
      && RingOk(before.ring, capacity) && Writable(Single(item), capacity, before.ring.pos, 1)
      && (Raises(st, capacity, zero, op) <==> !(item.Keys <= before.ring.columns.Keys))
      && Stepped(st, capacity, zero, op) == AfterInsertion(before, capacity, Single(item), order, 1)
      && (StateHolds(Stepped(st, capacity, zero, op), capacity) <==> !Harms(st, capacity, zero, op))
  {
    var op := AddItem(item, order);
    hide StateHolds, Started, Writable, RingOk, AfterInsertion, Harms, Ordered;
    StepHolds(st, capacity, zero, op);
    InsertionOk(st, capacity, zero, op);
    assert Single(item).Keys == item.Keys;
  }

  /** What `add_rollout_batch` comes to when there are too few or too many items. */
  lemma AddBatchRaises<V>(st: State<V>, capacity: nat, zero: V, batch: Batch<V>, order: seq<string>, preprocess: bool)
    requires StateHolds(st, capacity) && Ordered(order, batch.Keys) && (preprocess || Uniform(batch))
    ensures StateOk(st, capacity) && OpOk(AddBatch(batch, order, preprocess))
    ensures forall key :: key in order ==> key in batch
    ensures var op, count := AddBatch(batch, order, preprocess), RowCount(batch, order, preprocess);
      && (StateHolds(Stepped(st, capacity, zero, op), capacity) <==> !Harms(st, capacity, zero, op))
      && (count.None? || count.value == 0 ==>
        Raises(st, capacity, zero, op) && Stepped(st, capacity, zero, op) == st)
      && (count.Some? && count.value > 0 && count.value >= capacity ==>
        Raises(st, capacity, zero, op)
        && Stepped(st, capacity, zero, op) == Started(st, batch.Keys, capacity, zero))
  {
    OrderedMeans(order, batch.Keys);
    hide StateHolds, Started, Writable, RingOk, AfterInsertion, Harms, Ordered, Uniform, RowCount;
    StepHolds(st, capacity, zero, AddBatch(batch, order, preprocess));
  }

  /** And when it inserts. */
  lemma AddBatchInserts<V>(st: State<V>, capacity: nat, zero: V, batch: Batch<V>, order: seq<string>,
      preprocess: bool, count: nat)
    requires OpOk(AddBatch(batch, order, preprocess)) && StateOk(st, capacity)
    requires forall key :: key in order ==> key in batch
    requires RowCount(batch, order, preprocess) == Some(count) && 0 < count < capacity
    ensures var op, before := AddBatch(batch, order, preprocess), Started(st, batch.Keys, capacity, zero);
      && RingOk(before.ring, capacity) && Writable(batch, capacity, before.ring.pos, count)
      && (Raises(st, capacity, zero, op) <==> !(batch.Keys <= before.ring.columns.Keys))
      && Stepped(st, capacity, zero, op) == AfterInsertion(before, capacity, batch, order, count)
  {
    hide Started, Writable, RingOk, AfterInsertion, OpOk, RowCount;
    InsertionOk(st, capacity, zero, AddBatch(batch, order, preprocess));
  }

  /** What an insertion leaves, field by field. */
  lemma InsertionCases<V>(st: State<V>, capacity: nat, batch: Batch<V>, order: seq<string>, count: nat)
    requires RingOk(st.ring, capacity) && Writable(batch, capacity, st.ring.pos, count) && Ordered(order, batch.Keys)
    ensures var part := WrittenPart(batch, order, st.ring.columns.Keys);
      && AllLong(st.ring.columns, capacity) && Writable(part, capacity, st.ring.pos, count) && capacity > 0
      && var written := Overwritten(st.ring.columns, capacity, st.ring.pos, part, count);
         var after := AfterInsertion(st, capacity, batch, order, count);
      if batch.Keys <= st.ring.columns.Keys then
        after.ring
          == Ring(written, Cursor(st.ring.pos + count, capacity), Min(st.ring.size + count, capacity))
        && after.history == st.history + NewItems(st.ring.columns, capacity, st.ring.pos, batch, count)
      else after.ring == Ring(written, st.ring.pos, st.ring.size) && after.history == st.history
  {
    hide Overwritten, NewItems, WrittenPart, Writable, Ordered, RingOk, AllLong, AfterWrite, Cursor, Min;
    PartWritable(batch, capacity, st.ring.pos, count, order, st.ring.columns.Keys);
    RingLong(st.ring, capacity);
    if batch.Keys <= st.ring.columns.Keys {
      AllIsWritten(batch, order, st.ring.columns.Keys);
      AfterWriteMeans(st.ring, capacity, batch, count);
    }
  }

  lemma OrderedMeans(order: seq<string>, keys: set<string>)
    requires Ordered(order, keys)
    ensures forall key :: key in order <==> key in keys
  {
  }

  ghost function Run<V>(st: State<V>, capacity: nat, zero: V, ops: seq<Op<V>>): (r: State<V>)
    requires StateOk(st, capacity) && forall i :: 0 <= i < |ops| ==> OpOk(ops[i])
    ensures StateOk(r, capacity)
  {
    if ops == [] then st
    else
      var before := Run(st, capacity, zero, ops[..|ops| - 1]);
      SteppedOk(before, capacity, zero, ops[|ops| - 1]);
      Stepped(before, capacity, zero, ops[|ops| - 1])
  }

  /** No call of the run raises after it has changed a live slot. */
  ghost predicate Harmless<V>(st: State<V>, capacity: nat, zero: V, ops: seq<Op<V>>)
    requires StateOk(st, capacity) && forall i :: 0 <= i < |ops| ==> OpOk(ops[i])
  {
    ops == [] ||
      var init := ops[..|ops| - 1];
      Harmless(st, capacity, zero, init)
      && !Harms(Run(st, capacity, zero, init), capacity, zero, ops[|ops| - 1])
  }

  /** After any harmless run of additions, failed additions and clears the ring holds exactly the last items. */
  lemma {:induction false} RunHolds<V>(st: State<V>, capacity: nat, zero: V, ops: seq<Op<V>>)
    requires StateHolds(st, capacity) && StateOk(st, capacity) && forall i :: 0 <= i < |ops| ==> OpOk(ops[i])
    requires Harmless(st, capacity, zero, ops)
    ensures StateHolds(Run(st, capacity, zero, ops), capacity)
  {
    hide Stepped, Harms, StateHolds, StateOk, OpOk;
    if ops != [] {
      var init, last := ops[..|ops| - 1], ops[|ops| - 1];
      RunHolds(st, capacity, zero, init);
      StepHolds(Run(st, capacity, zero, init), capacity, zero, last);
    }
  }

  /** A call does no harm as long as the slots it writes are free. */
  lemma FreeSlotsHold<V>(st: State<V>, capacity: nat, zero: V, op: Op<V>)
    requires OpOk(op) && StateHolds(st, capacity) && StateOk(st, capacity)
    requires var x := InsertionOf(st, capacity, zero, op); x.Some? ==> st.ring.size + x.value.count <= capacity
    ensures !Harms(st, capacity, zero, op)
  {
    hide StateOk, OpOk, LeavesLive, WrittenPart, Started, Holds, Single, RowCount, Writable;
    var x := InsertionOf(st, capacity, zero, op);
    if x.Some? {
      InsertionOk(st, capacity, zero, op);
      var keys := if op.AddItem? then op.item.Keys else op.batch.Keys;
      StartedHolds(st, keys, capacity, zero);
      StartedOk(st, keys, capacity, zero);
      var y := x.value;
      PartWritable(y.batch, capacity, y.before.ring.pos, y.count, y.order, y.before.ring.columns.Keys);
      FreeSlotsLeaveLive(y.before.ring, capacity, y.before.history,
        WrittenPart(y.batch, y.order, y.before.ring.columns.Keys), y.count);
    }
  }

  lemma Disagrees<T>(column: seq<T>, pos: nat, size: nat, values: seq<T>, i: nat)
    requires |column| > 0 && i < |values| && Cursor(pos + i, |column|) < size
    requires values[i] != column[Cursor(pos + i, |column|)]
    ensures !Agrees(column, pos, size, values)
  {
    hide Cursor;
  }

  lemma MixedOrder()
    ensures "a" != "b" && "a" != "c" && "b" != "c"
    ensures Ordered(["a", "c"], map["a" := 3, "c" := 4].Keys)
  {
    assert "a"[0] == 'a' && "b"[0] == 'b' && "c"[0] == 'c';
  }

  lemma MixedPart()
    ensures WrittenPart(Single(map["a" := 3, "c" := 4]), ["a", "c"], {"a", "b"}) == map["a" := [3]]
  {
    MixedOrder();
    assert ["a", "c"][1..] == ["c"];
    assert WrittenKeys(["c"], {"a", "b"}) == [];
    assert WrittenKeys(["a", "c"], {"a", "b"}) == ["a"];
  }

  const Full: State<int> := State(Ring(map["a" := [1], "b" := [2]], 0, 1), [map["a" := 1, "b" := 2]])
  const Failing: Op<int> := AddItem(map["a" := 3, "c" := 4], ["a", "c"])

  lemma FullHolds()
    ensures StateHolds(Full, 1) && StateOk(Full, 1)
  {
    assert Column(Full.history, "a") == [1] && Column(Full.history, "b") == [2];
  }

  lemma FailingInsertion()
    ensures OpOk(Failing)
      && InsertionOf(Full, 1, 0, Failing) == Some(Insertion(Full, Single(Failing.item), ["a", "c"], 1))
    ensures !(Single(Failing.item).Keys <= Full.ring.columns.Keys)
    ensures WrittenPart(Single(Failing.item), ["a", "c"], Full.ring.columns.Keys) == map["a" := [3]]
  {
    MixedOrder();
    MixedPart();
    assert Full.ring.columns.Keys == {"a", "b"};
    assert "c" in Single(Failing.item).Keys;
  }

  lemma MixedColumns()
    ensures Writable(map["a" := [3]], 1, 0, 1) && AllLong(Full.ring.columns, 1)
    ensures Overwritten(Full.ring.columns, 1, 0, map["a" := [3]], 1) == map["a" := [3], "b" := [2]]
    ensures RingOk(Full.ring, 1) && !LeavesLive(Full.ring, 1, map["a" := [3]], 1)
  {
    MixedOrder();
    assert Scatter([1], 0, [3]) == [3];
    Disagrees([1], 0, 1, [3], 0);
    assert "a" in Full.ring.columns;
  }

  /** In a full buffer a call may do harm: a failed addition leaves an item made of two. */
  lemma FailedAdditionMixes()
    ensures StateHolds(Full, 1) && StateOk(Full, 1) && OpOk(Failing)
    ensures Raises(Full, 1, 0, Failing) && Harms(Full, 1, 0, Failing)
    ensures Stepped(Full, 1, 0, Failing).ring.columns == map["a" := [3], "b" := [2]]
  {
    FullHolds();
    FailingInsertion();
    MixedColumns();
    hide OpOk, InsertionOf, StateOk, StateHolds, WrittenPart, Overwritten, LeavesLive, Single, RingOk, Writable;
    InsertionOk(Full, 1, 0, Failing);
  }

  // ---------------------------------------------------------------- runs of complete items

  /** The call adds items with all keys, at least one and fewer than `capacity`, or clears. */
  ghost predicate Complete<V>(op: Op<V>, keys: set<string>, capacity: nat, tk: string) {
    match op
    case AddItem(item, order) => item.Keys == keys
    case AddBatch(batch, order, preprocess) =>
      && batch.Keys == keys && Aligned(batch, tk) && 0 < |batch[tk]| < capacity
      && (preprocess || "rewards" in keys)
    case ClearAll => true
  }

  /** The items themselves, since the last `clear`. */
  ghost function Added<V>(ops: seq<Op<V>>, tk: string): seq<map<string, V>> {
    if ops == [] then []
    else
      var before := Added(ops[..|ops| - 1], tk);
      match ops[|ops| - 1]
      case AddItem(item, order) => before + [item]
      case AddBatch(batch, order, preprocess) => if Aligned(batch, tk) then before + Rows(batch, tk) else before
      case ClearAll => []
  }

  /** A buffer of those columns, or one that has none yet and holds nothing. */
  ghost predicate ReadyFor<V>(st: State<V>, keys: set<string>) {
    keys != {} && (st.ring.columns.Keys == keys || (st.ring.columns == map[] && st.history == []))
  }

  lemma {:induction false} CompleteCount<V>(batch: Batch<V>, order: seq<string>, preprocess: bool, tk: string)
    requires Ordered(order, batch.Keys) && Aligned(batch, tk) && (preprocess || "rewards" in batch)
    ensures RowCount(batch, order, preprocess) == Some(|batch[tk]|)
  {
    assert tk in order;
    if preprocess {
      assert order[0] in batch;
    }
  }

  lemma StartedReady<V>(st: State<V>, keys: set<string>, capacity: nat, zero: V)
    requires ReadyFor(st, keys)
    ensures var after := Started(st, keys, capacity, zero);
      after.ring.columns.Keys == keys && after.history == st.history
  {
  }

  lemma SingleCompletes<V>(columns: Batch<V>, capacity: nat, pos: nat, item: map<string, V>)
    requires pos < capacity && AllLong(columns, capacity) && item.Keys == columns.Keys
    ensures Writable(Single(item), capacity, pos, 1)
    ensures NewItems(columns, capacity, pos, Single(item), 1) == [item]
  {
    hide Cursor;
    assert Single(item).Keys == item.Keys;
    assert NewItem(columns, capacity, pos, Single(item), 0) == item;
  }

  /** A call with complete items does not raise and appends just them. */
  lemma CompleteStep<V>(st: State<V>, keys: set<string>, capacity: nat, zero: V, op: Op<V>, tk: string)
    requires OpOk(op) && StateOk(st, capacity) && ReadyFor(st, keys) && Complete(op, keys, capacity, tk)
    ensures !Raises(st, capacity, zero, op) && !Harms(st, capacity, zero, op)
    ensures var after := Stepped(st, capacity, zero, op);
      && ReadyFor(after, keys)
      && after.history ==
        match op
        case AddItem(item, order) => st.history + [item]
        case AddBatch(batch, order, preprocess) => st.history + Rows(batch, tk)
        case ClearAll => []
  {
    match op
    case AddItem(item, order) =>
      StartedReady(st, keys, capacity, zero);
      InsertionOk(st, capacity, zero, op);
      var x := InsertionOf(st, capacity, zero, op).value;
      RingLong(x.before.ring, capacity);
      hide Started, NewItems, AfterWrite, WrittenPart, LeavesLive;
      SingleCompletes(x.before.ring.columns, capacity, x.before.ring.pos, item);
    case AddBatch(batch, order, preprocess) =>
      CompleteCount(batch, order, preprocess, tk);
      StartedReady(st, keys, capacity, zero);
      InsertionOk(st, capacity, zero, op);
      var x := InsertionOf(st, capacity, zero, op).value;
      RingLong(x.before.ring, capacity);
      hide Started, NewItems, AfterWrite, WrittenPart, LeavesLive, Rows;
      CompleteItems(x.before.ring.columns, capacity, x.before.ring.pos, batch, tk);
    case ClearAll =>
  }

  /** A run of complete items raises nowhere, and the ring holds the last of just those items. */
  lemma {:induction false} CompleteRunHolds<V>(st: State<V>, keys: set<string>, capacity: nat, zero: V, ops: seq<Op<V>>,
      tk: string)
    requires StateHolds(st, capacity) && StateOk(st, capacity) && ReadyFor(st, keys) && st.history == []
    requires forall i :: 0 <= i < |ops| ==> OpOk(ops[i]) && Complete(ops[i], keys, capacity, tk)
    ensures Harmless(st, capacity, zero, ops)
    ensures var after := Run(st, capacity, zero, ops);
      StateHolds(after, capacity) && ReadyFor(after, keys) && after.history == Added(ops, tk)
  {
    hide Stepped, Harms, StateHolds, StateOk, OpOk, Complete, ReadyFor, Rows;
    if ops != [] {
      var init, last := ops[..|ops| - 1], ops[|ops| - 1];
      CompleteRunHolds(st, keys, capacity, zero, init, tk);
      CompleteStep(Run(st, capacity, zero, init), keys, capacity, zero, last, tk);
      StepHolds(Run(st, capacity, zero, init), capacity, zero, last);
      CompleteAligned(last, keys, capacity, tk);
    }
  }

  lemma CompleteAligned<V>(op: Op<V>, keys: set<string>, capacity: nat, tk: string)
    requires Complete(op, keys, capacity, tk)
    ensures op.AddBatch? ==> Aligned(op.batch, tk)
  {
  }

  // ---------------------------------------------------------------- what can be sampled

  function SlotOf(i: nat, pos: nat, size: nat, length: nat): nat
    requires length - size <= i < length && pos <= size <= length
  {
    if i >= length - pos then i - (length - pos) else i - (length - size) + pos
  }

  /** The slot holds the whole item number `i` of the history. */
  ghost predicate Stored<V>(ring: Ring<V>, history: seq<map<string, V>>, slot: nat, i: nat) {
    i < |history| && history[i].Keys == ring.columns.Keys
    && forall key :: key in ring.columns ==> slot < |ring.columns[key]| && ring.columns[key][slot] == history[i][key]
  }

  lemma SlotStores<V>(ring: Ring<V>, capacity: nat, history: seq<map<string, V>>, slot: nat)
    requires Holds(ring, capacity, history) && slot < ring.size
    ensures ring.pos <= ring.size <= |history|
    ensures Stored(ring, history, slot, HistoryIndex(slot, ring.pos, ring.size, |history|))
  {
    CountersBelow(|history|, capacity, ring.pos, ring.size);
    hide Counters;
    forall key | key in ring.columns
      ensures slot < |ring.columns[key]|
        && ring.columns[key][slot] == history[HistoryIndex(slot, ring.pos, ring.size, |history|)][key]
    {
      assert Live(ring.columns[key], ring.pos, ring.size, Column(history, key));
    }
  }

  /** The slots below `size` and the last `size` items correspond one to one. */
  lemma LiveSlots<V>(ring: Ring<V>, capacity: nat, history: seq<map<string, V>>)
    requires Holds(ring, capacity, history)
    ensures ring.size == Min(|history|, capacity) && ring.pos <= ring.size
    ensures forall slot: nat :: slot < ring.size ==>
      var i := HistoryIndex(slot, ring.pos, ring.size, |history|);
      |history| - ring.size <= i < |history| && SlotOf(i, ring.pos, ring.size, |history|) == slot
        && Stored(ring, history, slot, i)
    ensures forall i: nat :: |history| - ring.size <= i < |history| ==>
      var slot := SlotOf(i, ring.pos, ring.size, |history|); slot < ring.size && Stored(ring, history, slot, i)
  {
    CountersBelow(|history|, capacity, ring.pos, ring.size);
    hide Counters;
    forall slot: nat | slot < ring.size
      ensures Stored(ring, history, slot, HistoryIndex(slot, ring.pos, ring.size, |history|))
    {
      SlotStores(ring, capacity, history, slot);
    }
    hide Stored, Live;
    forall i: nat | |history| - ring.size <= i < |history|
      ensures var slot := SlotOf(i, ring.pos, ring.size, |history|); slot < ring.size && Stored(ring, history, slot, i)
    {
      assert HistoryIndex(SlotOf(i, ring.pos, ring.size, |history|), ring.pos, ring.size, |history|) == i;
    }
  }
}
