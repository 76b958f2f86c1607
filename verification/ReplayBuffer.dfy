/** The replay buffer itself: columns in arrays, updated in place. */
module ReplayBuffer {
  import opened Wrappers
  import opened Arithmetic
  import opened BatchTables
  import opened ReplayRing

  /** Different keys have different arrays, all as long as the capacity. */
  ghost predicate Separate<V>(columns: map<string, array<V>>, capacity: nat) {
    && (forall key :: key in columns ==> columns[key].Length == capacity)
    && forall k, l :: k in columns && l in columns && k != l ==> columns[k] != columns[l]
  }

  /** `tgt_dict[key][insert_ids] = value`. */
  method InsertColumn<V>(column: array<V>, pos: nat, values: seq<V>)
    requires pos < column.Length && |values| <= column.Length
    modifies column
    ensures column[..] == Scatter(old(column[..]), pos, values)
  {
    ScatterNothing(column[..], pos);
    hide Scatter;
    for i := 0 to |values|
      invariant column[..] == Scatter(old(column[..]), pos, values[..i])
    {
      ScatterNext(old(column[..]), pos, values[..i], values[i]);
      assert values[..i + 1] == values[..i] + [values[i]];
      column[(pos + i) % column.Length] := values[i];
    }
    assert values[..|values|] == values;
  }

  /** The values of the columns. */
  ghost function Contents<V>(columns: map<string, array<V>>): Batch<V>
    reads columns.Values
  {
    map key | key in columns :: columns[key][..]
  }

  /** The first `n` keys have been written, and no other column has changed. */
  ghost predicate Written<V>(before: Batch<V>, after: Batch<V>, capacity: nat, pos: nat, batch: Batch<V>, count: nat,
      order: seq<string>, n: nat) {
    && Writable(batch, capacity, pos, count) && n <= |order| && after.Keys == before.Keys
    && forall key :: key in before ==>
      && |before[key]| == capacity
      && after[key] == if key in order[..n] && key in batch then Scatter(before[key], pos, batch[key]) else before[key]
  }

  lemma NothingWritten<V>(before: Batch<V>, capacity: nat, pos: nat, batch: Batch<V>, count: nat, order: seq<string>)
    requires Writable(batch, capacity, pos, count) && forall key :: key in before ==> |before[key]| == capacity
    ensures Written(before, before, capacity, pos, batch, count, order, 0)
  {
  }

  lemma WrittenMeans<V>(before: Batch<V>, after: Batch<V>, capacity: nat, pos: nat, batch: Batch<V>, count: nat,
      order: seq<string>, n: nat)
    requires Written(before, after, capacity, pos, batch, count, order, n) && Ordered(order, batch.Keys) && n < |order|
    requires order[n] in before
    ensures order[n] in after && after[order[n]] == before[order[n]] && order[n] in batch
    ensures |batch[order[n]]| == count <= |before[order[n]]| && pos < |before[order[n]]| == capacity
  {
    hide Scatter;
  }

  lemma WrittenNext<V>(before: Batch<V>, now: Batch<V>, capacity: nat, pos: nat, batch: Batch<V>, count: nat,
      order: seq<string>, n: nat)
    requires Written(before, now, capacity, pos, batch, count, order, n) && n < |order|
    requires order[n] in before && order[n] in batch && pos < |before[order[n]]|
      && |batch[order[n]]| <= |before[order[n]]|
    ensures Written(before, now[order[n] := Scatter(before[order[n]], pos, batch[order[n]])], capacity, pos, batch,
      count,
      order, n + 1)
  {
    hide Scatter;
    assert forall key :: key in order[..n + 1] <==> key in order[..n] || key == order[n];
  }

  lemma {:induction false} WrittenSoFar(order: seq<string>, keys: set<string>, n: nat)
    requires n <= |order| && (forall i :: 0 <= i < n ==> order[i] in keys)
    requires n < |order| ==> order[n] !in keys
    ensures WrittenKeys(order, keys) == order[..n]
  {
    if n > 0 {
      WrittenSoFar(order[1..], keys, n - 1);
      assert order[..n] == [order[0]] + order[1..][..n - 1];
    }
  }

  /** When the loop ends, the columns of the written part of the batch are written. */
  lemma WrittenEnds<V>(before: Batch<V>, after: Batch<V>, capacity: nat, pos: nat, batch: Batch<V>, count: nat,
      order: seq<string>, n: nat)
    requires Written(before, after, capacity, pos, batch, count, order, n)
    requires (forall i :: 0 <= i < n ==> order[i] in before) && (n < |order| ==> order[n] !in before)
    ensures var part := WrittenPart(batch, order, before.Keys);
      && Writable(part, capacity, pos, count) && AllLong(before, capacity)
      && after == Overwritten(before, capacity, pos, part, count)
  {
    hide Scatter;
    WrittenSoFar(order, before.Keys, n);
  }

  /** One turn of the loop: `tgt_dict[key][insert_ids] = value`. */
  method InsertKey<V>(ghost before: Batch<V>, batch: Batch<V>, order: seq<string>, columns: map<string, array<V>>,
      capacity: nat, pos: nat, count: nat, i: nat)
    requires Separate(columns, capacity) && Ordered(order, batch.Keys) && before.Keys == columns.Keys
    requires Written(before, Contents(columns), capacity, pos, batch, count, order, i)
    requires i < |order| && order[i] in columns
    modifies columns.Values
    ensures Written(before, Contents(columns), capacity, pos, batch, count, order, i + 1)
  {
    hide Scatter, Written, Ordered;
    ghost var now := Contents(columns);
    WrittenMeans(before, now, capacity, pos, batch, count, order, i);
    InsertColumn(columns[order[i]], pos, batch[order[i]]);
    assert Contents(columns) == now[order[i] := Scatter(before[order[i]], pos, batch[order[i]])];
    WrittenNext(before, now, capacity, pos, batch, count, order, i);
  }

  lemma ContentsLong<V>(columns: map<string, array<V>>, capacity: nat)
    requires Separate(columns, capacity)
    ensures forall key :: key in Contents(columns) ==> |Contents(columns)[key]| == capacity
    ensures AllLong(Contents(columns), capacity)
  {
  }

  /**
   * `insert_nested_batch` for the wrapped indices from `pos` on,
     with the keys in the order of the dictionary: the first
   * key the buffer does not have raises.
   */
  method InsertNestedBatch<V>(batch: Batch<V>, order: seq<string>, columns: map<string, array<V>>, capacity: nat,
      pos: nat, count: nat)
    returns (r: Outcome<()>)
    requires Separate(columns, capacity) && Writable(batch, capacity, pos, count) && Ordered(order, batch.Keys)
    modifies columns.Values
    ensures r.Returned? <==> batch.Keys <= columns.Keys
    ensures var part := WrittenPart(batch, order, columns.Keys);
      && Writable(part, capacity, pos, count) && AllLong(old(Contents(columns)), capacity)
      && Contents(columns) == Overwritten(old(Contents(columns)), capacity, pos, part, count)
  {
    ghost var before := Contents(columns);
    hide Scatter, Written, Ordered, WrittenPart, Overwritten, Contents, Separate, Writable, AllLong;
    OrderedMeans(order, batch.Keys);
    SameKeys(columns);
    ContentsLong(columns, capacity);
    NothingWritten(before, capacity, pos, batch, count, order);
    for i := 0 to |order|
      invariant forall k :: 0 <= k < i ==> order[k] in columns
      invariant Written(before, Contents(columns), capacity, pos, batch, count, order, i)
    {
      if order[i] !in columns {
        WrittenEnds(before, Contents(columns), capacity, pos, batch, count, order, i);
        return Raised;
      }
      InsertKey(before, batch, order, columns, capacity, pos, count, i);
    }
    WrittenEnds(before, Contents(columns), capacity, pos, batch, count, order, |order|);
    r := Returned(());
  }

  lemma SameKeys<V>(columns: map<string, array<V>>)
    ensures Contents(columns).Keys == columns.Keys
    ensures Contents(columns) == map[] <==> columns == map[]
  {
    if columns != map[] {
      var key :| key in columns;
      assert key in Contents(columns);
    }
  }

  lemma EmptyHolds<V>(capacity: nat)
    requires capacity > 0
    ensures StateHolds<V>(State(Ring(map[], 0, 0), []), capacity)
  {
  }

  /** Sample `i` is the given item, whole. */
  ghost predicate IsSample<V>(batch: Batch<V>, i: nat, item: map<string, V>) {
    item.Keys == batch.Keys && forall key :: key in batch ==> i < |batch[key]| && batch[key][i] == item[key]
  }

  /** Of the `n` items ever added, item `h` is the last one that went to the slot. */
  ghost predicate IsLatest(h: nat, slot: nat, capacity: nat, n: nat)
    requires capacity > 0
  {
    h < n <= h + capacity && h % capacity == slot
  }

  /** Sample `i` is the last item that went to the slot. */
  ghost predicate SampledFrom<V>(batch: Batch<V>, i: nat, history: seq<map<string, V>>, slot: nat, capacity: nat)
    requires capacity > 0
  {
    exists h: nat :: IsLatest(h, slot, capacity, |history|) && IsSample(batch, i, history[h])
  }

  /** Every slot has one last item, and different slots have different ones. */
  lemma LatestUnique(h: nat, slot: nat, h': nat, slot': nat, capacity: nat, n: nat)
    requires capacity > 0 && IsLatest(h, slot, capacity, n) && IsLatest(h', slot', capacity, n)
    ensures h == h' <==> slot == slot'
  {
    if slot == slot' {
      Remainder(h, capacity);
      Remainder(h', capacity);
      CloseAndCongruent(h, h', capacity, h / capacity, h' / capacity, slot);
    }
  }

  lemma IndexIsLatest(slot: nat, pos: nat, size: nat, n: nat, capacity: nat)
    requires Counters(n, capacity, pos, size) && slot < size
    ensures pos <= size <= n && IsLatest(HistoryIndex(slot, pos, size, n), slot, capacity, n)
  {
    Remainder(n, capacity);
    var q := n / capacity;
    if n < capacity {
      ProductNext(1, capacity);
      QuotientUnique(n, capacity, 0, n);
      QuotientUnique(slot, capacity, 0, slot);
    } else if slot < pos {
      QuotientUnique(n - pos + slot, capacity, q, slot);
    } else {
      ProductNext(q, capacity);
      PositiveQuotient(n, capacity);
      QuotientUnique(n - capacity + slot - pos, capacity, q - 1, slot);
    }
  }

  lemma PositiveQuotient(n: nat, c: nat)
    requires c > 0 && n >= c
    ensures n / c > 0
  {
  }

  lemma SamplesAreLatest<V>(ring: Ring<V>, capacity: nat, history: seq<map<string, V>>, draws: seq<nat>,
      batch: Batch<V>)
    requires Holds(ring, capacity, history) && forall i :: 0 <= i < |draws| ==> draws[i] < ring.size
    requires batch.Keys == ring.columns.Keys
    requires forall key :: key in batch ==> |batch[key]| == |draws|
    requires forall key, i :: key in batch && 0 <= i < |draws| ==>
      draws[i] < |ring.columns[key]| && batch[key][i] == ring.columns[key][draws[i]]
    ensures capacity > 0 && forall i :: 0 <= i < |draws| ==> SampledFrom(batch, i, history, draws[i], capacity)
  {
    forall i | 0 <= i < |draws|
      ensures SampledFrom(batch, i, history, draws[i], capacity)
    {
      SlotStores(ring, capacity, history, draws[i]);
      IndexIsLatest(draws[i], ring.pos, ring.size, |history|, capacity);
      var h := HistoryIndex(draws[i], ring.pos, ring.size, |history|);
      hide Holds, IsLatest;
      assert IsSample(batch, i, history[h]);
    }
  }

  /** `sample_nested_batch`. */
  method SampleNestedBatch<V>(columns: map<string, array<V>>, capacity: nat, draws: seq<nat>) returns (batch: Batch<V>)
    requires Separate(columns, capacity) && forall i :: 0 <= i < |draws| ==> draws[i] < capacity
    ensures batch.Keys == columns.Keys && forall key :: key in batch ==> |batch[key]| == |draws|
    ensures forall key, i :: key in batch && 0 <= i < |draws| ==> batch[key][i] == columns[key][draws[i]]
  {
    batch := map key | key in columns :: Gather(columns[key][..], draws);
  }

  class SACReplayBuffer<V> {
    const capacity: nat
    /** What a new tensor is filled with. */
    const zero: V
    var buffer: map<string, array<V>>
    var pos: nat
    var size: nat
    /** The items since the last `clear`. */
    ghost var history: seq<map<string, V>>

    ghost function Fields(): Ring<V>
      reads this, buffer.Values
    {
      Ring(Contents(buffer), pos, size)
    }

    ghost function Current(): State<V>
      reads this, buffer.Values
    {
      State(Fields(), history)
    }

    /** The buffer holds the last `capacity` items. */
    ghost predicate Valid()
      reads this, buffer.Values
    {
      Separate(buffer, capacity) && StateHolds(Current(), capacity)
    }

    constructor (capacity: nat, zero: V)
      requires capacity > 0
      ensures Valid() && this.capacity == capacity && this.zero == zero && buffer == map[] && history == []
    {
      this.capacity, this.zero := capacity, zero;
      buffer, pos, size, history := map[], 0, 0, [];
      new;
      EmptyHolds<V>(capacity);
      assert Contents(buffer) == map[];
    }

    /** `_initialize_storage`. */
    method InitializeStorage(keys: set<string>) returns (columns: map<string, array<V>>)
      ensures columns.Keys == keys && Separate(columns, capacity) && fresh(columns.Values)
      ensures Contents(columns) == map key | key in keys :: seq(capacity, _ => zero)
    {
      columns := map[];
      var todo := keys;
      while todo != {}
        invariant todo <= keys && columns.Keys == keys - todo
        invariant fresh(columns.Values) && Separate(columns, capacity)
        invariant forall key :: key in columns ==> columns[key][..] == seq(capacity, _ => zero)
        decreases todo
      {
        var key :| key in todo;
        var column := new V[capacity](_ => zero);
        assert column[..] == seq(capacity, _ => zero);
        assert forall other :: other in columns ==> columns[other] in columns.Values;
        columns := columns[key := column];
        todo := todo - {key};
      }
    }

    /** `if not self.buffer: self._initialize_storage(...)`. */
    method Prepare(keys: set<string>)
      requires Valid()
      modifies this
      ensures Valid() && Current() == Started(old(Current()), keys, capacity, zero)
      ensures buffer.Values == old(buffer.Values) || fresh(buffer.Values)
    {
      StartedHolds(Current(), keys, capacity, zero);
      SameKeys(buffer);
      hide StateHolds;
      if buffer == map[] {
        buffer := InitializeStorage(keys);
        history := seq(|history|, _ => map key | key in keys :: zero);
      }
    }

    /** The insertion at `pos` and the step of the counters, which both ways of adding end with. */
    method Insert(batch: Batch<V>, order: seq<string>, count: nat) returns (r: Outcome<()>)
      requires RingOk(Fields(), capacity) && Separate(buffer, capacity) && Writable(batch, capacity, pos, count)
      requires Ordered(order, batch.Keys)
      modifies this`pos, this`size, this`history, buffer.Values
      ensures r.Returned? <==> batch.Keys <= buffer.Keys
      ensures Current() == AfterInsertion(old(Current()), capacity, batch, order, count)
    {
      hide Overwritten, Separate, Contents, WrittenPart, NewItems, RingOk, Writable, Ordered, AllLong, AfterInsertion;
      ghost var before := Current();
      SameKeys(buffer);
      InsertionCases(before, capacity, batch, order, count);
      r := InsertNestedBatch(batch, order, buffer, capacity, pos, count);
      if r.Raised? {
        return;
      }
      StepCounters(count, NewItems(before.ring.columns, capacity, pos, batch, count));
    }

    /** The step of the counters. */
    method StepCounters(count: nat, ghost items: seq<map<string, V>>)
      requires capacity > 0
      modifies this`pos, this`size, this`history
      ensures pos == Cursor(old(pos) + count, capacity) && size == Min(old(size) + count, capacity)
      ensures history == old(history) + items && Contents(buffer) == old(Contents(buffer))
    {
      pos := (pos + count) % capacity;
      size := Min(size + count, capacity);
      history := history + items;
    }

    /** `add`: columns the item does not have keep what the slot held; a key the buffer does not have raises. */
    method Add(item: map<string, V>, order: seq<string>) returns (r: Outcome<()>)
      requires Valid() && Ordered(order, item.Keys)
      modifies this, buffer.Values
      ensures var op := AddItem(item, order);
        && StateOk(old(Current()), capacity)
        && (r.Raised? <==> Raises(old(Current()), capacity, zero, op))
        && Current() == Stepped(old(Current()), capacity, zero, op)
        && (Valid() <==> !Harms(old(Current()), capacity, zero, op))
      ensures buffer.Values == old(buffer.Values) || fresh(buffer.Values)
    {
      hide StateHolds, Started, Writable, Single, Separate, Contents, RingOk, AfterInsertion, Harms, Ordered, Stepped,
        Raises, OpOk, StateOk;
      AddItemMeans(Current(), capacity, zero, item, order);
      Prepare(item.Keys);
      SameKeys(buffer);
      r := Insert(Single(item), order, 1);
    }

    /** The loop of `process_nested_dict_for_replay_buffer`, which asserts that all tensors have the same rows. */
    method CountRows(batch: Batch<V>, order: seq<string>) returns (count: Option<nat>)
      requires Ordered(order, batch.Keys)
      ensures count == RowCount(batch, order, true)
    {
      count := None;
      for i := 0 to |order|
        invariant i == 0 ==> count == None
        invariant i > 0 ==> count == Some(|batch[order[0]]|)
        invariant forall k :: 0 <= k < i ==> |batch[order[k]]| == |batch[order[0]]|
      {
        if count.Some? && count.value != |batch[order[i]]| {
          assert order[0] in batch && order[i] in batch;
          return None;
        }
        count := Some(|batch[order[i]]|);
      }
    }

    /**
     * `add_rollout_batch`: batches without rows, batches of at least the capacity and batches with a new key raise; so
     * do unequal columns if it is to preprocess them, and a missing `rewards` column if not.
     */
    method AddRolloutBatch(batch: Batch<V>, order: seq<string>, preprocess: bool) returns (r: Outcome<()>)
      requires Valid() && Ordered(order, batch.Keys) && (preprocess || Uniform(batch))
      modifies this, buffer.Values
      ensures var op := AddBatch(batch, order, preprocess);
        && StateOk(old(Current()), capacity)
        && (r.Raised? <==> Raises(old(Current()), capacity, zero, op))
        && Current() == Stepped(old(Current()), capacity, zero, op)
        && (Valid() <==> !Harms(old(Current()), capacity, zero, op))
      ensures buffer.Values == old(buffer.Values) || fresh(buffer.Values)
    {
      hide StateHolds, Started, Writable, Separate, Contents, RingOk, AfterInsertion, Harms, Ordered, Stepped, Raises,
        OpOk, StateOk, Uniform;
      AddBatchRaises(Current(), capacity, zero, batch, order, preprocess);
      ghost var st := Current();
      var count: Option<nat>;
      if preprocess {
        count := CountRows(batch, order);
      } else {
        count := if "rewards" in batch then Some(|batch["rewards"]|) else None;
      }
      if count.None? || count.value == 0 {
        return Raised;
      }
      Prepare(batch.Keys);
      SameKeys(buffer);
      if count.value >= capacity {
        // The truncating helper is called without its second argument.
        return Raised;
      }
      AddBatchInserts(st, capacity, zero, batch, order, preprocess, count.value);
      r := Insert(batch, order, count.value);
    }

    /** `sample` for the drawn indices; `randint` draws below `size`. Sample `i` is the last item of slot `draws[i]`. */
    method Sample(draws: seq<nat>) returns (r: Outcome<Batch<V>>)
      requires Valid() && (size > 0 ==> forall i :: 0 <= i < |draws| ==> draws[i] < size)
      ensures r.Raised? <==> history == []
      ensures r.Returned? ==> r.value.Keys == buffer.Keys && forall key :: key in r.value ==> |r.value[key]| == |draws|
      ensures r.Returned? ==> forall key, i :: key in buffer && 0 <= i < |draws| ==>
        draws[i] < buffer[key].Length && r.value[key][i] == buffer[key][draws[i]]
      ensures r.Returned? ==>
        capacity > 0 && forall i :: 0 <= i < |draws| ==> SampledFrom(r.value, i, history, draws[i], capacity)
    {
      HoldsMeans(Fields(), capacity, history);
      hide Holds, SampledFrom;
      if size == 0 {
        return Raised;
      }
      var batch := SampleNestedBatch(buffer, capacity, draws);
      SamplesAreLatest(Fields(), capacity, history, draws, batch);
      r := Returned(batch);
    }

    /** `clear`. */
    method Clear()
      requires Valid()
      modifies this
      ensures Valid() && history == [] && Fields() == Ring(old(Fields().columns), 0, 0) && buffer == old(buffer)
    {
      ClearHolds(Fields(), capacity, history);
      hide Holds, Separate, Contents;
      assert forall key :: key in buffer ==> buffer[key] as object != this;
      pos, size, history := 0, 0, [];
    }
  }
}
