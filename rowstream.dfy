/**
  The row-streaming loop of the staging step: every entity becomes one row of the binary
  COPY, opened by `StartRow` and followed by one `Write` per property, in property order.
*/
module RowStream {

  /** One call on the binary importer. */
  datatype Event<V> = StartRow | Write(value: V)

  /**
    The binary importer that a COPY command opens. It is the sink of the loop: the model
    keeps the calls made on it, in order.
  */
  class BinaryImporter<V> {
    const command: string
    var events: seq<Event<V>>

    constructor (command: string)
      ensures this.command == command && events == []
    {
      this.command := command;
      events := [];
    }

    method StartRow()
      modifies this
      ensures events == old(events) + [Event.StartRow]
    {
      events := events + [Event.StartRow];
    }

    method Write(value: V)
      modifies this
      ensures events == old(events) + [Event.Write(value)]
    {
      events := events + [Event.Write(value)];
    }
  }

  /** The writes of one entity: the value of each property, in property order. */
  function Writes<E, V>(entity: E, properties: seq<string>, getValue: (string, E) -> V): seq<Event<V>>
  {
    seq(|properties|, j requires 0 <= j < |properties| => Write(getValue(properties[j], entity)))
  }

  /** The calls the loop makes for `entities`. */
  function CopyEvents<E, V>(entities: seq<E>, properties: seq<string>, getValue: (string, E) -> V): seq<Event<V>>
  {
    if entities == [] then []
    else
      var n := |entities| - 1;
      CopyEvents(entities[..n], properties, getValue) + [StartRow] + Writes(entities[n], properties, getValue)
  }

  /** The nested loop of the staging step: for each entity, `StartRow` and then one `Write`
      per property. */
  method WriteRows<E, V>(writer: BinaryImporter<V>, entities: seq<E>, properties: seq<string>, getValue: (string, E) -> V)
    modifies writer
    ensures writer.events == old(writer.events) + CopyEvents(entities, properties, getValue)
  {
    for i := 0 to |entities|
      invariant writer.events == old(writer.events) + CopyEvents(entities[..i], properties, getValue)
    {
      writer.StartRow();
      for j := 0 to |properties|
        invariant writer.events == old(writer.events) + CopyEvents(entities[..i], properties, getValue)
                                   + [StartRow] + Writes(entities[i], properties[..j], getValue)
      {
        writer.Write(getValue(properties[j], entities[i]));
      }
      assert properties[..|properties|] == properties;
      assert entities[..i + 1][..i] == entities[..i];
    }
    assert entities[..|entities|] == entities;
  }

  /** How the server reads the stream back: `StartRow` opens a row, a value goes to the row
      last opened (a value before any row is not part of a row). */
  function Decode<V>(events: seq<Event<V>>): seq<seq<V>>
  {
    if events == [] then []
    else
      var rows := Decode(events[..|events| - 1]);
      match events[|events| - 1]
      case StartRow => rows + [[]]
      case Write(v) => if rows == [] then [] else rows[..|rows| - 1] + [rows[|rows| - 1] + [v]]
  }

  /** The rows the COPY should deliver: one per entity, holding each property's value. */
  function Table<E, V>(entities: seq<E>, properties: seq<string>, getValue: (string, E) -> V): seq<seq<V>>
  {
    seq(|entities|, i requires 0 <= i < |entities| =>
      seq(|properties|, j requires 0 <= j < |properties| => getValue(properties[j], entities[i])))
  }

  lemma {:induction false} DecodeRow<E, V>(before: seq<Event<V>>, entity: E, properties: seq<string>, getValue: (string, E) -> V)
    ensures Decode(before + [StartRow] + Writes(entity, properties, getValue))
         == Decode(before) + [seq(|properties|, j requires 0 <= j < |properties| => getValue(properties[j], entity))]
    decreases |properties|
  {
    var row := seq(|properties|, j requires 0 <= j < |properties| => getValue(properties[j], entity));
    if properties == [] {
      assert before + [StartRow] + Writes(entity, properties, getValue) == before + [StartRow];
      assert (before + [StartRow])[..|before|] == before;
      assert row == [];
    } else {
      var m := |properties| - 1;
      var shorter := properties[..m];
      var all := before + [StartRow] + Writes(entity, properties, getValue);
      assert all[..|all| - 1] == before + [StartRow] + Writes(entity, shorter, getValue);
      DecodeRow(before, entity, shorter, getValue);
      var prefixRow := seq(|shorter|, j requires 0 <= j < |shorter| => getValue(shorter[j], entity));
      assert all[|all| - 1] == Write(getValue(properties[m], entity));
      assert prefixRow + [getValue(properties[m], entity)] == row;
    }
  }

  /** Read back, the stream is exactly one row per entity, in order, with one value per
      property in property order: |entities| rows of |properties| values. */
  lemma {:induction false} CopyStreamRoundTrip<E, V>(entities: seq<E>, properties: seq<string>, getValue: (string, E) -> V)
    ensures Decode(CopyEvents(entities, properties, getValue)) == Table(entities, properties, getValue)
    decreases |entities|
  {
    if entities != [] {
      var n := |entities| - 1;
      CopyStreamRoundTrip(entities[..n], properties, getValue);
      DecodeRow(CopyEvents(entities[..n], properties, getValue), entities[n], properties, getValue);
      assert Table(entities, properties, getValue)
          == Table(entities[..n], properties, getValue) + [Table(entities, properties, getValue)[n]];
    }
  }

  lemma {:induction false} CopyEventsLength<E, V>(entities: seq<E>, properties: seq<string>, getValue: (string, E) -> V)
    ensures |CopyEvents(entities, properties, getValue)| == |entities| * (|properties| + 1)
    decreases |entities|
  {
    if entities != [] {
      var n := |entities| - 1;
      CopyEventsLength(entities[..n], properties, getValue);
      assert (n + 1) * (|properties| + 1) == n * (|properties| + 1) + (|properties| + 1);
    }
  }

  lemma {:induction false} RowsBefore(i: nat, n: nat, w: nat)
    requires i < n
    ensures i * w + w <= n * w
    decreases n
  {
    assert n * w == (n - 1) * w + w;
    if i < n - 1 {
      RowsBefore(i, n - 1, w);
    }
  }

  /** The i-th entity's row starts at i x (|properties| + 1) with `StartRow`, whatever the
      number of properties. */
  lemma {:induction false} RowStartAt<E, V>(entities: seq<E>, properties: seq<string>, getValue: (string, E) -> V, i: nat)
    requires i < |entities|
    ensures |CopyEvents(entities, properties, getValue)| == |entities| * (|properties| + 1)
    ensures CopyEvents(entities, properties, getValue)[i * (|properties| + 1)] == StartRow
    decreases |entities|
  {
    CopyEventsLength(entities, properties, getValue);
    var n := |entities| - 1;
    var w := |properties| + 1;
    var init := CopyEvents(entities[..n], properties, getValue);
    var events := CopyEvents(entities, properties, getValue);
    CopyEventsLength(entities[..n], properties, getValue);
    assert events == init + ([StartRow] + Writes(entities[n], properties, getValue));
    if i < n {
      RowStartAt(entities[..n], properties, getValue, i);
      RowsBefore(i, n, w);
      assert events[i * w] == init[i * w];
    } else {
      assert i * w == |init|;
    }
  }

  /** In the row appended after `init`, the j-th value sits at offset 1 + j. */
  lemma LastRowAt<E, V>(init: seq<Event<V>>, entity: E, properties: seq<string>, getValue: (string, E) -> V, k: nat, j: nat)
    requires j < |properties| && k == |init|
    ensures (init + [StartRow] + Writes(entity, properties, getValue))[k + 1 + j]
         == Write(getValue(properties[j], entity))
  {
    assert (init + [StartRow] + Writes(entity, properties, getValue))[k + 1 + j]
        == Writes(entity, properties, getValue)[j];
  }

  /** Appending a row leaves the earlier events where they were. */
  lemma EarlierRowAt<E, V>(init: seq<Event<V>>, entity: E, properties: seq<string>, getValue: (string, E) -> V, k: nat)
    requires k < |init|
    ensures (init + [StartRow] + Writes(entity, properties, getValue))[k] == init[k]
  {
  }

  /** The stream has |entities| x (|properties| + 1) events, and the j-th value of the i-th
      entity's row sits at offset 1 + j from the row's `StartRow`. */
  lemma {:induction false} CopyEventAt<E, V>(entities: seq<E>, properties: seq<string>, getValue: (string, E) -> V, i: nat, j: nat)
    requires i < |entities| && j < |properties|
    ensures |CopyEvents(entities, properties, getValue)| == |entities| * (|properties| + 1)
    ensures i * (|properties| + 1) + 1 + j < |CopyEvents(entities, properties, getValue)|
    ensures CopyEvents(entities, properties, getValue)[i * (|properties| + 1) + 1 + j]
         == Write(getValue(properties[j], entities[i]))
    decreases |entities|
  {
    CopyEventsLength(entities, properties, getValue);
    var n := |entities| - 1;
    var w := |properties| + 1;
    RowsBefore(i, |entities|, w);
    var init := CopyEvents(entities[..n], properties, getValue);
    CopyEventsLength(entities[..n], properties, getValue);
    if i < n {
      CopyEventAt(entities[..n], properties, getValue, i, j);
      RowsBefore(i, n, w);
      EarlierRowAt(init, entities[n], properties, getValue, i * w + 1 + j);
    } else {
      LastRowAt(init, entities[n], properties, getValue, i * w, j);
    }
  }
}
