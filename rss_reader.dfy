/** `RSSReader.read_feed(newer_than)`: walks the parsed feed's entries in
    order; the first entry is a gate (if it was published before
    `newer_than` nothing is yielded) and is itself never yielded; every
    later entry is yielded whatever its own date. */
module RssReader {

  /** A feed entry with its `published` date already parsed, as an instant. */
  datatype Entry<T> = Entry(published: int, item: T)

  /** The entries `read_feed` yields, in order. */
  function NewerEntries<T>(entries: seq<Entry<T>>, newerThan: int): (yielded: seq<Entry<T>>) {
    if entries == [] || entries[0].published < newerThan then [] else entries[1..]
  }

  /** The generator: a loop over `enumerate(entries)` that returns early
      on the first entry when it is too old, and yields every later one. */
  method ReadFeed<T>(entries: seq<Entry<T>>, newerThan: int) returns (yielded: seq<Entry<T>>)
    ensures yielded == NewerEntries(entries, newerThan)
  {
    yielded := [];
    var idx := 0;
    while idx < |entries|
      invariant 0 <= idx <= |entries|
      invariant idx > 0 ==> entries[0].published >= newerThan
      invariant yielded == if idx == 0 then [] else entries[1..idx]
    {
      var entry := entries[idx];
      if idx == 0 {
        if entry.published < newerThan {
          return;
        }
      } else {
        yielded := yielded + [entry];
      }
      idx := idx + 1;
    }
  }

  /** An empty feed yields nothing. */
  lemma EmptyFeed<T>(newerThan: int)
    ensures NewerEntries<T>([], newerThan) == []
  {
  }

  /** A first entry older than `newer_than` stops the whole feed. */
  lemma StaleFirstEntry<T>(entries: seq<Entry<T>>, newerThan: int)
    requires entries != [] && entries[0].published < newerThan
    ensures NewerEntries(entries, newerThan) == []
  {
  }

  /** Otherwise every entry after the first is yielded, in feed order,
      regardless of its own date; the comparison is strict, so a first entry
      published exactly at `newer_than` lets the feed through. */
  lemma FreshFirstEntry<T>(entries: seq<Entry<T>>, newerThan: int)
    requires entries != [] && entries[0].published >= newerThan
    ensures NewerEntries(entries, newerThan) == entries[1..]
    ensures forall k :: 1 <= k < |entries| ==> NewerEntries(entries, newerThan)[k - 1] == entries[k]
  {
  }

  /** The output is a suffix of the feed without its first entry: nothing,
      or all of the rest. */
  lemma OutputShape<T>(entries: seq<Entry<T>>, newerThan: int)
    ensures var out := NewerEntries(entries, newerThan);
      && (out == [] || (entries != [] && out == entries[1..]))
      && (|out| == 0 || |out| == |entries| - 1)
      && (entries != [] ==> entries[|entries| - |out|..] == out)
      && (entries != [] ==> |out| < |entries|)
  {
  }
}
