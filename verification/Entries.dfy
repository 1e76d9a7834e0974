/** The entries of a batch as client, server and worker exchange them. */
module Entries {
  import opened Utf8
  import opened Digests
  import opened BatchText

  datatype Entry = Entry(op: string, path: string, hash: string, content: Bytes)

  /** The digest of a content, whose bytes are read as characters. */
  function DigestOf(content: Bytes): Hash {
    Sha(seq(|content|, i requires 0 <= i < |content| => content[i] as char))
  }

  function ItemsOf(entries: seq<Entry>): seq<Item> {
    seq(|entries|, i requires 0 <= i < |entries| => Item(entries[i].op, entries[i].path, entries[i].hash))
  }

  predicate KnownOps(entries: seq<Entry>) {
    forall i | 0 <= i < |entries| :: entries[i].op == "file" || entries[i].op == "delete"
  }
}
