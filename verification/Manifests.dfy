// The file inventory a sender scans once, before the first transfer attempt
// (internal/client/manifest.go, internal/protocol/protocol.go).
module Manifests {
  import opened Options

  type Path = string
  type Bytes = seq<bv8>

  // A streaming digest: any state, any per-byte mixing, any final sum. Nothing
  // is assumed about the functions, in particular no collision freedom.
  datatype Hasher = Hasher(seed: int, mix: (int, bv8) -> int, finish: int -> int)
  {
    function Absorb(state: int, data: Bytes): int {
      if data == [] then state
      else mix(Absorb(state, data[..|data| - 1]), data[|data| - 1])
    }

    function Sum(data: Bytes): int {
      finish(Absorb(seed, data))
    }

    // Feeding a chunk after a chunk is feeding their concatenation.
    lemma {:induction false} AbsorbChunks(state: int, a: Bytes, b: Bytes)
      ensures Absorb(state, a + b) == Absorb(Absorb(state, a), b)
      decreases |b|
    {
      if b == [] {
        assert a + b == a;
      } else {
        var front := b[..|b| - 1];
        assert (a + b)[..|a + b| - 1] == a + front;
        AbsorbChunks(state, a, front);
      }
    }
  }

  datatype Entry = Entry(path: Path, size: nat, digest: int)

  // One item met by the directory walk, with what reading it would yield. The
  // walk itself can fail at an item, at an unreadable directory for one.
  datatype WalkItem = WalkItem(path: Path, walkError: bool, regular: bool, readable: bool, content: Bytes)
  {
    predicate Sound() {
      !walkError && (regular ==> readable)
    }
  }

  ghost predicate DistinctPaths(files: seq<Entry>) {
    forall i, j :: 0 <= i < j < |files| ==> files[i].path != files[j].path
  }

  // The manifest describes these contents: size and digest of the same bytes.
  ghost predicate Describes(hash: Hasher, files: seq<Entry>, scanned: map<Path, Bytes>) {
    forall i :: 0 <= i < |files| ==>
      && files[i].path in scanned
      && files[i].size == |scanned[files[i].path]|
      && files[i].digest == hash.Sum(scanned[files[i].path])
  }

  // The entry of one item: size and digest of all its bytes.
  ghost predicate EntryOf(hash: Hasher, e: Entry, item: WalkItem) {
    e.path == item.path && e.size == |item.content| && e.digest == hash.Sum(item.content)
  }

  // The entries are those of the items at the places `at`: of regular files
  // only, in walk order.
  ghost predicate Lists(hash: Hasher, files: seq<Entry>, items: seq<WalkItem>, at: seq<nat>) {
    && |at| == |files|
    && (forall k :: 0 <= k < |at| ==>
          at[k] < |items| && items[at[k]].regular && EntryOf(hash, files[k], items[at[k]]))
    && (forall k, m :: 0 <= k < m < |at| ==> at[k] < at[m])
  }

  // The digest of one file, read in chunks of arbitrary size.
  method FileEntry(hash: Hasher, item: WalkItem) returns (r: Result<Entry>)
    ensures r.Ok? <==> item.readable
    ensures r.Ok? ==> r.value == Entry(item.path, |item.content|, hash.Sum(item.content))
  {
    if !item.readable {
      return Err("open failed");
    }
    var state, n := hash.seed, 0;
    while n < |item.content|
      invariant 0 <= n <= |item.content|
      invariant state == hash.Absorb(hash.seed, item.content[..n])
    {
      var chunk: nat := *;
      if !(0 < chunk <= |item.content| - n) {
        chunk := |item.content| - n;
      }
      var data := item.content[n..n + chunk];
      hash.AbsorbChunks(hash.seed, item.content[..n], data);
      assert item.content[..n] + data == item.content[..n + chunk];
      state := hash.Absorb(state, data);
      n := n + chunk;
    }
    assert item.content[..n] == item.content;
    return Ok(Entry(item.path, n, hash.finish(state)));
  }

  // One more entry, for a path not scanned before.
  lemma DescribesOneMore(hash: Hasher, files: seq<Entry>, scanned: map<Path, Bytes>, e: Entry, content: Bytes)
    requires DistinctPaths(files) && Describes(hash, files, scanned)
    requires e.path !in scanned && e == Entry(e.path, |content|, hash.Sum(content))
    ensures DistinctPaths(files + [e]) && Describes(hash, files + [e], scanned[e.path := content])
  {
  }

  // The walk callback: an error of the walk or an unreadable regular file fails
  // the scan, irregular items are skipped. `at` says where each entry comes from:
  // no regular file is missing, an empty one no more than any other.
  method WalkDirectory(hash: Hasher, items: seq<WalkItem>)
    returns (r: Result<seq<Entry>>, ghost scanned: map<Path, Bytes>, ghost at: seq<nat>)
    requires forall i, j :: 0 <= i < j < |items| ==> items[i].path != items[j].path
    ensures r.Ok? <==> forall i :: 0 <= i < |items| ==> items[i].Sound()
    ensures r.Ok? ==> Lists(hash, r.value, items, at)
    ensures r.Ok? ==> forall i :: 0 <= i < |items| && items[i].regular ==> i in at
    ensures r.Ok? ==> DistinctPaths(r.value) && Describes(hash, r.value, scanned)
    ensures r.Ok? ==> forall it :: it in items && it.regular ==>
      it.path in scanned && scanned[it.path] == it.content
  {
    var entries: seq<Entry> := [];
    scanned, at := map[], [];
    for k := 0 to |items|
      invariant Walked(hash, items, k, entries, scanned, at)
    {
      var item := items[k];
      if item.walkError {
        return Err("walk failed"), scanned, at;
      }
      if item.regular {
        var e := FileEntry(hash, item);
        if e.Err? {
          return Err(e.reason), scanned, at;
        }
        WalkedOneMore(hash, items, k, entries, scanned, at, e.value);
        entries := entries + [e.value];
        scanned := scanned[item.path := item.content];
        at := at + [k];
      }
    }
    return Ok(entries), scanned, at;
  }

  // After the first k items.
  ghost predicate Walked(hash: Hasher, items: seq<WalkItem>, k: nat, entries: seq<Entry>,
                         scanned: map<Path, Bytes>, at: seq<nat>)
    requires k <= |items|
  {
    && (forall i :: 0 <= i < k ==> items[i].Sound())
    && (forall p :: p in scanned ==> exists i :: 0 <= i < k && items[i].path == p)
    && DistinctPaths(entries) && Describes(hash, entries, scanned)
    && Lists(hash, entries, items, at)
    && (forall m :: 0 <= m < |at| ==> at[m] < k)
    && (forall i :: 0 <= i < k && items[i].regular ==> i in at)
    && (forall i :: 0 <= i < k && items[i].regular ==>
          items[i].path in scanned && scanned[items[i].path] == items[i].content)
  }

  lemma WalkedOneMore(hash: Hasher, items: seq<WalkItem>, k: nat, entries: seq<Entry>,
                      scanned: map<Path, Bytes>, at: seq<nat>, e: Entry)
    requires k < |items| && Walked(hash, items, k, entries, scanned, at)
    requires forall i, j :: 0 <= i < j < |items| ==> items[i].path != items[j].path
    requires items[k].regular && items[k].Sound() && EntryOf(hash, e, items[k])
    ensures Walked(hash, items, k + 1, entries + [e], scanned[e.path := items[k].content], at + [k])
  {
    assert e.path !in scanned;
    DescribesOneMore(hash, entries, scanned, e, items[k].content);
    ListsOneMore(hash, entries, items, at, e, k);
    ScannedOneMore(items, k, scanned, at);
  }

  lemma ScannedOneMore(items: seq<WalkItem>, k: nat, scanned: map<Path, Bytes>, at: seq<nat>)
    requires k < |items|
    requires forall i, j :: 0 <= i < j < |items| ==> items[i].path != items[j].path
    requires forall p :: p in scanned ==> exists i :: 0 <= i < k && items[i].path == p
    requires forall i :: 0 <= i < k && items[i].regular ==>
               i in at && items[i].path in scanned && scanned[items[i].path] == items[i].content
    ensures var scanned' := scanned[items[k].path := items[k].content];
      && (forall p :: p in scanned' ==> exists i :: 0 <= i < k + 1 && items[i].path == p)
      && (forall i :: 0 <= i < k + 1 && items[i].regular ==>
            i in at + [k] && items[i].path in scanned' && scanned'[items[i].path] == items[i].content)
  {
    forall i | 0 <= i < k && items[i].regular ensures i in at + [k] {
      assert i in at;
    }
  }

  lemma ListsOneMore(hash: Hasher, files: seq<Entry>, items: seq<WalkItem>, at: seq<nat>, e: Entry, k: nat)
    requires Lists(hash, files, items, at) && forall m :: 0 <= m < |at| ==> at[m] < k
    requires k < |items| && items[k].regular && EntryOf(hash, e, items[k])
    ensures Lists(hash, files + [e], items, at + [k])
    ensures forall m :: 0 <= m < |at + [k]| ==> (at + [k])[m] < k + 1
  {
  }

  // What a sender is pointed at: nothing, one thing that is no directory, which
  // is read whatever its type, or a directory.
  datatype Root =
    | Missing
    | Single(item: WalkItem)
    | Directory(name: string, items: seq<WalkItem>)
  {
    predicate Sound() {
      match this
      case Missing => false
      case Single(item) => item.readable
      case Directory(_, items) => forall i :: 0 <= i < |items| ==> items[i].Sound()
    }
  }

  datatype Manifest = Manifest(rootName: string, files: seq<Entry>)

  method BuildManifest(hash: Hasher, root: Root)
    returns (r: Result<Manifest>, ghost scanned: map<Path, Bytes>, ghost at: seq<nat>)
    requires root.Directory? ==> forall i, j :: 0 <= i < j < |root.items| ==> root.items[i].path != root.items[j].path
    ensures r.Ok? <==> root.Sound()
    ensures r.Ok? ==> DistinctPaths(r.value.files) && Describes(hash, r.value.files, scanned)
    ensures r.Ok? && root.Single? ==>
      && r.value.rootName == "" && |r.value.files| == 1 && EntryOf(hash, r.value.files[0], root.item)
      && scanned == map[root.item.path := root.item.content]
    ensures r.Ok? && root.Directory? ==>
      && r.value.rootName == root.name && Lists(hash, r.value.files, root.items, at)
      && forall i :: 0 <= i < |root.items| && root.items[i].regular ==>
           i in at && root.items[i].path in scanned && scanned[root.items[i].path] == root.items[i].content
  {
    match root
    case Missing =>
      return Err("stat failed"), map[], [];
    case Single(item) =>
      var e := FileEntry(hash, item);
      if e.Err? {
        return Err(e.reason), map[], [];
      }
      return Ok(Manifest("", [e.value])), map[item.path := item.content], [];
    case Directory(name, items) =>
      var files, walked, places := WalkDirectory(hash, items);
      if files.Err? {
        return Err(files.reason), walked, places;
      }
      return Ok(Manifest(name, files.value)), walked, places;
  }
}
