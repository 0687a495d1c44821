/** Batching of boot rows under the combo URL limit (`web_boot.rs`).  Characters stand for
    the bytes of a URL. */
module ComboBatches {
  import opened Seqs
  import Pieces

  const MAX_COMBO_URL_BYTES: nat := 3 * 1024
  const HASH_REVISION_LENGTH: nat := 12
  const SOURCE_MAP_SUFFIX := ".map"
  const CLIENT_MODULES_ID := "@deepseek-ai/dsh-client-modules"

  function Resource(id: string, sourceMap: bool): string {
    id + "/client.js" + (if sourceMap then SOURCE_MAP_SUFFIX else "")
  }

  /** The combo route URL of an ordered id list. */
  function ComboUrl(ids: seq<string>, rev: string, sourceMap: bool): string {
    var resources := seq(|ids|, i requires 0 <= i < |ids| => Resource(ids[i], sourceMap));
    "/plugins/??" + Pieces.Join(resources, ',') + "&rev=" + rev
  }

  /** The URL names the client resource of every row, in order, and the revision behind them. */
  lemma UrlNames(ids: seq<string>, rev: string, sourceMap: bool) returns (list: string)
    requires ids != [] && forall i | 0 <= i < |ids| :: ',' !in ids[i]
    ensures ComboUrl(ids, rev, sourceMap) == "/plugins/??" + list + "&rev=" + rev
    ensures var named := Pieces.Split(list, ',');
      |named| == |ids|
      && forall i | 0 <= i < |ids| :: named[i] == ids[i] + if sourceMap then "/client.js.map" else "/client.js"
  {
    var resources := seq(|ids|, i requires 0 <= i < |ids| => Resource(ids[i], sourceMap));
    list := Pieces.Join(resources, ',');
    forall i | 0 <= i < |ids|
      ensures resources[i] == ids[i] + if sourceMap then "/client.js.map" else "/client.js"
    {
      assert ids[i] + "/client.js" + ".map" == ids[i] + "/client.js.map";
      assert ids[i] + "/client.js" + "" == ids[i] + "/client.js";
    }
    Pieces.SplitJoin(resources, ',');
  }

  function Zeros(n: nat): string {
    seq(n, _ => '0')
  }

  /** The longest URL a row list would generate: map form, placeholder revision. */
  function ProjectedBytes(ids: seq<string>): nat {
    |ComboUrl(ids, Zeros(HASH_REVISION_LENGTH), true)|
  }

  predicate Fits(ids: seq<string>) {
    ProjectedBytes(ids) <= MAX_COMBO_URL_BYTES
  }

  /** A split of `rows` into consecutive pieces that all fit. */
  predicate FittingSplit(chunks: seq<seq<string>>, rows: seq<string>) {
    Flatten(chunks) == rows && forall i | 0 <= i < |chunks| :: Fits(chunks[i])
  }

  // ----- lengths -----

  function TotalLength(ids: seq<string>): nat {
    if ids == [] then 0 else TotalLength(ids[..|ids| - 1]) + |ids[|ids| - 1]|
  }

  lemma {:induction false} JoinLength(ids: seq<string>, sourceMap: bool)
    requires ids != []
    ensures |Pieces.Join(seq(|ids|, i requires 0 <= i < |ids| => Resource(ids[i], sourceMap)), ',')| ==
      TotalLength(ids) + |ids| * (if sourceMap then 15 else 11) - 1
  {
    var n := |ids| - 1;
    var parts := seq(|ids|, i requires 0 <= i < |ids| => Resource(ids[i], sourceMap));
    if n > 0 {
      JoinLength(ids[..n], sourceMap);
      assert parts[..n] == seq(n, i requires 0 <= i < n => Resource(ids[..n][i], sourceMap));
      assert parts == parts[..n] + [parts[n]];
      Pieces.JoinAppend(parts[..n], parts[n], ',');
    }
  }

  lemma UrlLength(ids: seq<string>, rev: string, sourceMap: bool)
    requires ids != []
    ensures |ComboUrl(ids, rev, sourceMap)| == TotalLength(ids) + |ids| * (if sourceMap then 15 else 11) + 15 + |rev|
  {
    JoinLength(ids, sourceMap);
  }

  lemma {:induction false} TotalLengthConcat(a: seq<string>, b: seq<string>)
    ensures TotalLength(a + b) == TotalLength(a) + TotalLength(b)
  {
    if b == [] {
      assert a + b == a;
    } else {
      TotalLengthConcat(a, b[..|b| - 1]);
      assert (a + b)[..|a + b| - 1] == a + b[..|b| - 1];
    }
  }

  /** Rows fit exactly when both URLs that name them stay within three kilobytes, under any revision. */
  lemma FitsIff(ids: seq<string>, rev: string)
    requires ids != [] && |rev| == 12
    ensures Fits(ids) <==> |ComboUrl(ids, rev, true)| <= 3072
    ensures Fits(ids) ==> |ComboUrl(ids, rev, false)| <= 3072
  {
    UrlLength(ids, rev, true);
    UrlLength(ids, rev, false);
    UrlLength(ids, Zeros(HASH_REVISION_LENGTH), true);
  }

  /** Taking rows away never makes a list too long. */
  lemma PartFits(a: seq<string>, b: seq<string>, c: seq<string>)
    requires b != [] && Fits(a + b + c)
    ensures Fits(b)
  {
    UrlLength(a + b + c, Zeros(HASH_REVISION_LENGTH), true);
    UrlLength(b, Zeros(HASH_REVISION_LENGTH), true);
    TotalLengthConcat(a + b, c);
    TotalLengthConcat(a, b);
  }

  // ----- partitioning -----

  datatype Partition = Chunks(chunks: seq<seq<string>>) | TooLong(id: string)

  /** No chunk has room for the row that follows it. */
  predicate Full(chunks: seq<seq<string>>) {
    && (forall i | 0 <= i < |chunks| :: chunks[i] != [])
    && forall i | 0 <= i < |chunks| - 1 :: !Fits(chunks[i] + [chunks[i + 1][0]])
  }

  /** The rows seen so far, split greedily; `current` is the chunk still open. */
  ghost predicate Packed(rows: seq<string>, chunks: seq<seq<string>>, current: seq<string>) {
    && Flatten(chunks) + current == rows
    && (forall j | 0 <= j < |chunks| :: Fits(chunks[j])) && (current != [] ==> Fits(current))
    && Full(chunks) && (current != [] ==> Full(chunks + [current]))
    && (current == [] ==> chunks == [])
    && AllFit(rows)
  }

  ghost predicate AllFit(rows: seq<string>) {
    forall j | 0 <= j < |rows| :: Fits([rows[j]])
  }

  lemma ExtendPacked(rows: seq<string>, chunks: seq<seq<string>>, current: seq<string>, row: string)
    requires Packed(rows, chunks, current) && Fits(current + [row])
    ensures Packed(rows + [row], chunks, current + [row])
  {
    assert current + [row] + [] == current + [row];
    PartFits(current, [row], []);
    assert Flatten(chunks) + (current + [row]) == rows + [row];
    var after := chunks + [current + [row]];
    forall i | 0 <= i < |after| - 1
      ensures !Fits(after[i] + [after[i + 1][0]])
    {
      assert (chunks + [current])[i] == after[i] && (chunks + [current])[i + 1][0] == after[i + 1][0];
    }
  }

  lemma BreakPacked(rows: seq<string>, chunks: seq<seq<string>>, current: seq<string>, row: string)
    requires Packed(rows, chunks, current) && current != [] && !Fits(current + [row]) && Fits([row])
    ensures Packed(rows + [row], chunks + [current], [row])
  {
    FlattenMore(chunks, current);
    var before, after := chunks + [current], chunks + [current] + [[row]];
    forall i | 0 <= i < |after| - 1
      ensures !Fits(after[i] + [after[i + 1][0]])
    {
      if i < |chunks| {
        assert before[i] == after[i] && before[i + 1] == after[i + 1];
      }
    }
  }

  /** A finished greedy split. */
  lemma PackedIsBest(rows: seq<string>, chunks: seq<seq<string>>)
    requires Flatten(chunks) == rows && Full(chunks)
    ensures forall split | FittingSplit(split, rows) :: |chunks| <= |split|
  {
    forall split | FittingSplit(split, rows)
      ensures |chunks| <= |split|
    {
      assert Flatten(split) == [] + Flatten(chunks);
      FullIsFewest(chunks, split, []);
    }
  }

  /** The open chunk closes the split. */
  lemma PackedFinish(rows: seq<string>, chunks: seq<seq<string>>, current: seq<string>)
    requires Packed(rows, chunks, current)
    ensures
      var all := if current == [] then chunks else chunks + [current];
      && FittingSplit(all, rows) && Full(all)
      && forall split | FittingSplit(split, rows) :: |all| <= |split|
  {
    if current != [] {
      FlattenMore(chunks, current);
      PackedIsBest(rows, chunks + [current]);
    } else {
      PackedIsBest(rows, chunks);
    }
  }

  lemma TooLongAt(rows: seq<string>, i: nat)
    requires i < |rows| && !Fits([rows[i]]) && AllFit(rows[..i])
    ensures !AllFit(rows)
    ensures exists j | 0 <= j < |rows| :: rows[j] == rows[i] && !Fits([rows[j]]) && AllFit(rows[..j])
  {
  }

  /** The next row joins the open chunk, or closes it and opens its own, unless it is too long by itself. */
  method TakeRow(row: string, ghost seen: seq<string>, chunks: seq<seq<string>>, current: seq<string>)
    returns (fits: bool, chunks': seq<seq<string>>, current': seq<string>)
    requires Packed(seen, chunks, current)
    ensures fits == Fits([row])
    ensures if fits then Packed(seen + [row], chunks', current') else Packed(seen, chunks', current')
  {
    fits, chunks', current' := true, chunks, current;
    var candidate := current + [row];
    if Fits(candidate) {
      ExtendPacked(seen, chunks, current, row);
      assert candidate + [] == candidate;
      PartFits(current, [row], []);
      current' := candidate;
    } else if current == [] || !Fits([row]) {
      assert current == [] ==> candidate == [row];
      fits := false;
    } else {
      BreakPacked(seen, chunks, current, row);
      chunks', current' := chunks + [current], [row];
    }
  }

  /** Splits rows so that no projected URL exceeds the limit: as few consecutive chunks as any
      split could have, or the first row that is too long on its own. */
  method PartitionCombo(rows: seq<string>) returns (r: Partition)
    ensures r.Chunks? <==> AllFit(rows)
    ensures r.Chunks? ==> FittingSplit(r.chunks, rows) && forall i | 0 <= i < |r.chunks| :: r.chunks[i] != []
    ensures r.Chunks? ==> forall split | FittingSplit(split, rows) :: |r.chunks| <= |split|
    ensures r.TooLong? ==> exists i | 0 <= i < |rows| :: rows[i] == r.id && !Fits([rows[i]]) && AllFit(rows[..i])
  {
    var chunks: seq<seq<string>> := [];
    var current: seq<string> := [];
    for i := 0 to |rows|
      invariant Packed(rows[..i], chunks, current)
    {
      var fits;
      fits, chunks, current := TakeRow(rows[i], rows[..i], chunks, current);
      if !fits {
        TooLongAt(rows, i);
        return TooLong(rows[i]);
      }
      assert rows[..i + 1] == rows[..i] + [rows[i]];
    }
    assert rows[..|rows|] == rows;
    PackedFinish(rows, chunks, current);
    if current != [] {
      chunks := chunks + [current];
    }
    r := Chunks(chunks);
  }

  /** Any fitting split that covers the full chunks, and perhaps `before` ahead of them, needs
      at least as many pieces: each piece ends no later than the chunk it stands for. */
  lemma {:induction false} FullIsFewest(chunks: seq<seq<string>>, split: seq<seq<string>>, before: seq<string>)
    requires Full(chunks) && (forall i | 0 <= i < |split| :: Fits(split[i]))
    requires Flatten(split) == before + Flatten(chunks)
    ensures |chunks| <= |split|
  {
    if chunks != [] {
      var piece, reach := split[0], before + chunks[0];
      assert Flatten(split) == reach + Flatten(chunks[1..]);
      assert piece == Flatten(split)[..|piece|];
      if |piece| <= |reach| {
        assert piece == reach[..|piece|];
        assert Flatten(split[1..]) == Flatten(split)[|piece|..] == reach[|piece|..] + Flatten(chunks[1..]);
        forall i | 0 <= i < |chunks[1..]| - 1
          ensures !Fits(chunks[1..][i] + [chunks[1..][i + 1][0]])
        {
          assert chunks[1..][i] == chunks[i + 1] && chunks[1..][i + 1] == chunks[i + 2];
        }
        FullIsFewest(chunks[1..], split[1..], reach[|piece|..]);
      } else {
        var next, n := chunks[0] + [chunks[1][0]], |reach| + 1;
        assert Flatten(chunks[1..])[0] == chunks[1][0];
        assert piece[..n] == Flatten(split)[..n];
        assert Flatten(split)[..n] == reach + [chunks[1][0]] == before + next;
        assert piece == before + next + piece[n..];
        PartFits(before, next, piece[n..]);
        assert false;
      }
    }
  }

  // ----- batches -----

  datatype Batch = Batch(phase: string, url: string, rev: string, entries: seq<string>)
  datatype Batches = Batched(batches: seq<Batch>) | RowTooLong(id: string)

  function Select(ids: seq<string>, client: bool): seq<string> {
    if ids == [] then []
    else
      var last := ids[|ids| - 1];
      Select(ids[..|ids| - 1], client) + (if (last == CLIENT_MODULES_ID) == client then [last] else [])
  }

  function EntriesOf(batches: seq<Batch>): seq<string> {
    if batches == [] then [] else EntriesOf(batches[..|batches| - 1]) + batches[|batches| - 1].entries
  }

  /** A served URL names its entries under its own revision, and neither it nor its map form
      exceeds the limit. */
  predicate Served(b: Batch) {
    && b.entries != [] && (forall id | id in b.entries :: id == CLIENT_MODULES_ID <==> b.phase == "bootstrap")
    && |b.rev| == HASH_REVISION_LENGTH
    && b.url == ComboUrl(b.entries, b.rev, false)
    && |b.url| <= MAX_COMBO_URL_BYTES && |ComboUrl(b.entries, b.rev, true)| <= MAX_COMBO_URL_BYTES
  }

  lemma {:induction false} SelectOnly(ids: seq<string>, client: bool)
    ensures forall id | id in Select(ids, client) :: (id == CLIENT_MODULES_ID) == client
  {
    if ids != [] {
      SelectOnly(ids[..|ids| - 1], client);
    }
  }

  lemma {:induction false} FlattenHas(chunks: seq<seq<string>>, c: nat)
    requires c < |chunks|
    ensures forall id | id in chunks[c] :: id in Flatten(chunks)
  {
    if c > 0 {
      FlattenHas(chunks[1..], c - 1);
      assert chunks[1..][c - 1] == chunks[c];
    }
  }

  lemma {:induction false} SelectSplits(ids: seq<string>)
    ensures multiset(Select(ids, true)) + multiset(Select(ids, false)) == multiset(ids)
    ensures forall id :: id in ids <==> id in Select(ids, true) || id in Select(ids, false)
  {
    if ids != [] {
      var n := |ids| - 1;
      SelectSplits(ids[..n]);
      assert ids == ids[..n] + [ids[n]];
    }
  }

  /** The URL carries the revision that the URL without one hashes to. */
  method MakeBatch(chunk: seq<string>, client: bool, hash: string -> string) returns (batch: Batch)
    requires forall s :: |hash(s)| == HASH_REVISION_LENGTH
    requires chunk != [] && Fits(chunk)
    requires forall id | id in chunk :: (id == CLIENT_MODULES_ID) == client
    ensures Served(batch) && batch.entries == chunk && batch.rev == hash(ComboUrl(chunk, "", false))
  {
    var rev := hash(ComboUrl(chunk, "", false));
    UrlLength(chunk, rev, false);
    UrlLength(chunk, rev, true);
    UrlLength(chunk, Zeros(HASH_REVISION_LENGTH), true);
    batch := Batch(if client then "bootstrap" else "application", ComboUrl(chunk, rev, false), rev, chunk);
  }

  /** The batches made so far and the chunks still to come are the whole group. */
  ghost predicate Batching(batches: seq<Batch>, chunks: seq<seq<string>>, c: nat, group: seq<string>) {
    && c <= |chunks| && EntriesOf(batches) + Flatten(chunks[c..]) == group
    && forall i | 0 <= i < |batches| :: Served(batches[i])
  }

  lemma OneMoreBatch(batches: seq<Batch>, batch: Batch, chunks: seq<seq<string>>, c: nat)
    requires c < |chunks| && batch.entries == chunks[c] && Served(batch)
    ensures forall group :: Batching(batches, chunks, c, group) ==> Batching(batches + [batch], chunks, c + 1, group)
  {
    assert (batches + [batch])[..|batches|] == batches;
    assert chunks[c..][0] == chunks[c] && chunks[c..][1..] == chunks[c + 1..];
    assert EntriesOf(batches) + chunks[c] + Flatten(chunks[c + 1..])
      == EntriesOf(batches) + (chunks[c] + Flatten(chunks[c + 1..]));
  }

  lemma ChunkSelected(ids: seq<string>, client: bool, chunks: seq<seq<string>>, c: nat)
    requires c < |chunks| && Flatten(chunks) == Select(ids, client)
    ensures forall id | id in chunks[c] :: (id == CLIENT_MODULES_ID) == client
  {
    SelectOnly(ids, client);
    FlattenHas(chunks, c);
  }

  /** The batches of one phase. */
  method BatchGroup(ids: seq<string>, client: bool, hash: string -> string)
    returns (batches: seq<Batch>, tooLong: seq<string>)
    requires forall s :: |hash(s)| == HASH_REVISION_LENGTH
    ensures tooLong == [] <==> AllFit(Select(ids, client))
    ensures tooLong == [] ==> EntriesOf(batches) == Select(ids, client) && forall i | 0 <= i < |batches| ::
      Served(batches[i])
    ensures tooLong != [] ==> tooLong[0] in Select(ids, client) && !Fits([tooLong[0]])
  {
    batches, tooLong := [], [];
    var group := Select(ids, client);
    var found := PartitionCombo(group);
    if found.TooLong? {
      return [], [found.id];
    }
    batches := BatchChunks(ids, client, found.chunks, hash);
  }

  method BatchChunks(ids: seq<string>, client: bool, chunks: seq<seq<string>>, hash: string -> string)
    returns (batches: seq<Batch>)
    requires forall s :: |hash(s)| == HASH_REVISION_LENGTH
    requires Flatten(chunks) == Select(ids, client) && forall c | 0 <= c < |chunks| ::
      chunks[c] != [] && Fits(chunks[c])
    ensures EntriesOf(batches) == Select(ids, client) && forall i | 0 <= i < |batches| :: Served(batches[i])
  {
    batches := [];
    for c := 0 to |chunks|
      invariant Batching(batches, chunks, c, Select(ids, client))
    {
      ChunkSelected(ids, client, chunks, c);
      var batch := MakeBatch(chunks[c], client, hash);
      OneMoreBatch(batches, batch, chunks, c);
      batches := batches + [batch];
    }
  }

  lemma {:induction false} EntriesConcat(a: seq<Batch>, b: seq<Batch>)
    ensures EntriesOf(a + b) == EntriesOf(a) + EntriesOf(b)
  {
    if b == [] {
      assert a + b == a;
    } else {
      var n := |b| - 1;
      EntriesConcat(a, b[..n]);
      assert (a + b)[..|a + b| - 1] == a + b[..n];
      Associate(EntriesOf(a), EntriesOf(b[..n]), b[n].entries);
    }
  }

  /** `client-modules` alone bootstraps and everything else is preloaded.  `hash` stands for the
      short hash, of which only the length matters. */
  method PartitionBatches(ids: seq<string>, hash: string -> string) returns (r: Batches)
    requires forall s :: |hash(s)| == HASH_REVISION_LENGTH
    ensures r.Batched? <==> AllFit(ids)
    ensures r.Batched? ==> forall i | 0 <= i < |r.batches| :: Served(r.batches[i])
    ensures r.Batched? ==> EntriesOf(r.batches) == Select(ids, true) + Select(ids, false)
    ensures r.Batched? ==> multiset(EntriesOf(r.batches)) == multiset(ids)
    ensures r.RowTooLong? ==> r.id in ids && !Fits([r.id])
  {
    SelectSplits(ids);
    var bootstrap, tooLong := BatchGroup(ids, true, hash);
    if tooLong != [] {
      return RowTooLong(tooLong[0]);
    }
    var application;
    application, tooLong := BatchGroup(ids, false, hash);
    if tooLong != [] {
      return RowTooLong(tooLong[0]);
    }
    EntriesConcat(bootstrap, application);
    assert forall id | id in ids :: Fits([id]);
    r := Batched(bootstrap + application);
  }
}
