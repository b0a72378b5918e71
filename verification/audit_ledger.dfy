/**
 * The fraud-decision audit ledger: two append-only tables, `chain_blocks`
 * and `chain_entries`, a hash chain over block headers and an HMAC chain
 * threaded through every entry ever written, across block boundaries.
 *
 * SHA-256 and HMAC-SHA256 are not modelled bit by bit: they are the two
 * function-valued fields of `Primitives`, so every property below holds for
 * any choice of them. Hex digests and the key are strings; the UTF-8
 * encoding the source applies before hashing is left implicit.
 */
module AuditLedger {
  import opened Wrappers
  import opened CanonicalJson
  import opened Numerals

  datatype Primitives = Primitives(
    sha256Hex: string -> string,
    hmacSha256Hex: (string, string) -> string)   // (key, message)

  /** The genesis sentinel: 64 zero characters, used before any block or entry exists. */
  const GenesisHash: string := "0000000000000000000000000000000000000000000000000000000000000000"

  const DefaultHmacKey: string := "secret-default-key"

  /** `tx_reference` as given by the caller: missing/None, an integer id, or text. */
  datatype TxRef = NoRef | IntRef(n: int) | TextRef(s: string)

  /** One entry handed to append_block. */
  datatype NewEntry = NewEntry(txReference: TxRef, payload: Value)

  /** A row of chain_blocks (the surrogate `id` and `created_at` are left out). */
  datatype BlockRow = BlockRow(
    blockIndex: int,
    prevBlockHash: string,
    blockHash: string,
    merkleRoot: string,
    entriesCount: nat)

  /** A row of chain_entries, in insertion (`id`) order. */
  datatype EntryRow = EntryRow(
    blockIndex: int,
    entryIndex: int,
    txReference: string,
    entryPayload: string,
    entryHash: string,
    hmacChain: string)

  /** What append_block returns to its caller. */
  datatype Receipt = Receipt(blockIndex: int, blockHash: string, merkleRoot: string)

  // ---------------------------------------------------------------------
  // The pure pieces of append_block.

  /** The key the chain is keyed with: the configured key, or the built-in default when none is set. */
  function HmacKey(configured: string): (key: string)
    ensures key != []
    ensures configured != [] ==> key == configured
    ensures configured == [] ==> key == DefaultHmacKey
  {
    if configured != [] then configured else DefaultHmacKey
  }

  /** `str(entry.get("tx_reference"))`. */
  function TxRefText(r: TxRef): string
  {
    match r
    case NoRef => "None"
    case IntRef(n) => IntText(n)
    case TextRef(s) => s
  }

  function EntryHash(p: Primitives, payload: Value): string
  {
    p.sha256Hex(Encode(payload))
  }

  function EntryHashes(p: Primitives, batch: seq<NewEntry>): (hs: seq<string>)
    ensures |hs| == |batch|
  {
    seq(|batch|, j requires 0 <= j < |batch| => EntryHash(p, batch[j].payload))
  }

  /** `"".join(parts)`. */
  function Concat(parts: seq<string>): string
  {
    if parts == [] then "" else parts[0] + Concat(parts[1..])
  }

  /**
   * The "merkle-like" root. The source distinguishes the empty batch, but
   * both branches hash the concatenation of the entry hashes.
   */
  function MerkleRoot(p: Primitives, hashes: seq<string>): (root: string)
    ensures root == p.sha256Hex(Concat(hashes))
    ensures hashes == [] ==> root == p.sha256Hex("")
  {
    if hashes != [] then p.sha256Hex(Concat(hashes)) else p.sha256Hex("")
  }

  /** The block header, its members in the source's insertion order. */
  function Header(index: int, prev: string, root: string, count: nat, timestamp: int): Value
  {
    Object([
      Member("block_index", Int(index)),
      Member("prev_block_hash", Str(prev)),
      Member("merkle_root", Str(root)),
      Member("entries_count", Int(count)),
      Member("timestamp", Int(timestamp))])
  }

  /** sha256_hex(stable_json(header)). */
  function BlockHash(p: Primitives, index: int, prev: string, root: string, count: nat, timestamp: int): string
  {
    p.sha256Hex(Encode(Header(index, prev, root, count, timestamp)))
  }

  /** The block append_block writes for `batch` on top of a chain whose tip hash is `prev`. */
  function SealBlock(p: Primitives, index: int, prev: string, batch: seq<NewEntry>, timestamp: int): (b: BlockRow)
  {
    var root := MerkleRoot(p, EntryHashes(p, batch));
    BlockRow(index, prev, BlockHash(p, index, prev, root, |batch|, timestamp), root, |batch|)
  }

  /** The block_hash of the newest block, or the genesis sentinel. */
  function TipHash(bs: seq<BlockRow>): string
  {
    if bs == [] then GenesisHash else bs[|bs| - 1].blockHash
  }

  /** get_last_hmac: the hmac_chain of the newest entry of the whole ledger, or the sentinel. */
  function LastHmac(es: seq<EntryRow>): string
  {
    if es == [] then GenesisHash else es[|es| - 1].hmacChain
  }

  /** The hmac_chain value entry k is chained onto: the one before it, or `first` for entry 0. */
  function LinkBefore(es: seq<EntryRow>, k: int, first: string): string
    requires 0 <= k <= |es|
  {
    if k == 0 then first else es[k - 1].hmacChain
  }

  /** The block_hash block i points back to: its predecessor's, or the sentinel for block 0. */
  function HashBefore(bs: seq<BlockRow>, i: int): string
    requires 0 <= i <= |bs|
  {
    if i == 0 then GenesisHash else bs[i - 1].blockHash
  }

  /**
   * The hmac_chain of row j of a batch whose entry hashes are `hs`: HMAC over
   * the row's hash followed by the previous row's link (`prev` for row 0).
   */
  function HmacAt(p: Primitives, key: string, hs: seq<string>, prev: string, j: int): string
    requires 0 <= j < |hs|
    decreases j
  {
    p.hmacSha256Hex(key, hs[j] + (if j == 0 then prev else HmacAt(p, key, hs, prev, j - 1)))
  }

  /**
   * The entry rows append_block inserts for `batch` into block `index`, the
   * HMAC chain continuing from `prev`: block index, 1-based entry index,
   * tx reference text, canonical payload, its hash and its link.
   */
  function ChainRows(p: Primitives, key: string, index: int, batch: seq<NewEntry>, prev: string): (rows: seq<EntryRow>)
    ensures |rows| == |batch|
  {
    var hs := EntryHashes(p, batch);
    seq(|batch|, j requires 0 <= j < |batch| =>
      EntryRow(index, j + 1, TxRefText(batch[j].txReference), Encode(batch[j].payload), hs[j], HmacAt(p, key, hs, prev, j)))
  }

  /** Each row's link is the HMAC over its own hash followed by the link of the row before it. */
  lemma ChainRowsLinked(p: Primitives, key: string, index: int, batch: seq<NewEntry>, prev: string)
    ensures var rows := ChainRows(p, key, index, batch, prev);
      forall j :: 0 <= j < |rows| ==> ThreadedAt(p, key, rows, j, prev)
  {
  }

  /**
   * compute_hmac: HMAC under the configured key as it is (empty when unset,
   * with no fallback), over the previous link (a missing one counts as "")
   * followed by the canonical payload. No caller uses it.
   */
  function ComputeHmac(p: Primitives, configured: string, prevHmac: Option<string>, payload: Value): (mac: string)
    ensures prevHmac == None ==> mac == p.hmacSha256Hex(configured, Encode(payload))
    ensures prevHmac.Some? ==> mac == p.hmacSha256Hex(configured, prevHmac.value + Encode(payload))
    ensures configured != [] ==> mac == p.hmacSha256Hex(HmacKey(configured), PrevText(prevHmac) + Encode(payload))
  {
    assert PrevText(None) + Encode(payload) == Encode(payload);
    p.hmacSha256Hex(configured, PrevText(prevHmac) + Encode(payload))
  }

  /** `prev_hmac or ""`. */
  function PrevText(prevHmac: Option<string>): string
  {
    if prevHmac.Some? then prevHmac.value else ""
  }

  /**
   * What compute_hmac seals: if the HMAC under the key has no collisions, two
   * calls with previous links of equal length (as hex digests are) differ
   * when the links or the canonical payload texts differ.
   */
  lemma ComputeHmacBinds(p: Primitives, configured: string, h1: string, h2: string, v1: Value, v2: Value)
    requires forall x, y :: p.hmacSha256Hex(configured, x) == p.hmacSha256Hex(configured, y) ==> x == y
    requires |h1| == |h2|
    requires h1 != h2 || Encode(v1) != Encode(v2)
    ensures ComputeHmac(p, configured, Some(h1), v1) != ComputeHmac(p, configured, Some(h2), v2)
  {
    var m1, m2 := h1 + Encode(v1), h2 + Encode(v2);
    assert m1[..|h1|] == h1 && m1[|h1|..] == Encode(v1);
    assert m2[..|h2|] == h2 && m2[|h2|..] == Encode(v2);
  }

  /** Row i extends the first i rows: it hashes entry i and chains onto the link before it. */
  lemma ChainRowsStep(p: Primitives, key: string, index: int, batch: seq<NewEntry>, prev: string, i: nat)
    requires i < |batch|
    ensures var rows := ChainRows(p, key, index, batch, prev);
      var h := EntryHashes(p, batch)[i];
      var link := p.hmacSha256Hex(key, h + LinkBefore(rows, i, prev));
      && rows[..i + 1] == rows[..i] + [EntryRow(index, i + 1, TxRefText(batch[i].txReference), Encode(batch[i].payload), h, link)]
      && LinkBefore(rows, i + 1, prev) == link
  {
  }

  /** One turn of the insertion loop: the table so far plus the next row is the table one row further. */
  lemma ChainRowsGrow(p: Primitives, key: string, index: int, batch: seq<NewEntry>, prev: string, i: nat,
                      base: seq<EntryRow>, current: seq<EntryRow>, link: string)
    requires i < |batch|
    requires current == base + ChainRows(p, key, index, batch, prev)[..i]
    requires link == LinkBefore(ChainRows(p, key, index, batch, prev), i, prev)
    ensures var rows := ChainRows(p, key, index, batch, prev);
      var h := EntryHashes(p, batch)[i];
      var next := p.hmacSha256Hex(key, h + link);
      && current + [EntryRow(index, i + 1, TxRefText(batch[i].txReference), Encode(batch[i].payload), h, next)]
         == base + rows[..i + 1]
      && next == LinkBefore(rows, i + 1, prev)
  {
    ChainRowsStep(p, key, index, batch, prev, i);
  }

  // ---------------------------------------------------------------------
  // Well-formedness of the two tables: what a replay of the whole ledger
  // would check. `stamps` holds the header timestamps, which the tables do
  // not store.

  /** Number of entries the blocks claim, in total. */
  function CountSum(bs: seq<BlockRow>): nat
  {
    if bs == [] then 0 else CountSum(bs[..|bs| - 1]) + bs[|bs| - 1].entriesCount
  }

  /** Block i has index i and links to its predecessor's hash (the sentinel for block 0). */
  ghost predicate LinkedAt(bs: seq<BlockRow>, i: int)
    requires 0 <= i < |bs|
  {
    bs[i].blockIndex == i && bs[i].prevBlockHash == HashBefore(bs, i)
  }

  ghost predicate Linked(bs: seq<BlockRow>)
  {
    forall i :: 0 <= i < |bs| ==> LinkedAt(bs, i)
  }

  function HashesOf(group: seq<EntryRow>): (hs: seq<string>)
    ensures |hs| == |group|
  {
    seq(|group|, j requires 0 <= j < |group| => group[j].entryHash)
  }

  /** A block and the entry rows it owns agree: count, merkle root, numbering, payload hashes. */
  ghost predicate Sealed(p: Primitives, b: BlockRow, group: seq<EntryRow>)
  {
    && b.entriesCount == |group|
    && b.merkleRoot == p.sha256Hex(Concat(HashesOf(group)))
    && forall j :: 0 <= j < |group| ==>
         && group[j].blockIndex == b.blockIndex
         && group[j].entryIndex == j + 1
         && p.sha256Hex(group[j].entryPayload) == group[j].entryHash
  }

  /**
   * The entry table is the rows of the blocks, block after block: the newest
   * block owns the last entriesCount rows and seals them.
   */
  ghost predicate Chained(p: Primitives, bs: seq<BlockRow>, es: seq<EntryRow>)
    decreases |bs|
  {
    if bs == [] then es == []
    else
      var n := |bs| - 1;
      var m := |es| - bs[n].entriesCount;
      && 0 <= m
      && Chained(p, bs[..n], es[..m])
      && Sealed(p, bs[n], es[m..])
  }

  /** Block i's block_hash is the hash of its own header, taken at its timestamp. */
  ghost predicate HeaderHashed(p: Primitives, bs: seq<BlockRow>, stamps: seq<int>, i: int)
    requires 0 <= i < |bs| && i < |stamps|
  {
    bs[i].blockHash == BlockHash(p, bs[i].blockIndex, bs[i].prevBlockHash, bs[i].merkleRoot, bs[i].entriesCount, stamps[i])
  }

  ghost predicate HeadersHashed(p: Primitives, bs: seq<BlockRow>, stamps: seq<int>)
  {
    |stamps| == |bs| && forall i :: 0 <= i < |bs| ==> HeaderHashed(p, bs, stamps, i)
  }

  /** Entry k is keyed over its own hash followed by the previous entry's link (`first` for entry 0). */
  ghost predicate ThreadedAt(p: Primitives, key: string, es: seq<EntryRow>, k: int, first: string)
    requires 0 <= k < |es|
  {
    es[k].hmacChain == p.hmacSha256Hex(key, es[k].entryHash + LinkBefore(es, k, first))
  }

  ghost predicate HmacThreaded(p: Primitives, key: string, es: seq<EntryRow>)
  {
    forall k :: 0 <= k < |es| ==> ThreadedAt(p, key, es, k, GenesisHash)
  }

  ghost predicate WellFormed(p: Primitives, key: string, bs: seq<BlockRow>, es: seq<EntryRow>, stamps: seq<int>)
  {
    Linked(bs) && HeadersHashed(p, bs, stamps) && Chained(p, bs, es) && HmacThreaded(p, key, es)
  }

  // ---------------------------------------------------------------------
  // Appending keeps the tables well formed.

  lemma LinkedPrefix(bs: seq<BlockRow>, n: nat)
    requires Linked(bs) && n <= |bs|
    ensures Linked(bs[..n])
  {
    forall i | 0 <= i < n ensures LinkedAt(bs[..n], i) {
      assert LinkedAt(bs, i);
      assert bs[..n][i] == bs[i];
      if i > 0 {
        assert bs[..n][i - 1] == bs[i - 1];
      }
    }
  }

  lemma LinkedAppend(bs: seq<BlockRow>, b: BlockRow)
    requires Linked(bs)
    requires b.blockIndex == |bs| && b.prevBlockHash == TipHash(bs)
    ensures Linked(bs + [b])
  {
    var bs' := bs + [b];
    forall i | 0 <= i < |bs'| ensures LinkedAt(bs', i) {
      if i < |bs| {
        assert LinkedAt(bs, i);
        assert bs'[i] == bs[i];
        if i > 0 {
          assert bs'[i - 1] == bs[i - 1];
        }
      } else if i > 0 {
        assert bs'[i - 1] == bs[|bs| - 1];
      }
    }
  }

  lemma ChainedAppend(p: Primitives, bs: seq<BlockRow>, es: seq<EntryRow>, b: BlockRow, rows: seq<EntryRow>)
    requires Chained(p, bs, es)
    requires Sealed(p, b, rows)
    ensures Chained(p, bs + [b], es + rows)
  {
    assert (bs + [b])[..|bs|] == bs;
    assert (es + rows)[..|es|] == es;
    assert (es + rows)[|es|..] == rows;
  }

  lemma HeadersHashedAppend(p: Primitives, bs: seq<BlockRow>, stamps: seq<int>, index: int, batch: seq<NewEntry>, timestamp: int)
    requires HeadersHashed(p, bs, stamps)
    ensures HeadersHashed(p, bs + [SealBlock(p, index, TipHash(bs), batch, timestamp)], stamps + [timestamp])
  {
    var bs', stamps' := bs + [SealBlock(p, index, TipHash(bs), batch, timestamp)], stamps + [timestamp];
    forall i | 0 <= i < |bs'| ensures HeaderHashed(p, bs', stamps', i) {
      if i < |bs| {
        assert HeaderHashed(p, bs, stamps, i);
        assert bs'[i] == bs[i] && stamps'[i] == stamps[i];
      }
    }
  }

  lemma HmacThreadedAppend(p: Primitives, key: string, es: seq<EntryRow>, index: int, batch: seq<NewEntry>)
    requires HmacThreaded(p, key, es)
    ensures HmacThreaded(p, key, es + ChainRows(p, key, index, batch, LastHmac(es)))
  {
    var rows := ChainRows(p, key, index, batch, LastHmac(es));
    ChainRowsLinked(p, key, index, batch, LastHmac(es));
    var all := es + rows;
    forall k | 0 <= k < |all| ensures ThreadedAt(p, key, all, k, GenesisHash) {
      if k < |es| {
        assert ThreadedAt(p, key, es, k, GenesisHash);
        assert all[k] == es[k];
        if k > 0 {
          assert all[k - 1] == es[k - 1];
        }
      } else {
        var j := k - |es|;
        assert ThreadedAt(p, key, rows, j, LastHmac(es));
        assert all[k] == rows[j];
        if j > 0 {
          assert all[k - 1] == rows[j - 1];
        } else if k > 0 {
          assert all[k - 1] == es[|es| - 1];
        }
      }
    }
  }

  lemma SealedNewBlock(p: Primitives, key: string, index: int, prev: string, batch: seq<NewEntry>, timestamp: int, prevHmac: string)
    ensures Sealed(p, SealBlock(p, index, prev, batch, timestamp), ChainRows(p, key, index, batch, prevHmac))
  {
    var rows := ChainRows(p, key, index, batch, prevHmac);
    assert HashesOf(rows) == EntryHashes(p, batch);
  }

  /**
   * Sequential appends never fork the chain: appending the block and rows
   * append_block computes keeps the tables well formed.
   */
  lemma AppendKeepsWellFormed(p: Primitives, key: string, bs: seq<BlockRow>, es: seq<EntryRow>, stamps: seq<int>,
                              batch: seq<NewEntry>, timestamp: int)
    requires WellFormed(p, key, bs, es, stamps)
    ensures WellFormed(p, key,
      bs + [SealBlock(p, |bs|, TipHash(bs), batch, timestamp)],
      es + ChainRows(p, key, |bs|, batch, LastHmac(es)),
      stamps + [timestamp])
  {
    var b := SealBlock(p, |bs|, TipHash(bs), batch, timestamp);
    LinkedAppend(bs, b);
    SealedNewBlock(p, key, |bs|, TipHash(bs), batch, timestamp, LastHmac(es));
    ChainedAppend(p, bs, es, b, ChainRows(p, key, |bs|, batch, LastHmac(es)));
    HeadersHashedAppend(p, bs, stamps, |bs|, batch, timestamp);
    HmacThreadedAppend(p, key, es, |bs|, batch);
  }

  // ---------------------------------------------------------------------
  // What a well-formed ledger guarantees.

  /** The entries_count values of all blocks add up to the number of entry rows. */
  lemma {:induction false} EntriesTotal(p: Primitives, bs: seq<BlockRow>, es: seq<EntryRow>)
    requires Chained(p, bs, es)
    ensures CountSum(bs) == |es|
    decreases |bs|
  {
    if bs != [] {
      var n := |bs| - 1;
      EntriesTotal(p, bs[..n], es[..|es| - bs[n].entriesCount]);
    }
  }

  /** Every entry row carries the index of an existing block. */
  lemma {:induction false} EntryBlockInRange(p: Primitives, bs: seq<BlockRow>, es: seq<EntryRow>)
    requires Linked(bs) && Chained(p, bs, es)
    ensures forall k :: 0 <= k < |es| ==> 0 <= es[k].blockIndex < |bs|
    decreases |bs|
  {
    if bs != [] {
      var n := |bs| - 1;
      var m := |es| - bs[n].entriesCount;
      LinkedPrefix(bs, n);
      assert LinkedAt(bs, n);
      EntryBlockInRange(p, bs[..n], es[..m]);
      forall k | 0 <= k < |es| ensures 0 <= es[k].blockIndex < |bs| {
        if k < m {
          assert es[k] == es[..m][k];
        } else {
          assert es[k] == es[m..][k - m];
        }
      }
    }
  }

  /** The number of rows carrying block_index i. */
  function RowsOfBlock(es: seq<EntryRow>, i: int): nat
  {
    if es == [] then 0 else RowsOfBlock(es[..|es| - 1], i) + (if es[|es| - 1].blockIndex == i then 1 else 0)
  }

  lemma {:induction false} RowsOfBlockConcat(a: seq<EntryRow>, b: seq<EntryRow>, i: int)
    ensures RowsOfBlock(a + b, i) == RowsOfBlock(a, i) + RowsOfBlock(b, i)
    decreases |b|
  {
    if b != [] {
      var n := |b| - 1;
      assert (a + b)[..|a + b| - 1] == a + b[..n];
      RowsOfBlockConcat(a, b[..n], i);
    } else {
      assert a + b == a;
    }
  }

  lemma {:induction false} RowsOfBlockUniform(es: seq<EntryRow>, i: int, all: bool)
    requires forall k :: 0 <= k < |es| ==> (es[k].blockIndex == i) == all
    ensures RowsOfBlock(es, i) == if all then |es| else 0
    decreases |es|
  {
    if es != [] {
      RowsOfBlockUniform(es[..|es| - 1], i, all);
    }
  }

  /** The stored entries_count of a block equals the number of entry rows that carry its index. */
  lemma {:induction false} EntriesCountMatchesRows(p: Primitives, key: string, bs: seq<BlockRow>, es: seq<EntryRow>, stamps: seq<int>, i: nat)
    requires WellFormed(p, key, bs, es, stamps)
    requires i < |bs|
    ensures RowsOfBlock(es, i) == bs[i].entriesCount
  {
    OwnRowsCount(p, bs, es, i);
  }

  /** The newest block owns the last entriesCount rows, all carrying its index; the rest is chained on the older blocks. */
  lemma ChainedNewest(p: Primitives, bs: seq<BlockRow>, es: seq<EntryRow>) returns (m: nat)
    requires Linked(bs) && Chained(p, bs, es) && bs != []
    ensures m + bs[|bs| - 1].entriesCount == |es|
    ensures Linked(bs[..|bs| - 1]) && Chained(p, bs[..|bs| - 1], es[..m])
    ensures forall k :: 0 <= k < |es[m..]| ==> es[m..][k].blockIndex == |bs| - 1
  {
    m := |es| - bs[|bs| - 1].entriesCount;
    LinkedPrefix(bs, |bs| - 1);
    assert LinkedAt(bs, |bs| - 1);
  }

  lemma {:induction false} OwnRowsCount(p: Primitives, bs: seq<BlockRow>, es: seq<EntryRow>, i: nat)
    requires Linked(bs) && Chained(p, bs, es)
    requires i < |bs|
    ensures RowsOfBlock(es, i) == bs[i].entriesCount
    decreases |bs|
  {
    var n := |bs| - 1;
    var m := ChainedNewest(p, bs, es);
    var older, newest := es[..m], es[m..];
    assert es == older + newest;
    RowsOfBlockConcat(older, newest, i);
    RowsOfBlockUniform(newest, i, i == n);
    if i == n {
      EntryBlockInRange(p, bs[..n], older);
      RowsOfBlockUniform(older, i, false);
    } else {
      OwnRowsCount(p, bs[..n], older, i);
      assert bs[..n][i] == bs[i];
    }
  }

  lemma {:induction false} ChainedDetectsPayload(p: Primitives, bs: seq<BlockRow>, es: seq<EntryRow>,
                                                 k: nat, forged: string)
    requires forall x, y :: p.sha256Hex(x) == p.sha256Hex(y) ==> x == y
    requires Chained(p, bs, es)
    requires k < |es| && forged != es[k].entryPayload
    ensures !Chained(p, bs, es[k := es[k].(entryPayload := forged)])
    decreases |bs|
  {
    var es' := es[k := es[k].(entryPayload := forged)];
    var n := |bs| - 1;
    var m := |es| - bs[n].entriesCount;
    if k < m {
      assert es'[..m] == es[..m][k := es[k].(entryPayload := forged)];
      ChainedDetectsPayload(p, bs[..n], es[..m], k, forged);
    } else {
      assert es[m..][k - m] == es[k];
      assert es'[m..][k - m] == es'[k];
    }
  }

  /**
   * Tamper evidence: if SHA-256 has no collisions, rewriting one stored
   * entry_payload (and nothing else) leaves a ledger that is not well formed.
   */
  lemma PayloadTamperDetected(p: Primitives, key: string, bs: seq<BlockRow>, es: seq<EntryRow>, stamps: seq<int>,
                              k: nat, forged: string)
    requires forall x, y :: p.sha256Hex(x) == p.sha256Hex(y) ==> x == y
    requires WellFormed(p, key, bs, es, stamps)
    requires k < |es| && forged != es[k].entryPayload
    ensures !WellFormed(p, key, bs, es[k := es[k].(entryPayload := forged)], stamps)
  {
    ChainedDetectsPayload(p, bs, es, k, forged);
  }

  /**
   * Rewriting one stored hmac_chain value (and nothing else) breaks the HMAC
   * chain at that row, whatever the HMAC function.
   */
  lemma HmacTamperDetected(p: Primitives, key: string, bs: seq<BlockRow>, es: seq<EntryRow>, stamps: seq<int>,
                           k: nat, forged: string)
    requires WellFormed(p, key, bs, es, stamps)
    requires k < |es| && forged != es[k].hmacChain
    ensures !WellFormed(p, key, bs, es[k := es[k].(hmacChain := forged)], stamps)
  {
    var es' := es[k := es[k].(hmacChain := forged)];
    assert ThreadedAt(p, key, es, k, GenesisHash);
    assert LinkBefore(es', k, GenesisHash) == LinkBefore(es, k, GenesisHash);
    assert !ThreadedAt(p, key, es', k, GenesisHash);
  }

  // ---------------------------------------------------------------------
  // The exact bytes hashed for a block header.

  /** Lower-case letters and underscores only: nothing stable_json escapes. */
  predicate Identifier(s: string)
  {
    forall i :: 0 <= i < |s| ==> s[i] == '_' || 'a' <= s[i] <= 'z'
  }

  lemma HeaderKeysAreIdentifiers()
    ensures Identifier("block_index") && Identifier("prev_block_hash") && Identifier("merkle_root")
    ensures Identifier("entries_count") && Identifier("timestamp")
  {
  }

  lemma HeaderKeyPrefixes()
    ensures "\"" + "block_index" + "\":" == "\"block_index\":"
    ensures "\"" + "prev_block_hash" + "\":" == "\"prev_block_hash\":"
    ensures "\"" + "merkle_root" + "\":" == "\"merkle_root\":"
    ensures "\"" + "entries_count" + "\":" == "\"entries_count\":"
    ensures "\"" + "timestamp" + "\":" == "\"timestamp\":"
  {
  }

  lemma {:induction false} EscapeIdentifier(s: string)
    requires Identifier(s)
    ensures Escape(s) == s
    decreases |s|
  {
    if s != [] {
      EscapeIdentifier(s[1..]);
    }
  }

  /** The five header keys, in the order sort_keys puts them, are strictly increasing. */
  lemma HeaderKeysSorted(a: Pair, d: Pair, c: Pair, b: Pair, e: Pair)
    requires a.0 == "block_index" && d.0 == "entries_count" && c.0 == "merkle_root"
    requires b.0 == "prev_block_hash" && e.0 == "timestamp"
    ensures StrictlySorted([a, d, c, b, e])
  {
    var s := [a, d, c, b, e];
    forall i, j | 0 <= i < j < |s| ensures KeyLess(s[i].0, s[j].0) {
      // The five keys already differ in their first letters: b < e < m < p < t.
      assert s[i].0[0] < s[j].0[0];
    }
  }

  /** The header's members in insertion order, each value encoded. */
  lemma HeaderPairs(index: int, prev: string, root: string, count: nat, timestamp: int)
    ensures Pairs(Header(index, prev, root, count, timestamp).members) ==
      [("block_index", IntText(index)), ("prev_block_hash", Quote(prev)), ("merkle_root", Quote(root)),
       ("entries_count", IntText(count)), ("timestamp", IntText(timestamp))]
  {
  }

  lemma IdentifierMemberText(k: string, v: string)
    requires Identifier(k)
    ensures MemberText((k, v)) == "\"" + k + "\":" + v
  {
    EscapeIdentifier(k);
  }

  lemma MemberTextsOfFive(a: Pair, b: Pair, c: Pair, d: Pair, e: Pair)
    ensures MemberTexts([a, b, c, d, e]) == [MemberText(a), MemberText(b), MemberText(c), MemberText(d), MemberText(e)]
  {
  }

  /** The header's encoded members in the order sort_keys puts them. */
  function SortedHeaderPairs(index: int, prev: string, root: string, count: nat, timestamp: int): seq<Pair>
  {
    [("block_index", IntText(index)), ("entries_count", IntText(count)), ("merkle_root", Quote(root)),
     ("prev_block_hash", Quote(prev)), ("timestamp", IntText(timestamp))]
  }

  /** The header is a dict: its five keys are distinct. */
  lemma HeaderUniqueKeys(index: int, prev: string, root: string, count: nat, timestamp: int)
    ensures UniqueKeys(Header(index, prev, root, count, timestamp).members)
  {
    var ms := Header(index, prev, root, count, timestamp).members;
    forall i, j | 0 <= i < j < |ms| ensures ms[i].key != ms[j].key {
      assert ms[i].key[0] != ms[j].key[0];
    }
  }

  /** SortedHeaderPairs is a key-ordered list of exactly the header's encoded members. */
  lemma HeaderArrangement(index: int, prev: string, root: string, count: nat, timestamp: int)
    ensures var sorted := SortedHeaderPairs(index, prev, root, count, timestamp);
      StrictlySorted(sorted) && forall x :: x in sorted <==> x in Pairs(Header(index, prev, root, count, timestamp).members)
  {
    var a: Pair, b: Pair, c: Pair := ("block_index", IntText(index)), ("prev_block_hash", Quote(prev)), ("merkle_root", Quote(root));
    var d: Pair, e: Pair := ("entries_count", IntText(count)), ("timestamp", IntText(timestamp));
    HeaderPairs(index, prev, root, count, timestamp);
    HeaderKeysSorted(a, d, c, b, e);
  }

  /** The member texts of the header in key order, each key quoted as is. */
  lemma HeaderMemberTexts(index: int, prev: string, root: string, count: nat, timestamp: int)
    ensures MemberTexts(SortedHeaderPairs(index, prev, root, count, timestamp)) == [
      "\"block_index\":" + IntText(index),
      "\"entries_count\":" + IntText(count),
      "\"merkle_root\":" + Quote(root),
      "\"prev_block_hash\":" + Quote(prev),
      "\"timestamp\":" + IntText(timestamp)]
  {
    var a, b, c := ("block_index", IntText(index)), ("prev_block_hash", Quote(prev)), ("merkle_root", Quote(root));
    var d, e := ("entries_count", IntText(count)), ("timestamp", IntText(timestamp));
    HeaderKeyPrefixes();
    HeaderKeysAreIdentifiers();
    IdentifierMemberText(a.0, a.1);
    IdentifierMemberText(b.0, b.1);
    IdentifierMemberText(c.0, c.1);
    IdentifierMemberText(d.0, d.1);
    IdentifierMemberText(e.0, e.1);
    MemberTextsOfFive(a, d, c, b, e);
  }

  /**
   * The exact text hashed for a block header: the five members in code-point
   * key order, "," between members and ":" after each key, no whitespace.
   */
  lemma HeaderText(index: int, prev: string, root: string, count: nat, timestamp: int)
    ensures Encode(Header(index, prev, root, count, timestamp)) == "{" + Join([
      "\"block_index\":" + IntText(index),
      "\"entries_count\":" + IntText(count),
      "\"merkle_root\":" + Quote(root),
      "\"prev_block_hash\":" + Quote(prev),
      "\"timestamp\":" + IntText(timestamp)]) + "}"
  {
    HeaderUniqueKeys(index, prev, root, count, timestamp);
    HeaderArrangement(index, prev, root, count, timestamp);
    EncodeObjectSorted(Header(index, prev, root, count, timestamp).members, SortedHeaderPairs(index, prev, root, count, timestamp));
    HeaderMemberTexts(index, prev, root, count, timestamp);
  }

  /**
   * On linked blocks, the highest block_index and its hash (what
   * get_last_block reports) are the newest block's: the new block gets the
   * next position and links to the tip.
   */
  lemma LastOfLinked(bs: seq<BlockRow>, lastIndex: int, lastHash: string)
    requires Linked(bs)
    requires bs == [] ==> lastIndex == -1 && lastHash == GenesisHash
    requires bs != [] ==> exists i :: 0 <= i < |bs| && bs[i].blockIndex == lastIndex && bs[i].blockHash == lastHash
    requires forall i :: 0 <= i < |bs| ==> bs[i].blockIndex <= lastIndex
    ensures lastIndex + 1 == |bs| && lastHash == TipHash(bs)
  {
    if bs != [] {
      var i :| 0 <= i < |bs| && bs[i].blockIndex == lastIndex && bs[i].blockHash == lastHash;
      assert LinkedAt(bs, i) && LinkedAt(bs, |bs| - 1);
    }
  }

  /** The first loop of append_block: the SHA-256 of each payload's canonical JSON, in input order. */
  method HashEntries(p: Primitives, batch: seq<NewEntry>) returns (hashes: seq<string>)
    ensures hashes == EntryHashes(p, batch)
  {
    hashes := [];
    var i := 0;
    while i < |batch|
      invariant 0 <= i <= |batch|
      invariant hashes == EntryHashes(p, batch[..i])
    {
      assert batch[..i + 1] == batch[..i] + [batch[i]];
      hashes := hashes + [EntryHash(p, batch[i].payload)];
      i := i + 1;
    }
    assert batch[..|batch|] == batch;
  }

  // ---------------------------------------------------------------------
  // The ledger: the two tables and the append operation.

  class Ledger {
    const prims: Primitives
    /** settings.ledger_hmac_key; empty when LEDGER_HMAC_KEY is not set. */
    const configuredKey: string
    var blocks: seq<BlockRow>
    var entries: seq<EntryRow>
    /** The header timestamp of each block (the source does not store it). */
    ghost var stamps: seq<int>

    ghost predicate Valid()
      reads this
    {
      WellFormed(prims, HmacKey(configuredKey), blocks, entries, stamps)
    }

    constructor (prims: Primitives, configuredKey: string)
      ensures Valid()
      ensures this.prims == prims && this.configuredKey == configuredKey
      ensures blocks == [] && entries == []
    {
      this.prims := prims;
      this.configuredKey := configuredKey;
      blocks, entries, stamps := [], [], [];
    }

    /**
     * get_last_block: the highest block_index and its block_hash, or
     * (-1, sentinel) on an empty ledger.
     */
    method GetLastBlock() returns (lastIndex: int, lastHash: string)
      ensures blocks == [] ==> lastIndex == -1 && lastHash == GenesisHash
      ensures blocks != [] ==> exists i :: 0 <= i < |blocks| && blocks[i].blockIndex == lastIndex && blocks[i].blockHash == lastHash
      ensures forall i :: 0 <= i < |blocks| ==> blocks[i].blockIndex <= lastIndex
    {
      if blocks == [] {
        return -1, GenesisHash;
      }
      lastIndex, lastHash := blocks[0].blockIndex, blocks[0].blockHash;
      ghost var at := 0;
      var k := 1;
      while k < |blocks|
        invariant 1 <= k <= |blocks|
        invariant 0 <= at < k && blocks[at].blockIndex == lastIndex && blocks[at].blockHash == lastHash
        invariant forall i :: 0 <= i < k ==> blocks[i].blockIndex <= lastIndex
      {
        if blocks[k].blockIndex > lastIndex {
          lastIndex, lastHash := blocks[k].blockIndex, blocks[k].blockHash;
          at := k;
        }
        k := k + 1;
      }
    }

    /** get_last_hmac: the link of the most recently inserted entry, whatever its block. */
    method GetLastHmac() returns (h: string)
      ensures entries == [] ==> h == GenesisHash
      ensures entries != [] ==> h == entries[|entries| - 1].hmacChain
    {
      if entries == [] {
        h := GenesisHash;
      } else {
        h := entries[|entries| - 1].hmacChain;
      }
    }

    /**
     * The HMAC-chain half of append_block: one entry row per entry of
     * `batch`, numbered from 1, the chain threaded on from the newest entry.
     * A step of AppendBlock, which alone keeps Valid(); on its own it may
     * leave the entry rows out of step with the blocks.
     */
    method InsertEntryRows(batch: seq<NewEntry>, hashes: seq<string>, blockIndex: int)
      requires hashes == EntryHashes(prims, batch)
      modifies this
      ensures blocks == old(blocks) && stamps == old(stamps)
      ensures entries == old(entries) + ChainRows(prims, HmacKey(configuredKey), blockIndex, batch, LastHmac(old(entries)))
    {
      var prevHmac := GetLastHmac();
      var key := HmacKey(configuredKey);
      ghost var rows := ChainRows(prims, key, blockIndex, batch, LastHmac(old(entries)));
      var idx := 0;
      while idx < |batch|
        invariant 0 <= idx <= |batch|
        invariant blocks == old(blocks) && stamps == old(stamps)
        invariant entries == old(entries) + rows[..idx]
        invariant prevHmac == LinkBefore(rows, idx, LastHmac(old(entries)))
      {
        var hm := prims.hmacSha256Hex(key, hashes[idx] + prevHmac);
        ChainRowsGrow(prims, key, blockIndex, batch, LastHmac(old(entries)), idx, old(entries), entries, prevHmac);
        InsertEntryRow(EntryRow(blockIndex, idx + 1, TxRefText(batch[idx].txReference), Encode(batch[idx].payload), hashes[idx], hm));
        prevHmac := hm;
        idx := idx + 1;
      }
      assert rows[..|batch|] == rows;
    }

    /**
     * One INSERT into chain_entries: the row goes after every row already
     * there. A step of InsertEntryRows; Valid() is left to AppendBlock.
     */
    method InsertEntryRow(row: EntryRow)
      modifies this
      ensures entries == old(entries) + [row]
      ensures blocks == old(blocks) && stamps == old(stamps)
    {
      entries := entries + [row];
    }

    /**
     * append_block: seals `batch` into a new block on top of the newest one,
     * inserts the block row, then one entry row per entry, threading the
     * HMAC chain on from the newest entry of the whole ledger.
     */
    method AppendBlock(batch: seq<NewEntry>, timestamp: int) returns (receipt: Receipt)
      requires Valid()
      modifies this
      ensures Valid()
      ensures stamps == old(stamps) + [timestamp]
      ensures blocks == old(blocks) + [SealBlock(prims, |old(blocks)|, TipHash(old(blocks)), batch, timestamp)]
      ensures entries == old(entries) + ChainRows(prims, HmacKey(configuredKey), |old(blocks)|, batch, LastHmac(old(entries)))
      ensures receipt == Receipt(|old(blocks)|, blocks[|old(blocks)|].blockHash, blocks[|old(blocks)|].merkleRoot)
    {
      var lastIndex, prevHash := GetLastBlock();
      LastOfLinked(blocks, lastIndex, prevHash);
      var blockIndex := lastIndex + 1;

      var hashes := HashEntries(prims, batch);
      var merkleRoot := MerkleRoot(prims, hashes);
      var blockHash := BlockHash(prims, blockIndex, prevHash, merkleRoot, |batch|, timestamp);

      blocks := blocks + [BlockRow(blockIndex, prevHash, blockHash, merkleRoot, |batch|)];
      stamps := stamps + [timestamp];

      var key := HmacKey(configuredKey);
      InsertEntryRows(batch, hashes, blockIndex);
      assert entries == old(entries) + ChainRows(prims, key, |old(blocks)|, batch, LastHmac(old(entries)));
      AppendKeepsWellFormed(prims, key, old(blocks), old(entries), old(stamps), batch, timestamp);
      assert WellFormed(prims, key, blocks, entries, stamps);
      receipt := Receipt(blockIndex, blockHash, merkleRoot);
    }
  }

  /**
   * Two fraud decisions appended one after the other to an empty ledger:
   * the first opens the chain at the sentinel, the second links to it.
   */
  method TwoDecisionsScenario(p: Primitives, configuredKey: string, t1: int, t2: int)
    returns (first: Receipt, second: Receipt, firstPrev: string, secondPrev: string)
    ensures first.blockIndex == 0 && firstPrev == GenesisHash
    ensures second.blockIndex == 1 && secondPrev == first.blockHash
  {
    var ledger := new Ledger(p, configuredKey);
    first := ledger.AppendBlock([NewEntry(TextRef("T1"), Object([Member("amount", Int(100))]))], t1);
    firstPrev := ledger.blocks[0].prevBlockHash;
    second := ledger.AppendBlock([NewEntry(TextRef("T2"), Object([Member("amount", Int(200))]))], t2);
    secondPrev := ledger.blocks[1].prevBlockHash;
  }
}
