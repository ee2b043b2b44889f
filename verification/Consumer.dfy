/** The consumer side of the reorg protocol: events roll the cached blocks back and write new ones. */
module Consumer {
  import opened Base
  import opened UndoLog
  import opened UndoExact
  import opened ReorgStore

  /** An event with the data its block comes to; `tip` is at least the cache length in the source's
      unsigned subtraction. */
  datatype BlockEvent = BlockEvent(height: nat, tip: nat, reorgLen: nat, data: seq<ProcessedData>)
  {
    predicate Cached()
      requires REORG_CACHE_MAX_LEN <= tip
    {
      height > tip - REORG_CACHE_MAX_LEN
    }
  }

  /** What the consumer holds between events. */
  datatype Node = Node(rows: Rows, blocks: Blocks, prevHeight: Option<nat>)

  function RestoreHeight(prevHeight: Option<nat>, reorgLen: nat): nat
  {
    var prev := if prevHeight.Some? then prevHeight.value else 0;
    if reorgLen <= prev then prev - reorgLen else 0
  }

  /** After the cache is cleared or kept and the reorg, if any, restored. */
  ghost function Rolled(n: Node, e: BlockEvent): (Rows, Blocks)
    requires REORG_CACHE_MAX_LEN <= e.tip
  {
    var blocks := if e.Cached() then n.blocks else map[];
    if e.reorgLen > 0 then Popped(n.rows, blocks, RestoreHeight(n.prevHeight, e.reorgLen)) else (n.rows, blocks)
  }

  /** The contiguity check; an empty cache passes it. */
  ghost predicate Follows(blocks: Blocks, height: nat)
  {
    blocks != map[] ==> Last(blocks.Keys) + 1 == height
  }

  ghost function Next(n: Node, e: BlockEvent): Option<Node>
    requires REORG_CACHE_MAX_LEN <= e.tip
  {
    var (rows, blocks) := Rolled(n, e);
    if !Follows(blocks, e.height) then None
    else
      Some(Node(WriteAll(rows, e.data),
                if e.Cached() then Opened(blocks, e.height)[e.height := LogOf(rows, e.data)] else blocks,
                Some(e.height)))
  }

  lemma NewIsLast(blocks: Blocks, height: nat)
    requires Follows(blocks, height)
    ensures height in Opened(blocks, height) && IsLast(Opened(blocks, height).Keys, height)
    ensures Opened(blocks, height)[height := HistoryBlock([], [])] == Opened(blocks, height)
  {
  }

  lemma OneMore(r: Rows, ds: seq<ProcessedData>, i: nat)
    requires i < |ds| && AllWritable(r, ds)
    ensures var at := WriteAll(r, ds[..i]);
            && WriteAll(r, ds[..i + 1]) == UndoLog.Write(at, ds[i]) && Writable(at, ds[i])
            && LogOf(r, ds[..i + 1]) == HistoryBlock(LogOf(r, ds[..i]).tokenHistory + TokenEntries(at.tokens, ds[i]),
                                                     LogOf(r, ds[..i]).ordinalsHistory + OrdinalEntries(at.ordinals, ds[i]))
  {
    assert ds[..i + 1][..i] == ds[..i];
  }

  lemma LogExtends(start: Blocks, height: nat, log: HistoryBlock, ts: seq<TokenHistoryEntry>, os: seq<OrdinalsEntry>)
    requires IsLast(start.Keys, height)
    ensures start[height := log] != map[]
    ensures Logged(start[height := log], ts, os) == start[height := HistoryBlock(log.tokenHistory + ts, log.ordinalsHistory + os)]
  {
    assert start[height := log].Keys == start.Keys;
    assert height in start[height := log];
    assert Last(start[height := log].Keys) == height;
  }
}
