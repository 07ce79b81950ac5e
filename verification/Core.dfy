/** Requests, and the rows that a live request owns. */
module Core {
  import RadixCache
  import World

  /** A page table or a token pool: one row a request slot. */
  type Table = array<seq<int>>

  datatype Batch = Batch(reqs: seq<Req>, isPrefill: bool)

  /** One sampled token sent to the client. */
  datatype Reply = Reply(uid: int, nextToken: int, finished: bool)

  class Req {
    var inputIds: seq<int>
    const tableIdx: nat
    var cachedLen: nat
    var deviceLen: nat
    const maxDeviceLen: nat
    const uid: int
    const ignoreEos: bool
    const chunked: bool  // a chunk of a prompt that is not the last: never sampled, never decoded
    var cacheHandle: RadixCache.RadixCacheHandle
    ghost const prompt: seq<int> // the whole prompt
    ghost const promptLen: nat   // its length
    ghost const goal: nat        // prompt length plus output length
    ghost var tok: seq<int>      // the tokens of its row: the prompt so far and what was sampled
    ghost var alloc: nat         // positions of its row backed by pages
    ghost var cuts: seq<nat>     // where its forward passes began, and where the last one ended
    ghost var shares: bool       // its row names the slots at which the tree keeps its locked prefix
    ghost var replies: seq<Reply>

    constructor (inputIds: seq<int>, tableIdx: nat, cachedLen: nat, outputLen: nat, uid: int, ignoreEos: bool,
                 cacheHandle: RadixCache.RadixCacheHandle, chunked: bool, ghost prompt: seq<int>, ghost alloc: nat, ghost cuts: seq<nat>, ghost shares: bool)
      requires cachedLen < |inputIds|
      ensures this.inputIds == inputIds == tok && this.tableIdx == tableIdx && this.cachedLen == cachedLen
      ensures deviceLen == |inputIds| && maxDeviceLen == |inputIds| + outputLen && this.uid == uid
      ensures this.ignoreEos == ignoreEos && this.cacheHandle == cacheHandle && this.chunked == chunked
      ensures this.prompt == prompt && promptLen == |prompt| && goal == promptLen + outputLen
      ensures this.alloc == alloc && this.cuts == cuts && this.shares == shares && replies == []
    {
      this.inputIds, this.tableIdx, this.cachedLen, this.uid := inputIds, tableIdx, cachedLen, uid;
      this.ignoreEos, this.cacheHandle, this.chunked := ignoreEos, cacheHandle, chunked;
      deviceLen, maxDeviceLen := |inputIds|, |inputIds| + outputLen;
      this.prompt, promptLen, goal := prompt, |prompt|, |prompt| + outputLen;
      tok, this.alloc, this.cuts, this.shares, replies := inputIds, alloc, cuts, shares, [];
    }

    function RemainLen(): int
      reads this`deviceLen
    {
      maxDeviceLen - deviceLen
    }

    function ExtendLen(): int
      reads this`deviceLen, this`cachedLen
    {
      deviceLen - cachedLen
    }

    predicate CanDecode()
      reads this`deviceLen
    {
      !chunked && RemainLen() > 0
    }

    method CompleteOne()
      modifies this`cachedLen, this`deviceLen
      ensures cachedLen == old(deviceLen) && deviceLen == old(deviceLen) + 1
    {
      cachedLen := deviceLen;
      deviceLen := deviceLen + 1;
    }

    method AppendHost(nextToken: int)
      requires !chunked
      modifies this`inputIds
      ensures inputIds == old(inputIds) + [nextToken]
    {
      inputIds := inputIds + [nextToken];
    }
  }

  ghost function HoldingOf(r: Req, table: Table): World.Holding
    requires r.tableIdx < table.Length
    reads r`tok, r`cacheHandle, r`cachedLen, r`alloc, table
  {
    World.Holding(r.tok, table[r.tableIdx], r.cacheHandle.cachedLen, r.cachedLen, r.alloc, r.goal)
  }

  ghost predicate Seated(live: set<Req>, table: Table)
  {
    && (forall r :: r in live ==> r.tableIdx < table.Length)
    && (forall r, q :: r in live && q in live && r != q ==> r.tableIdx != q.tableIdx)
  }

  ghost function Holdings(live: set<Req>, table: Table): map<Req, World.Holding>
    requires Seated(live, table)
    reads live`tok, live`cacheHandle, live`cachedLen, live`alloc, table
  {
    map r | r in live :: HoldingOf(r, table)
  }
}
