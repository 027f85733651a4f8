/** LocalPool of the resource pool, in place: its array of free ids, its current block, and the chunks that
    it exchanges with the pool, while no other thread interferes. */
module PoolHeap {
  import opened Wrappers
  import opened PoolAddress

  type Id = nat

  /** ResourcePool: `_free_chunks`, and the index of the next block that add_block hands out. */
  class SharedPool {
    var chunks: seq<seq<Id>>
    var nblock: nat
    const maxBlocks: nat

    constructor (maxBlocks: nat)
      ensures chunks == [] && nblock == 0 && this.maxBlocks == maxBlocks
    {
      this.maxBlocks := maxBlocks;
      chunks, nblock := [], 0;
    }

    /** The vector's last chunk. */
    method PopChunk() returns (c: Option<seq<Id>>)
      modifies this`chunks
      ensures c == (if old(chunks) == [] then None else Some(old(chunks)[|old(chunks)| - 1]))
      ensures chunks == (if c.None? then [] else old(chunks)[..|old(chunks)| - 1])
    {
      if chunks == [] {
        return None;
      }
      c := Some(chunks[|chunks| - 1]);
      chunks := chunks[..|chunks| - 1];
    }

    method PushChunk(c: seq<Id>, memory: bool) returns (ok: bool)
      modifies this`chunks
      ensures ok == memory && chunks == (if ok then old(chunks) + [c] else old(chunks))
    {
      if memory {
        chunks := chunks + [c];
      }
      return memory;
    }

    method AddBlock() returns (index: Option<nat>)
      modifies this`nblock
      ensures index == (if old(nblock) < maxBlocks then Some(old(nblock)) else None)
      ensures nblock == old(nblock) + (if index.Some? then 1 else 0)
    {
      if nblock < maxBlocks {
        index := Some(nblock);
        nblock := nblock + 1;
      } else {
        index := None;
      }
    }
  }

  class LocalPool {
    const pool: SharedPool
    const ids: array<Id>
    const blockNitem: nat
    var nfree: nat
    var block: Option<nat>
    var nitem: nat

    ghost predicate Valid()
      reads this, pool
    {
      && nfree <= ids.Length && blockNitem > 0 && ids.Length > 0
      && (block.Some? ==> nitem <= blockNitem && block.value < pool.nblock)
      && (forall k :: 0 <= k < |pool.chunks| ==> |pool.chunks[k]| == ids.Length)
    }

    /** The free ids, oldest first. */
    ghost function Free(): seq<Id>
      requires nfree <= ids.Length
      reads this, ids
    {
      ids[..nfree]
    }

    constructor (pool: SharedPool, chunkNitem: nat, blockNitem: nat)
      requires chunkNitem > 0 && blockNitem > 0 && pool.chunks == []
      ensures Valid() && Free() == [] && this.pool == pool && block == None && fresh(ids) && ids.Length == chunkNitem
    {
      this.pool := pool;
      ids := new Id[chunkNitem];
      this.blockNitem := blockNitem;
      nfree, block, nitem := 0, None, 0;
    }

    /** BAIDU_RESOURCE_POOL_GET: a free id of this thread, else of a chunk, else a new item of the current
        block, else the first item of a new block; NULL when there is none or the object is not valid. */
    method Get(valid: bool) returns (id: Option<Id>)
      requires Valid()
      modifies this`nfree, this`block, this`nitem, ids, pool
      ensures Valid()
      ensures old(nfree) > 0 ==> id == Some(old(Free())[old(nfree) - 1]) && Free() == old(Free())[..old(nfree) - 1]
      ensures old(nfree) > 0 || old(pool.chunks) == [] ==> pool.chunks == old(pool.chunks)
      ensures old(nfree) == 0 && old(pool.chunks) != [] ==>
        var c := old(pool.chunks)[|old(pool.chunks)| - 1];
        id == Some(c[|c| - 1]) && Free() == c[..|c| - 1] && pool.chunks == old(pool.chunks)[..|old(pool.chunks)| - 1]
      ensures old(nfree) > 0 || old(pool.chunks) != [] ==>
                block == old(block) && nitem == old(nitem) && pool.nblock == old(pool.nblock)
      ensures old(nfree) == 0 && old(pool.chunks) == [] ==>
        && Free() == [] && (id.Some? <==> valid && block.Some?)
        && (id.Some? ==> nitem > 0 && id.value == IdOf(block.value, nitem - 1, blockNitem))
        && if old(block.Some? && nitem < blockNitem)
           then block == old(block) && pool.nblock == old(pool.nblock) && nitem == old(nitem) + (if valid then 1 else 0)
           else if old(pool.nblock) < pool.maxBlocks
           then
             && block == Some(old(pool.nblock)) && pool.nblock == old(pool.nblock) + 1
             && nitem == (if valid then 1 else 0)
           else block == None && pool.nblock == old(pool.nblock)
    {
      if nfree > 0 {
        nfree := nfree - 1;
        return Some(ids[nfree]);
      }
      var c := pool.PopChunk();
      if c.Some? {
        forall k | 0 <= k < ids.Length {
          ids[k] := c.value[k];
        }
        nfree := ids.Length - 1;
        assert ids[..] == c.value;
        return Some(ids[nfree]);
      }
      if block.None? || nitem >= blockNitem {
        block := pool.AddBlock();
        nitem := 0;
        if block.None? {
          return None;
        }
      }
      if !valid {
        return None;
      }
      id := Some(IdOf(block.value, nitem, blockNitem));
      nitem := nitem + 1;
    }

    /** return_resource; -1 when a full list cannot be handed to the pool. */
    method Return(id: Id, memory: bool) returns (rc: int)
      requires Valid()
      modifies this`nfree, ids, pool`chunks
      ensures Valid() && rc == (if old(nfree) < ids.Length || memory then 0 else -1)
      ensures old(nfree) < ids.Length ==> Free() == old(Free()) + [id] && pool.chunks == old(pool.chunks)
      ensures old(nfree) == ids.Length && memory ==> Free() == [id] && pool.chunks == old(pool.chunks) + [old(Free())]
      ensures rc != 0 ==> Free() == old(Free()) && pool.chunks == old(pool.chunks)
    {
      if nfree < ids.Length {
        ids[nfree] := id;
        nfree := nfree + 1;
        return 0;
      }
      var ok := pool.PushChunk(ids[..nfree], memory);
      if ok {
        nfree := 1;
        ids[0] := id;
        return 0;
      }
      return -1;
    }
  }
}
