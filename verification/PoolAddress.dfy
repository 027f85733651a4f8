/** From a resource id to the place of the object: unsafe_address_resource. */
module PoolAddress {
  import opened Arithmetic
  import opened Bits

  /** `_block_groups[group]->blocks[slot]->items[item]`. */
  datatype Address = Address(group: nat, slot: nat, item: nat)

  /** `nbit` is RP_GROUP_NBLOCK_NBIT, `nitem` is BLOCK_NITEM. */
  function AddressOf(id: nat, nitem: nat, nbit: nat): Address
    requires nitem > 0
  {
    var blockIndex := id / nitem;
    ItemOf(id, nitem);
    Address(ShiftRight(blockIndex, nbit), LowBits(blockIndex, nbit), id - blockIndex * nitem)
  }

  /** The id of item `item` in the block with index `blockIndex`, as get_resource computes it. */
  function IdOf(blockIndex: nat, item: nat, nitem: nat): nat {
    blockIndex * nitem + item
  }

  /** The address of an id that get_resource made is that of the item it was made for... */
  lemma AddressInverts(group: nat, slot: nat, item: nat, nitem: nat, nbit: nat)
    requires slot < Pow2(nbit) && item < nitem
    ensures AddressOf(IdOf(group * Pow2(nbit) + slot, item, nitem), nitem, nbit) == Address(group, slot, item)
  {
    var blockIndex := group * Pow2(nbit) + slot;
    SplitIndex(nitem, blockIndex, item);
    ShiftAndMask(blockIndex, nbit);
    SplitIndex(Pow2(nbit), group, slot);
    SplitIndex(Pow2(nbit), ShiftRight(blockIndex, nbit), LowBits(blockIndex, nbit));
  }

  lemma ItemOf(id: nat, nitem: nat)
    requires nitem > 0
    ensures 0 <= id - id / nitem * nitem < nitem
  {
    assert id == id / nitem * nitem + id % nitem;
  }

  /** ...every id is that of its address... */
  lemma AddressDetermines(id: nat, nitem: nat, nbit: nat)
    requires nitem > 0
    ensures var a := AddressOf(id, nitem, nbit);
            a.slot < Pow2(nbit) && a.item < nitem && id == IdOf(a.group * Pow2(nbit) + a.slot, a.item, nitem)
  {
    ItemOf(id, nitem);
    ShiftAndMask(id / nitem, nbit);
  }

  /** ...so two ids never share one. */
  lemma AddressInjective(a: nat, b: nat, nitem: nat, nbit: nat)
    requires nitem > 0 && AddressOf(a, nitem, nbit) == AddressOf(b, nitem, nbit)
    ensures a == b
  {
    AddressDetermines(a, nitem, nbit);
    AddressDetermines(b, nitem, nbit);
  }
}
