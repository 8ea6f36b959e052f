/**
 The profit split of one producer as an object that updates its fields in place. Every method is
 proved to compute the transaction of the same name in module Share, reverts included.
 */
module ShareContract {
  import opened Prelude
  import opened Share
  import M = Share

  /** A failure at one entry fails the whole list. */
  lemma {:induction false} SetFails(t: Table, addrs: seq<Address>, ratios: seq<nat>, i: nat, n: nat)
    requires i <= n <= |addrs| == |ratios| && SetFirst(t, addrs, ratios, i).None?
    ensures SetFirst(t, addrs, ratios, n).None?
  {
    if i < n { SetFails(t, addrs, ratios, i, n - 1); }
  }

  class ProducerShare {
    const owner: Address
    var holders: map<Address, Holder>
    var holderAddresses: seq<Address>
    var totalHolders: nat
    var totalShared: nat

    function View(): Table reads this { Table(owner, holders, holderAddresses, totalHolders, totalShared) }

    constructor (producer: Address)
      ensures Fresh(View()) && owner == producer
    {
      owner, holders, holderAddresses, totalHolders, totalShared := producer, map[], [], 0, 0;
    }

    method SetHolders(sender: Account, addrs: seq<Address>, ratios: seq<nat>) returns (ok: bool)
      modifies this
      ensures var r := M.SetHolders(old(View()), sender, addrs, ratios);
        ok == r.Some? && View() == if ok then r.value else old(View())
    {
      hide M.SetHolder;
      if owner != sender || |addrs| != |ratios| { return false; }
      ghost var before := View();
      var oldHolders, oldAddresses, oldTotal, oldShared := holders, holderAddresses, totalHolders, totalShared;
      for i := 0 to |addrs|
        invariant SetFirst(before, addrs, ratios, i) == Some(View())
      {
        ok := SetHolder(addrs[i], ratios[i]);
        if !ok {
          SetFails(before, addrs, ratios, i + 1, |addrs|);
          holders, holderAddresses, totalHolders, totalShared := oldHolders, oldAddresses, oldTotal, oldShared;
          return false;
        }
      }
      return true;
    }

    method SetHolder(a: Address, ratio: nat) returns (ok: bool)
      modifies this
      ensures var r := M.SetHolder(old(View()), a, ratio);
        ok == r.Some? && View() == if ok then r.value else old(View())
    {
      if a == owner || ratio > MAX_PIECES { return false; }
      var h := HolderOf(holders, a);
      if totalShared + ratio < h.ratio { return false; }
      var th, ts := totalHolders, totalShared + ratio - h.ratio;
      if (!h.flag && th + 1 > MAX_HOLDERS) || ts > MAX_PIECES { return false; }
      if !h.flag {
        th := th + 1;
        h := h.(index := |holderAddresses|);
        holderAddresses := holderAddresses + [a];
      }
      h := h.(ratio := ratio);
      h := h.(flag := true);
      holders := holders[a := h];
      totalHolders, totalShared := th, ts;
      return true;
    }

    method SplitHolder(sender: Account, receiver: Address, ratio: nat) returns (ok: bool)
      modifies this
      ensures var r := M.SplitHolder(old(View()), sender, receiver, ratio);
        ok == r.Some? && View() == if ok then r.value else old(View())
    {
      if receiver == 0 || ratio > MAX_PIECES { return false; }
      var giver := HolderOf(holders, sender);
      if !giver.flag || giver.ratio < ratio { return false; }
      giver := giver.(ratio := giver.ratio - ratio);
      var taker := HolderOf(holders, receiver);
      taker := taker.(ratio := taker.ratio + ratio);
      if !taker.flag {
        if totalHolders + 1 > MAX_HOLDERS { return false; }
        taker := taker.(flag := true);
        totalHolders := totalHolders + 1;
        taker := taker.(index := |holderAddresses|);
        holderAddresses := holderAddresses + [receiver];
      }
      holders := holders[sender := giver];
      holders := holders[receiver := taker];
      return true;
    }

    method DeleteHolder(sender: Account, a: Address) returns (ok: bool)
      modifies this
      ensures var r := M.DeleteHolder(old(View()), sender, a);
        ok == r.Some? && View() == if ok then r.value else old(View())
    {
      var h := HolderOf(holders, a);
      if owner != sender || !h.flag || h.ratio != 0 || holderAddresses == [] || totalHolders == 0 { return false; }
      var last := |holderAddresses| - 1;
      if |holderAddresses| > 1 {
        if h.index > last { return false; }
        holderAddresses := holderAddresses[h.index := holderAddresses[last]];
      }
      holderAddresses := holderAddresses[..last];
      holders := holders - {a};
      totalHolders := totalHolders - 1;
      return true;
    }

    /** Fills the two arrays in one pass, with a running sum of what is given away. */
    method CalculateRewards(total: nat) returns (ok: bool, accounts: array<Address>, amounts: array<nat>)
      ensures fresh(accounts) && fresh(amounts)
      ensures var r := Rewards(View(), total);
        ok == r.Some? && (ok ==> accounts[..] == r.value.0 && amounts[..] == r.value.1)
    {
      hide Cut;
      accounts, amounts := new Address[totalHolders + 1](_ => 0), new nat[totalHolders + 1](_ => 0);
      var shared: nat := 0;
      if totalHolders > |holderAddresses| { return false, accounts, amounts; }
      for i := 0 to totalHolders
        invariant shared == CutSum(View(), total, i)
        invariant forall j :: 0 <= j < i ==> accounts[j] == holderAddresses[j]
        invariant forall j :: 0 <= j < i ==> amounts[j] == Cut(HolderOf(holders, holderAddresses[j]).ratio, total)
      {
        var account := holderAddresses[i];
        accounts[i] := account;
        var cut := Cut(HolderOf(holders, account).ratio, total);
        amounts[i] := cut;
        shared := shared + cut;
      }
      if shared > total { return false, accounts, amounts; }
      accounts[totalHolders], amounts[totalHolders] := owner, total - shared;
      return true, accounts, amounts;
    }
  }
}
