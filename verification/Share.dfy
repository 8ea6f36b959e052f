/** The profit split of one producer: who holds how many of the hundred pieces, and who gets what. */
module Share {
  import opened Prelude

  const MAX_HOLDERS: nat := 9
  const MAX_PIECES: nat := 100

  datatype Holder = Holder(index: nat, ratio: nat, flag: bool)

  /** The producer owns the pieces that are not shared. */
  datatype Table = Table(
    owner: Address,
    holders: map<Address, Holder>,
    list: seq<Address>,
    totalHolders: nat,
    totalShared: nat)

  function HolderOf(holders: map<Address, Holder>, a: Address): Holder {
    if a in holders then holders[a] else Holder(0, 0, false)
  }

  function RatioIn(holders: map<Address, Holder>): Address -> nat { a => HolderOf(holders, a).ratio }

  // ---------- Transactions ----------

  function SetHolder(t: Table, a: Address, ratio: nat): Option<Table> {
    var h := HolderOf(t.holders, a);
    if a == t.owner || ratio > MAX_PIECES || t.totalShared + ratio < h.ratio then None
    else
      var shared := t.totalShared + ratio - h.ratio;
      if shared > MAX_PIECES || (!h.flag && t.totalHolders >= MAX_HOLDERS) then None
      else if h.flag then
        Some(t.(holders := t.holders[a := h.(ratio := ratio)], totalShared := shared))
      else
        Some(t.(
          holders := t.holders[a := Holder(|t.list|, ratio, true)],
          list := t.list + [a],
          totalHolders := t.totalHolders + 1,
          totalShared := shared))
  }

  /** The table after the first n entries of a list of holders. */
  function SetFirst(t: Table, addrs: seq<Address>, ratios: seq<nat>, n: nat): Option<Table>
    requires n <= |addrs| == |ratios|
  {
    if n == 0 then Some(t)
    else
      var before := SetFirst(t, addrs, ratios, n - 1);
      if before.None? then None else SetHolder(before.value, addrs[n - 1], ratios[n - 1])
  }

  function SetHolders(t: Table, sender: Account, addrs: seq<Address>, ratios: seq<nat>): Option<Table> {
    if t.owner != sender || |addrs| != |ratios| then None else SetFirst(t, addrs, ratios, |addrs|)
  }

  /** Both entries are read before either is written. */
  function SplitHolder(t: Table, sender: Account, receiver: Address, ratio: nat): Option<Table> {
    var giver, taker := HolderOf(t.holders, sender), HolderOf(t.holders, receiver);
    if receiver == 0 || ratio > MAX_PIECES || !giver.flag || giver.ratio < ratio then None
    else if !taker.flag && t.totalHolders >= MAX_HOLDERS then None
    else
      var given := t.holders[sender := giver.(ratio := giver.ratio - ratio)];
      if taker.flag then
        Some(t.(holders := given[receiver := taker.(ratio := taker.ratio + ratio)]))
      else
        Some(t.(
          holders := given[receiver := Holder(|t.list|, taker.ratio + ratio, true)],
          list := t.list + [receiver],
          totalHolders := t.totalHolders + 1))
  }

  /** The last holder moves into the free place of the list; its own entry is not told. */
  function DeleteHolder(t: Table, sender: Account, a: Address): Option<Table> {
    var h, last := HolderOf(t.holders, a), |t.list| - 1;
    if t.owner != sender || !h.flag || h.ratio != 0 || t.list == [] || t.totalHolders == 0 then None
    else if last > 0 && h.index > last then None
    else
      var moved := if last > 0 then t.list[h.index := t.list[last]] else t.list;
      Some(t.(holders := t.holders - {a}, list := moved[..last], totalHolders := t.totalHolders - 1))
  }

  // ---------- The invariant ----------

  /** The list names every holder once, and nobody else has pieces. */
  ghost predicate ListOk(t: Table) {
    && t.totalHolders == |t.list| <= MAX_HOLDERS
    && NoDuplicates(t.list)
    && (forall a: Address :: HolderOf(t.holders, a).flag <==> a in t.list)
    && (forall a: Address :: !HolderOf(t.holders, a).flag ==> HolderOf(t.holders, a).ratio == 0)
  }

  /** What owners and holders rely on: the right list, and a total that is the sum of its ratios. */
  ghost predicate TableOk(t: Table) {
    && ListOk(t)
    && t.totalShared == SumOf(t.list, RatioIn(t.holders)) <= MAX_PIECES
  }

  /** Every holder knows its place in the list. */
  ghost predicate IndicesOk(t: Table) {
    forall i :: 0 <= i < |t.list| ==> HolderOf(t.holders, t.list[i]).index == i
  }

  /** Rewriting the entry of one listed holder moves the sum of ratios by the difference. */
  lemma {:induction false} SumRewritten(list: seq<Address>, k: nat, f: Address -> nat, g: Address -> nat)
    requires k < |list|
    requires forall i :: 0 <= i < |list| && i != k ==> f(list[i]) == g(list[i])
    ensures SumOf(list, g) == SumOf(list, f) - f(list[k]) + g(list[k])
  {
    var last := |list| - 1;
    if k == last {
      SumAgrees(list[..last], f, g);
    } else {
      SumRewritten(list[..last], k, f, g);
    }
  }

  // ---------- Setting and splitting ----------

  /** The list stays right while no flag changes. */
  lemma ListStays(t: Table, t': Table)
    requires ListOk(t) && t'.list == t.list && t'.totalHolders == t.totalHolders
    requires forall b: Address :: HolderOf(t'.holders, b).flag == HolderOf(t.holders, b).flag
    requires forall b: Address :: !HolderOf(t.holders, b).flag ==> HolderOf(t'.holders, b).ratio == 0
    ensures ListOk(t')
  {
    hide HolderOf;
  }

  /** A new holder goes to the end of the list. */
  lemma ListGrows(t: Table, t': Table, a: Address)
    requires ListOk(t) && !HolderOf(t.holders, a).flag && |t.list| < MAX_HOLDERS
    requires t'.list == t.list + [a] && t'.totalHolders == t.totalHolders + 1
    requires HolderOf(t'.holders, a).flag
    requires forall b: Address :: b != a ==> HolderOf(t'.holders, b).flag == HolderOf(t.holders, b).flag
    requires forall b: Address :: b != a && !HolderOf(t.holders, b).flag ==> HolderOf(t'.holders, b).ratio == 0
    ensures ListOk(t')
  {
    hide HolderOf;
  }

  /** Changing one listed holder's entry moves the sum of ratios by the difference. */
  lemma RatioRewritten(t: Table, t': Table, a: Address)
    requires ListOk(t) && HolderOf(t.holders, a).flag && t'.list == t.list
    requires forall b: Address :: b != a ==> HolderOf(t'.holders, b).ratio == HolderOf(t.holders, b).ratio
    ensures SumOf(t'.list, RatioIn(t'.holders))
         == SumOf(t.list, RatioIn(t.holders)) - HolderOf(t.holders, a).ratio + HolderOf(t'.holders, a).ratio
  {
    var k :| 0 <= k < |t.list| && t.list[k] == a;
    hide HolderOf, SumOf;
    SumRewritten(t.list, k, RatioIn(t.holders), RatioIn(t'.holders));
  }

  /** The ratios of the others sum to the same whatever a new holder gets. */
  lemma RatioAdded(t: Table, t': Table, a: Address)
    requires ListOk(t) && !HolderOf(t.holders, a).flag && t'.list == t.list + [a]
    requires forall b: Address :: b != a ==> HolderOf(t'.holders, b).ratio == HolderOf(t.holders, b).ratio
    ensures SumOf(t'.list, RatioIn(t'.holders)) == SumOf(t.list, RatioIn(t.holders)) + HolderOf(t'.holders, a).ratio
  {
    SumAppend(t.list, a, RatioIn(t'.holders));
    assert a !in t.list;
    hide HolderOf, SumOf;
    SumAgrees(t.list, RatioIn(t.holders), RatioIn(t'.holders));
  }

  lemma SetHolderKeeps(t: Table, a: Address, ratio: nat)
    requires TableOk(t) && SetHolder(t, a, ratio).Some?
    ensures TableOk(SetHolder(t, a, ratio).value)
  {
    var t' := SetHolder(t, a, ratio).value;
    if HolderOf(t.holders, a).flag {
      ListStays(t, t');
      hide ListOk;
      RatioRewritten(t, t', a);
    } else {
      ListGrows(t, t', a);
      RatioAdded(t, t', a);
      hide ListOk;
    }
    hide SumOf;
  }

  lemma SetHolderPlaces(t: Table, a: Address, ratio: nat)
    requires ListOk(t) && IndicesOk(t) && SetHolder(t, a, ratio).Some?
    ensures IndicesOk(SetHolder(t, a, ratio).value)
  {
    assert forall i :: 0 <= i < |t.list| && t.list[i] == a ==> HolderOf(t.holders, a).index == i;
    assert a in t.list || !HolderOf(t.holders, a).flag;
  }

  lemma {:induction false} SetFirstKeeps(t: Table, addrs: seq<Address>, ratios: seq<nat>, n: nat)
    requires TableOk(t) && n <= |addrs| == |ratios| && SetFirst(t, addrs, ratios, n).Some?
    ensures TableOk(SetFirst(t, addrs, ratios, n).value)
    ensures IndicesOk(t) ==> IndicesOk(SetFirst(t, addrs, ratios, n).value)
  {
    hide ListOk, SumOf, SetHolder, IndicesOk;
    if n > 0 {
      var before := SetFirst(t, addrs, ratios, n - 1).value;
      SetFirstKeeps(t, addrs, ratios, n - 1);
      SetHolderKeeps(before, addrs[n - 1], ratios[n - 1]);
      if IndicesOk(t) {
        SetHolderPlaces(before, addrs[n - 1], ratios[n - 1]);
      }
    }
  }

  /** A table after the receiver of a split got its pieces. */
  function Received(t: Table, receiver: Address, ratio: nat): Table {
    var taker := HolderOf(t.holders, receiver);
    if taker.flag then t.(holders := t.holders[receiver := taker.(ratio := taker.ratio + ratio)])
    else t.(
        holders := t.holders[receiver := Holder(|t.list|, taker.ratio + ratio, true)],
        list := t.list + [receiver],
        totalHolders := t.totalHolders + 1)
  }

  lemma ReceivedKeeps(t: Table, receiver: Address, ratio: nat)
    requires ListOk(t) && t.totalShared == SumOf(t.list, RatioIn(t.holders)) + ratio <= MAX_PIECES
    requires HolderOf(t.holders, receiver).flag || t.totalHolders < MAX_HOLDERS
    ensures TableOk(Received(t, receiver, ratio))
    ensures IndicesOk(t) ==> IndicesOk(Received(t, receiver, ratio))
  {
    var t' := Received(t, receiver, ratio);
    if HolderOf(t.holders, receiver).flag {
      ListStays(t, t');
      RatioRewritten(t, t', receiver);
    } else {
      ListGrows(t, t', receiver);
      RatioAdded(t, t', receiver);
    }
    hide SumOf;
  }

  /** A table after the sender of a split gave its pieces away. */
  function Given(t: Table, sender: Account, ratio: nat): Table
    requires ratio <= HolderOf(t.holders, sender).ratio
  {
    var giver := HolderOf(t.holders, sender);
    t.(holders := t.holders[sender := giver.(ratio := giver.ratio - ratio)])
  }

  lemma GivenKeeps(t: Table, sender: Account, ratio: nat)
    requires TableOk(t) && HolderOf(t.holders, sender).flag && ratio <= HolderOf(t.holders, sender).ratio
    ensures ListOk(Given(t, sender, ratio))
    ensures t.totalShared == SumOf(t.list, RatioIn(Given(t, sender, ratio).holders)) + ratio
    ensures IndicesOk(t) ==> IndicesOk(Given(t, sender, ratio))
  {
    ListStays(t, Given(t, sender, ratio));
    hide SumOf;
    RatioRewritten(t, Given(t, sender, ratio), sender);
  }

  lemma SplitGivesAndReceives(t: Table, sender: Account, receiver: Address, ratio: nat)
    requires SplitHolder(t, sender, receiver, ratio).Some? && receiver != sender
    ensures SplitHolder(t, sender, receiver, ratio).value == Received(Given(t, sender, ratio), receiver, ratio)
    ensures HolderOf(Given(t, sender, ratio).holders, receiver) == HolderOf(t.holders, receiver)
  {}

  /** A split moves pieces from one holder to another: the total stays what it was. */
  lemma SplitKeeps(t: Table, sender: Account, receiver: Address, ratio: nat)
    requires TableOk(t) && SplitHolder(t, sender, receiver, ratio).Some? && receiver != sender
    ensures TableOk(SplitHolder(t, sender, receiver, ratio).value)
    ensures IndicesOk(t) ==> IndicesOk(SplitHolder(t, sender, receiver, ratio).value)
  {
    hide ListOk, SumOf, IndicesOk;
    GivenKeeps(t, sender, ratio);
    SplitGivesAndReceives(t, sender, receiver, ratio);
    ReceivedKeeps(Given(t, sender, ratio), receiver, ratio);
  }

  /** A split to oneself keeps the table exactly when it moves nothing: otherwise it creates pieces. */
  lemma SelfSplitKeepsIff(t: Table, sender: Account, ratio: nat)
    requires TableOk(t) && SplitHolder(t, sender, sender, ratio).Some?
    ensures var t' := SplitHolder(t, sender, sender, ratio).value;
      && SumOf(t'.list, RatioIn(t'.holders)) == t.totalShared + ratio
      && t'.totalShared == t.totalShared
      && (TableOk(t') <==> ratio == 0)
      && (IndicesOk(t) ==> IndicesOk(t'))
  {
    var t' := SplitHolder(t, sender, sender, ratio).value;
    ListStays(t, t');
    RatioRewritten(t, t', sender);
    hide SumOf;
  }

  // ---------- Deleting ----------

  /** The holder's index points at the holder, or does not matter. */
  predicate Placed(t: Table, a: Address) {
    var i := HolderOf(t.holders, a).index;
    |t.list| == 1 || (i < |t.list| && t.list[i] == a)
  }

  /**
   When a deletion works, and what it does to a right table, exactly: the list, the total and so all
   rewards stay right just when the index of the deleted holder points at that holder.
   */
  lemma DeleteKeepsIff(t: Table, sender: Account, a: Address)
    requires TableOk(t)
    ensures DeleteHolder(t, sender, a).Some? <==>
      && t.owner == sender && HolderOf(t.holders, a).flag && HolderOf(t.holders, a).ratio == 0
      && (|t.list| == 1 || HolderOf(t.holders, a).index < |t.list|)
    ensures DeleteHolder(t, sender, a).Some? ==> (TableOk(DeleteHolder(t, sender, a).value) <==> Placed(t, a))
  {
    if DeleteHolder(t, sender, a).Some? {
      var t', last := DeleteHolder(t, sender, a).value, |t.list| - 1;
      var k :| 0 <= k < |t.list| && t.list[k] == a;
      if Placed(t, a) {
        DeletePlaced(t, a, k, t');
      } else {
        Misplaced(t, a, k, t');
      }
    }
  }

  lemma WithoutHolder(list: seq<Address>, k: nat)
    requires k < |list| && NoDuplicates(list)
    ensures NoDuplicates(SwappedOut(list, k))
    ensures forall b :: b in SwappedOut(list, k) <==> b in list && b != list[k]
  {
    var last := |list| - 1;
    forall b ensures b in SwappedOut(list, k) <==> b in list && b != list[k] {
      if b in list && b != list[k] {
        var i :| 0 <= i < |list| && list[i] == b;
        assert SwappedOut(list, k)[if i == last then k else i] == b;
      }
    }
  }

  /** Without a holder that has no pieces, the ratios sum to the same. */
  lemma SumWithoutHolder(t: Table, a: Address, k: nat, t': Table)
    requires NoDuplicates(t.list) && k < |t.list| && t.list[k] == a && HolderOf(t.holders, a).ratio == 0
    requires t'.list == SwappedOut(t.list, k) && t'.holders == t.holders - {a}
    ensures SumOf(t'.list, RatioIn(t'.holders)) == SumOf(t.list, RatioIn(t.holders))
  {
    var f, g := RatioIn(t.holders), RatioIn(t'.holders);
    WithoutHolder(t.list, k);
    SwapAndPop(t.list, k);
    assert forall b: Address | b != a :: HolderOf(t'.holders, b) == HolderOf(t.holders, b);
    hide HolderOf, SwappedOut, SumOf;
    forall i | 0 <= i < |t'.list| ensures f(t'.list[i]) == g(t'.list[i]) {
      assert t'.list[i] in t'.list;
    }
    SumAgrees(t'.list, f, g);
    SumAppend(t'.list, a, f);
    assert multiset(t'.list + [a]) == multiset(t.list);
    SumPermutation(t'.list + [a], t.list, f);
  }

  lemma DeletePlaced(t: Table, a: Address, k: nat, t': Table)
    requires TableOk(t) && k < |t.list| && t.list[k] == a && HolderOf(t.holders, a).ratio == 0
    requires t' == t.(holders := t.holders - {a}, list := SwappedOut(t.list, k), totalHolders := t.totalHolders - 1)
    ensures TableOk(t')
  {
    SumWithoutHolder(t, a, k, t');
    WithoutHolder(t.list, k);
    assert forall b: Address ::
      HolderOf(t'.holders, b) == if b == a then Holder(0, 0, false) else HolderOf(t.holders, b);
    hide HolderOf, SumOf;
    assert |SwappedOut(t.list, k)| == |t.list| - 1;
    hide SwappedOut;
  }

  /** With a stale index the deleted holder stays on the list, and it is somebody else who is dropped. */
  lemma Misplaced(t: Table, a: Address, k: nat, t': Table)
    requires ListOk(t) && k < |t.list| && t.list[k] == a && |t.list| > 1
    requires HolderOf(t.holders, a).index < |t.list| && HolderOf(t.holders, a).index != k
    requires t' == t.(holders := t.holders - {a}, list := SwappedOut(t.list, HolderOf(t.holders, a).index),
                      totalHolders := t.totalHolders - 1)
    ensures a in t'.list && !HolderOf(t'.holders, a).flag
    ensures t.list[HolderOf(t.holders, a).index] !in t'.list
  {
    var i := HolderOf(t.holders, a).index;
    WithoutHolder(t.list, i);
    assert t.list[i] != a;
  }

  /** While every holder knows its place, deletions are harmless; they keep it so exactly at the end of the list. */
  lemma DeleteKeepsIndicesIff(t: Table, sender: Account, a: Address)
    requires TableOk(t) && IndicesOk(t) && DeleteHolder(t, sender, a).Some?
    ensures TableOk(DeleteHolder(t, sender, a).value)
    ensures IndicesOk(DeleteHolder(t, sender, a).value) <==> HolderOf(t.holders, a).index == |t.list| - 1
  {
    var t', last := DeleteHolder(t, sender, a).value, |t.list| - 1;
    var k :| 0 <= k < |t.list| && t.list[k] == a;
    DeleteKeepsIff(t, sender, a);
    hide SumOf;
    if k == last {
      forall i | 0 <= i < |t'.list| ensures HolderOf(t'.holders, t'.list[i]).index == i {
        assert t'.list[i] == t.list[i] && t.list[i] != a;
      }
    } else {
      assert t'.list[k] == t.list[last] && t.list[last] != a;
    }
  }

  // ---------- Runs ----------

  datatype Op =
    | OSet(addrs: seq<Address>, ratios: seq<nat>)
    | OSplit(receiver: Address, ratio: nat)
    | ODelete(holder: Address)

  datatype Call = Call(sender: Account, op: Op)

  function Apply(t: Table, call: Call): Option<Table> {
    match call.op
    case OSet(addrs, ratios) => SetHolders(t, call.sender, addrs, ratios)
    case OSplit(receiver, ratio) => SplitHolder(t, call.sender, receiver, ratio)
    case ODelete(a) => DeleteHolder(t, call.sender, a)
  }

  function Step(t: Table, call: Call): Table {
    if Apply(t, call).None? then t else Apply(t, call).value
  }

  function Run(t: Table, calls: seq<Call>): Table {
    if calls == [] then t else Step(Run(t, calls[..|calls| - 1]), calls[|calls| - 1])
  }

  /** What a caller can check beforehand: splits go to someone else, and the deleted holder is in its place. */
  predicate Sound(t: Table, call: Call) {
    match call.op
    case OSet(_, _) => true
    case OSplit(receiver, ratio) => receiver != call.sender || ratio == 0
    case ODelete(a) => Placed(t, a)
  }

  /** A transaction keeps the table right exactly when it is sound or reverts. */
  lemma StepKeepsIff(t: Table, call: Call)
    requires TableOk(t)
    ensures TableOk(Step(t, call)) <==> Apply(t, call).None? || Sound(t, call)
  {
    hide TableOk, SetFirst, SplitHolder, DeleteHolder, Placed, IndicesOk;
    if Apply(t, call).Some? {
      match call.op
      case OSet(addrs, ratios) => SetFirstKeeps(t, addrs, ratios, |addrs|);
      case OSplit(receiver, ratio) =>
        if receiver == call.sender {
          SelfSplitKeepsIff(t, call.sender, ratio);
        } else {
          SplitKeeps(t, call.sender, receiver, ratio);
        }
      case ODelete(a) => DeleteKeepsIff(t, call.sender, a);
    }
  }

  predicate SoundRun(t: Table, calls: seq<Call>) {
    calls == []
    || (SoundRun(t, calls[..|calls| - 1])
        && var mid, call := Run(t, calls[..|calls| - 1]), calls[|calls| - 1];
           Apply(mid, call).None? || Sound(mid, call))
  }

  /** The table is right at the start and after every transaction of the run. */
  ghost predicate AlwaysOk(t: Table, calls: seq<Call>) {
    TableOk(Run(t, calls)) && (calls == [] || AlwaysOk(t, calls[..|calls| - 1]))
  }

  ghost predicate Fresh(t: Table) { t.holders == map[] && t.list == [] && t.totalHolders == 0 && t.totalShared == 0 }

  /**
   Over a run from an empty table, the shared total is at every moment the sum of the listed holders'
   ratios, at most a hundred, of at most nine holders listed once and nobody else having pieces,
   exactly when every transaction of the run is sound or reverts.
   */
  lemma {:induction false} SharesAddUp(t: Table, calls: seq<Call>)
    requires Fresh(t)
    ensures AlwaysOk(t, calls) <==> SoundRun(t, calls)
  {
    hide Step, Sound;
    if calls != [] {
      SharesAddUp(t, calls[..|calls| - 1]);
      if AlwaysOk(t, calls[..|calls| - 1]) {
        hide TableOk;
        StepKeepsIff(Run(t, calls[..|calls| - 1]), calls[|calls| - 1]);
      }
    }
  }

  /** Only the last holder of the list is ever deleted, and nobody splits with itself. */
  predicate TidyRun(t: Table, calls: seq<Call>) {
    calls == []
    || (TidyRun(t, calls[..|calls| - 1])
        && var mid, call := Run(t, calls[..|calls| - 1]), calls[|calls| - 1];
           Apply(mid, call).None? || match call.op
             case OSet(_, _) => true
             case OSplit(receiver, ratio) => receiver != call.sender || ratio == 0
             case ODelete(a) => HolderOf(mid.holders, a).index == |mid.list| - 1)
  }

  lemma StepKeepsIndices(t: Table, call: Call)
    requires TableOk(t) && IndicesOk(t) && Apply(t, call).Some?
    requires call.op.OSplit? ==> call.op.receiver != call.sender || call.op.ratio == 0
    ensures TableOk(Step(t, call))
    ensures IndicesOk(Step(t, call))
      <==> call.op.ODelete? ==> HolderOf(t.holders, call.op.holder).index == |t.list| - 1
  {
    hide TableOk, SetFirst, SplitHolder, DeleteHolder, IndicesOk;
    match call.op
    case OSet(addrs, ratios) => SetFirstKeeps(t, addrs, ratios, |addrs|);
    case OSplit(receiver, ratio) =>
      if receiver == call.sender {
        SelfSplitKeepsIff(t, call.sender, ratio);
      } else {
        SplitKeeps(t, call.sender, receiver, ratio);
      }
    case ODelete(a) => DeleteKeepsIndicesIff(t, call.sender, a);
  }

  /**
   Whoever deletes only the last holder of the list never meets a stale index: over such runs the
   table stays right, every holder knows its place, and every deletion is sound.
   */
  lemma {:induction false} TidyRunsAreSound(t: Table, calls: seq<Call>)
    requires Fresh(t) && TidyRun(t, calls)
    ensures TableOk(Run(t, calls)) && IndicesOk(Run(t, calls)) && SoundRun(t, calls)
  {
    if calls != [] {
      var before, call := calls[..|calls| - 1], calls[|calls| - 1];
      TidyRunsAreSound(t, before);
      var mid := Run(t, before);
      if Apply(mid, call).Some? {
        hide TableOk, IndicesOk, Apply;
        StepKeepsIndices(mid, call);
        StepKeepsIff(mid, call);
      }
    }
  }

  // ---------- What each transaction gives ----------

  ghost predicate OthersSame(t: Table, t': Table, a: Address, b: Address) {
    t'.owner == t.owner && forall c: Address | c != a && c != b :: HolderOf(t'.holders, c) == HolderOf(t.holders, c)
  }

  /** Setting one holder: for anyone but the owner, within a hundred pieces and nine holders. */
  lemma {:induction false} SetGives(t: Table, sender: Account, a: Address, ratio: nat)
    requires t.totalShared >= HolderOf(t.holders, a).ratio
    ensures var h, r := HolderOf(t.holders, a), SetHolders(t, sender, [a], [ratio]);
      && (r.Some? <==>
            && sender == t.owner && a != t.owner && ratio <= 100 && t.totalShared - h.ratio + ratio <= 100
            && (h.flag || t.totalHolders < 9))
      && (r.Some? ==>
            && OthersSame(t, r.value, a, a)
            && HolderOf(r.value.holders, a) == Holder(if h.flag then h.index else |t.list|, ratio, true)
            && r.value.list == t.list + (if h.flag then [] else [a])
            && r.value.totalHolders == t.totalHolders + (if h.flag then 0 else 1)
            && r.value.totalShared == t.totalShared - h.ratio + ratio)
  {
    assert SetFirst(t, [a], [ratio], 0) == Some(t);
    assert SetFirst(t, [a], [ratio], 1) == SetHolder(t, a, ratio);
    assert t.list + [] == t.list;
  }

  /** Setting several holders is setting one after the other; where one fails, all do. */
  lemma {:induction false} SetsInTurn(t: Table, sender: Account, addrs: seq<Address>, ratios: seq<nat>, a: Address,
      ratio: nat)
    requires |addrs| == |ratios|
    ensures SetHolders(t, sender, [], []) == if t.owner == sender then Some(t) else None
    ensures SetHolders(t, sender, addrs + [a], ratios + [ratio])
         == match SetHolders(t, sender, addrs, ratios)
            case None => None
            case Some(t') => SetHolders(t', sender, [a], [ratio])
  {
    SetPrefix(t, addrs, ratios, addrs + [a], ratios + [ratio], |addrs|);
    if SetHolders(t, sender, addrs, ratios).Some? {
      var t' := SetHolders(t, sender, addrs, ratios).value;
      SetOwner(t, addrs, ratios, |addrs|);
      assert SetFirst(t', [a], [ratio], 0) == Some(t');
      assert SetFirst(t', [a], [ratio], 1) == SetHolder(t', a, ratio);
    }
    hide SetHolder;
  }

  lemma {:induction false} SetPrefix(t: Table, a: seq<Address>, x: seq<nat>, b: seq<Address>, y: seq<nat>, n: nat)
    requires n <= |a| == |x| && n <= |b| == |y| && a[..n] == b[..n] && x[..n] == y[..n]
    ensures SetFirst(t, a, x, n) == SetFirst(t, b, y, n)
  {
    hide SetHolder;
    if n > 0 {
      assert a[..n][n - 1] == b[..n][n - 1] && x[..n][n - 1] == y[..n][n - 1];
      assert a[..n - 1] == a[..n][..n - 1] && b[..n - 1] == b[..n][..n - 1];
      assert x[..n - 1] == x[..n][..n - 1] && y[..n - 1] == y[..n][..n - 1];
      SetPrefix(t, a, x, b, y, n - 1);
    }
  }

  lemma {:induction false} SetOwner(t: Table, addrs: seq<Address>, ratios: seq<nat>, n: nat)
    requires n <= |addrs| == |ratios| && SetFirst(t, addrs, ratios, n).Some?
    ensures SetFirst(t, addrs, ratios, n).value.owner == t.owner
  {
    if n > 0 { SetOwner(t, addrs, ratios, n - 1); }
  }

  /** A split moves pieces from the sender to somebody else, who becomes a holder where it was none. */
  lemma {:induction false} SplitGives(t: Table, sender: Account, receiver: Address, ratio: nat)
    requires receiver != sender
    ensures var g, h, r := HolderOf(t.holders, sender), HolderOf(t.holders, receiver),
        SplitHolder(t, sender, receiver, ratio);
      && (r.Some? <==> receiver != 0 && ratio <= 100 && g.flag && ratio <= g.ratio && (h.flag || t.totalHolders < 9))
      && (r.Some? ==>
            && OthersSame(t, r.value, sender, receiver)
            && HolderOf(r.value.holders, sender) == Holder(g.index, g.ratio - ratio, true)
            && HolderOf(r.value.holders, receiver)
               == Holder(if h.flag then h.index else |t.list|, h.ratio + ratio, true)
            && r.value.list == t.list + (if h.flag then [] else [receiver])
            && r.value.totalHolders == t.totalHolders + (if h.flag then 0 else 1)
            && r.value.totalShared == t.totalShared)
  {
    assert t.list + [] == t.list;
  }

  /** A deletion forgets the holder; where its index is right, the last of the list takes its place. */
  lemma {:induction false} DeletionGives(t: Table, sender: Account, a: Address, k: nat)
    requires DeleteHolder(t, sender, a).Some? && k == HolderOf(t.holders, a).index < |t.list|
    ensures var t', last := DeleteHolder(t, sender, a).value, |t.list| - 1;
      && OthersSame(t, t', a, a) && HolderOf(t'.holders, a) == Holder(0, 0, false)
      && t'.totalShared == t.totalShared && t'.totalHolders == t.totalHolders - 1 && |t'.list| == last
      && forall i :: 0 <= i < last ==> t'.list[i] == if i == k then t.list[last] else t.list[i]
  {}

  // ---------- Two runs that go wrong ----------

  const NOBODY := Table(1, map[], [], 0, 0)

  lemma {:induction false} RunLast(t: Table, calls: seq<Call>, call: Call)
    ensures Run(t, calls + [call]) == Step(Run(t, calls), call)
  {
    assert (calls + [call])[..|calls|] == calls;
  }

  const THREE := Call(1, OSet([2, 3, 4], [0, 0, 0]))
  const DROP_FIRST := Call(1, ODelete(2))
  const FIFTY := Call(1, OSet([5], [50]))
  const DROP_MOVED := Call(1, ODelete(4))

  /** A table with one more holder, who has no pieces. */
  function Enlisted(t: Table, a: Address): Table {
    t.(holders := t.holders[a := Holder(|t.list|, 0, true)], list := t.list + [a], totalHolders := t.totalHolders + 1)
  }

  lemma SetEnlists(t: Table, a: Address)
    requires a != t.owner && HolderOf(t.holders, a) == Holder(0, 0, false)
    requires t.totalHolders < MAX_HOLDERS && t.totalShared <= MAX_PIECES
    ensures SetHolder(t, a, 0) == Some(Enlisted(t, a))
  {}

  function ThreeHolders(): Table { Enlisted(Enlisted(Enlisted(NOBODY, 2), 3), 4) }

  lemma SetThree()
    ensures Step(NOBODY, THREE) == ThreeHolders()
  {
    var one, two := Enlisted(NOBODY, 2), Enlisted(Enlisted(NOBODY, 2), 3);
    SetEnlists(NOBODY, 2);
    SetEnlists(one, 3);
    SetEnlists(two, 4);
    hide SetHolder, Enlisted;
    var addrs, ratios := [2, 3, 4], [0, 0, 0];
    assert SetFirst(NOBODY, addrs, ratios, 1) == Some(one);
    assert SetFirst(NOBODY, addrs, ratios, 2) == Some(two);
    assert SetFirst(NOBODY, addrs, ratios, 3) == Some(ThreeHolders());
  }

  /**
   A stale index takes somebody else off the list: of three holders the first is deleted, a fourth
   gets fifty pieces, and then the holder that was moved is deleted. The fourth keeps its pieces but
   gets no reward any more, and the deleted one does.
   */
  lemma StaleIndexLosesHolder()
    ensures Fresh(NOBODY)
    ensures var t := Run(NOBODY, [] + [THREE] + [DROP_FIRST] + [FIFTY] + [DROP_MOVED]);
      && HolderOf(t.holders, 5) == Holder(2, 50, true) && t.totalShared == 50
      && t.list == [4, 3] && !HolderOf(t.holders, 4).flag
      && (forall value :: Rewards(t, value).Some? ==> Rewards(t, value).value.0 == [4, 3, 1])
  {
    RunLast(NOBODY, [], THREE);
    RunLast(NOBODY, [] + [THREE], DROP_FIRST);
    RunLast(NOBODY, [] + [THREE] + [DROP_FIRST], FIFTY);
    RunLast(NOBODY, [] + [THREE] + [DROP_FIRST] + [FIFTY], DROP_MOVED);
    EmptyRun();
    SetThree();
    hide Run, Step, Cut, CutSum;
    FirstDropped();
    FourthEnters();
    MovedDropped();
  }

  function TwoHolders(): Table {
    ThreeHolders().(holders := ThreeHolders().holders - {2}, list := [4, 3], totalHolders := 2)
  }

  lemma FirstDropped()
    ensures Step(ThreeHolders(), DROP_FIRST) == TwoHolders()
  {
    assert ThreeHolders().list == [2, 3, 4];
    assert [2, 3, 4][0 := 4][..2] == [4, 3];
  }

  function WithFourth(): Table {
    TwoHolders().(holders := TwoHolders().holders[5 := Holder(2, 50, true)], list := [4, 3, 5],
                  totalHolders := 3, totalShared := 50)
  }

  lemma FourthEnters()
    ensures Step(TwoHolders(), FIFTY) == WithFourth()
  {
    var t := TwoHolders();
    assert HolderOf(t.holders, 5) == Holder(0, 0, false);
    assert [4, 3] + [5] == [4, 3, 5];
    assert SetHolder(t, 5, 50) == Some(WithFourth());
    hide SetHolder, TwoHolders, WithFourth;
    assert SetFirst(t, [5], [50], 1) == SetHolder(t, 5, 50);
  }

  lemma MovedDropped()
    ensures var t := Step(WithFourth(), DROP_MOVED);
      t == WithFourth().(holders := WithFourth().holders - {4}, list := [4, 3], totalHolders := 2)
    ensures HolderOf(WithFourth().holders, 4) == Holder(2, 0, true)
  {
    assert HolderOf(WithFourth().holders, 4) == Holder(2, 0, true);
    assert [4, 3, 5][2 := 5][..2] == [4, 3];
  }

  /** It can also keep a holder from being deleted until the list grows again: its index points past the list. */
  lemma StaleIndexBlocksDeletion()
    ensures var t := Run(NOBODY, [] + [THREE] + [DROP_FIRST]);
      && HolderOf(t.holders, 4) == Holder(2, 0, true) && 4 in t.list
      && DeleteHolder(t, 1, 4).None?
  {
    RunLast(NOBODY, [], THREE);
    RunLast(NOBODY, [] + [THREE], DROP_FIRST);
    EmptyRun();
    SetThree();
    FirstDropped();
    hide Run, Step;
    assert 4 == TwoHolders().list[0];
  }

  const TEN := Call(1, OSet([2], [10]))
  const TO_ITSELF := Call(2, OSplit(2, 10))

  /** A holder of ten pieces that splits ten with itself holds twenty, while ten are on the books. */
  lemma SelfSplitCreatesPieces()
    ensures Fresh(NOBODY)
    ensures var t := Run(NOBODY, [] + [TEN] + [TO_ITSELF]);
      HolderOf(t.holders, 2).ratio == 20 && t.totalShared == 10 && t.list == [2]
  {
    RunLast(NOBODY, [], TEN);
    RunLast(NOBODY, [] + [TEN], TO_ITSELF);
    EmptyRun();
    hide Run;
    assert SetFirst(NOBODY, [2], [10], 0) == Some(NOBODY);
    assert SetFirst(NOBODY, [2], [10], 1) == SetHolder(NOBODY, 2, 10);
    assert Step(NOBODY, TEN) == Table(1, map[2 := Holder(0, 10, true)], [2], 1, 10);
  }

  lemma EmptyRun()
    ensures Run(NOBODY, []) == NOBODY
  {}

  // ---------- Rewards ----------

  function Cut(ratio: nat, value: nat): nat { ratio * value / 100 }

  /** What the first n listed holders get together. */
  function CutSum(t: Table, value: nat, n: nat): nat
    requires n <= |t.list|
  {
    if n == 0 then 0 else CutSum(t, value, n - 1) + Cut(HolderOf(t.holders, t.list[n - 1]).ratio, value)
  }

  function CutsOf(t: Table, value: nat, n: nat): seq<nat>
    requires n <= |t.list|
  {
    seq(n, i requires 0 <= i < n => Cut(HolderOf(t.holders, t.list[i]).ratio, value))
  }

  /** Recipients and amounts: the listed holders, then the owner with the rest. */
  function Rewards(t: Table, value: nat): Option<(seq<Address>, seq<nat>)> {
    if t.totalHolders > |t.list| || CutSum(t, value, t.totalHolders) > value then None
    else Some((
        t.list[..t.totalHolders] + [t.owner],
        CutsOf(t, value, t.totalHolders) + [value - CutSum(t, value, t.totalHolders)]))
  }

  lemma CutBounds(ratio: nat, value: nat)
    ensures ratio * value - 99 <= 100 * Cut(ratio, value) <= ratio * value
  {}

  /** All cuts together are the shared part, short by less than a unit for each holder. */
  lemma {:induction false} CutSumBounds(t: Table, value: nat, n: nat)
    requires n <= |t.list|
    ensures var part := SumOf(t.list[..n], RatioIn(t.holders)) * value;
      part - 99 * n <= 100 * CutSum(t, value, n) <= part
  {
    if n > 0 {
      CutSumBounds(t, value, n - 1);
      var list, a := t.list[..n - 1], t.list[n - 1];
      var ratio, before := HolderOf(t.holders, a).ratio, SumOf(list, RatioIn(t.holders));
      assert t.list[..n] == list + [a];
      SumAppend(list, a, RatioIn(t.holders));
      CutBounds(ratio, value);
      hide Cut, SumOf;
      Distribute(before, ratio, value);
    }
  }

  lemma Distribute(a: int, b: int, x: int)
    ensures (a + b) * x == a * x + b * x
  {}

  lemma {:induction false} CutsAddUp(t: Table, value: nat, n: nat)
    requires n <= |t.list|
    ensures SumOf<nat>(CutsOf(t, value, n), Itself) == CutSum(t, value, n)
  {
    hide Cut;
    if n > 0 {
      assert CutsOf(t, value, n)[..n - 1] == CutsOf(t, value, n - 1);
      CutsAddUp(t, value, n - 1);
    }
  }

  /**
   With an intact table the split never underflows and is exact: every holder gets its hundredths of
   the total, rounded down, the amounts sum to the total, and the owner gets the unshared pieces'
   worth plus all rounding, less than one unit for each holder.
   */
  lemma SplitIsExact(t: Table, value: nat)
    requires TableOk(t)
    ensures Rewards(t, value).Some?
    ensures var (accounts, amounts) := Rewards(t, value).value;
      && |accounts| == |amounts| == |t.list| + 1
      && (forall i :: 0 <= i < |t.list| ==>
            accounts[i] == t.list[i] && IsFloor(amounts[i], HolderOf(t.holders, t.list[i]).ratio * value, 100))
      && SumOf<nat>(amounts, Itself) == value
      && var rest := amounts[|t.list|];
      && accounts[|t.list|] == t.owner
      && (MAX_PIECES - t.totalShared) * value <= 100 * rest <= (MAX_PIECES - t.totalShared) * value + 99 * |t.list|
  {
    var n := |t.list|;
    CutSumBounds(t, value, n);
    assert t.list[..n] == t.list;
    forall i | 0 <= i < n ensures IsFloor(CutsOf(t, value, n)[i], HolderOf(t.holders, t.list[i]).ratio * value, 100) {
      FloorIs(CutsOf(t, value, n)[i], HolderOf(t.holders, t.list[i]).ratio * value, 100);
    }
    hide Cut, CutSum, SumOf, IsFloor;
    MultiplyMonotone(t.totalShared, MAX_PIECES, value);
    Distribute(MAX_PIECES - t.totalShared, t.totalShared, value);
    CutsAddUp(t, value, n);
    SumAppend<nat>(CutsOf(t, value, n), value - CutSum(t, value, n), Itself);
  }
}
