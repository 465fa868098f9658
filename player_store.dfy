/**
 * The player's save record and the economy actions of the player store:
 * buying, selling, dying, using and obtaining items, lifting a curse and
 * unlocking stages, plus the torch value the survival loop drives.
 */
module PlayerStore {
  import opened Options

  datatype Difficulty = Easy | Normal | Hard

  /** An entry of the item catalog. */
  datatype Item = Item(id: int, name: string, description: string, kind: string,
                       buyPrice: int, sellPrice: int, rarity: Option<int>)

  /** The persisted save record. */
  datatype SaveRecord = SaveRecord(jCoin: int, inventory: seq<int>, shopStock: seq<int>,
                                   currentStage: int, maxStageReached: int, deathCount: int,
                                   difficulty: Difficulty)

  /** What `consumeItem` reports; `Message` gives the text the store returns. */
  datatype ConsumeOutcome = NotOwned | NotNeeded | Recovered | UnknownUse

  const InitialSave := SaveRecord(1000, [], [1, 2, 3, 4, 5], 1, 1, 0, Normal)
  const InitialTorch: real := 100.0
  /** Torch restored by a recovery item, and the largest id that is a recovery item. */
  const TorchRecovery: real := 30.0
  const LastRecoveryId := 10
  /** The last stage that can be unlocked. */
  const LastStage := 5

  /** The text `consumeItem` returns for each outcome; never empty. */
  function Message(o: ConsumeOutcome): (m: string)
    ensures m != []
  {
    match o
    case NotOwned => "アイテムヲ　モッテイナイ"
    case NotNeeded => "イマハ　ヒツヨウナイ (満タン)"
    case Recovered => "回復シタ (TORCH +30)"
    case UnknownUse => "ツカイカタガ　ワカラナイ……"
  }

  /** Each outcome has its own text, so the text tells the caller what happened. */
  lemma MessagesDistinct(a: ConsumeOutcome, b: ConsumeOutcome)
    requires Message(a) == Message(b)
    ensures a == b
  {
  }

  function MinReal(a: real, b: real): real
  {
    if a <= b then a else b
  }

  // ----- sequence operations the store's actions are built from -----

  /** `Array.prototype.indexOf`: the first index holding `x`, or -1. */
  function IndexOf(s: seq<int>, x: int): (i: int)
    ensures -1 <= i < |s|
    ensures i == -1 <==> x !in s
    ensures 0 <= i ==> s[i] == x && x !in s[..i]
  {
    if s == [] then -1
    else if s[0] == x then 0
    else
      var j := IndexOf(s[1..], x);
      if j < 0 then -1
      else
        assert s[..j + 1] == [s[0]] + s[1..][..j];
        j + 1
  }

  /** The index `splice(start, 1)` removes at, or |s| when it removes nothing:
      a negative start counts from the end and is raised to 0; a start past the end
      is lowered to the length. */
  function SpliceStart(len: nat, start: int): (k: nat)
    ensures k <= len
    ensures 0 <= start < len ==> k == start
    ensures -(len as int) <= start < 0 ==> k == len + start
    ensures start < -(len as int) ==> k == 0
    ensures k == len <==> start >= len || len == 0
  {
    if start < 0 then (if len + start < 0 then 0 else len + start)
    else if start > len then len
    else start
  }

  /** The array left by `splice(start, 1)`. */
  function RemoveAt(s: seq<int>, start: int): (r: seq<int>)
    ensures var k := SpliceStart(|s|, start);
      && |r| == (if k < |s| then |s| - 1 else |s|)
      && (forall j :: 0 <= j < |r| ==> r[j] == if j < k then s[j] else s[j + 1])
      && (k < |s| ==> multiset(r) + multiset{s[k]} == multiset(s))
  {
    var k := SpliceStart(|s|, start);
    if k < |s| then
      assert s == s[..k] + [s[k]] + s[k + 1..];
      s[..k] + s[k + 1..]
    else s
  }

  /** Ascending order, as `sort((a, b) => a - b)` leaves numbers. */
  predicate Sorted(s: seq<int>)
  {
    forall i, j :: 0 <= i < j < |s| ==> s[i] <= s[j]
  }

  /** Ascending and free of duplicates: the shape the shop stock is kept in. */
  predicate StrictlySorted(s: seq<int>)
  {
    forall i, j :: 0 <= i < j < |s| ==> s[i] < s[j]
  }

  /** Inserts `x` after every element not greater than it. */
  function Insert(x: int, s: seq<int>): (r: seq<int>)
    ensures multiset(r) == multiset(s) + multiset{x}
  {
    if s == [] then [x]
    else if x < s[0] then [x] + s
    else
      assert s == [s[0]] + s[1..];
      [s[0]] + Insert(x, s[1..])
  }

  /** Insertion keeps a sequence ascending. */
  lemma {:induction false} InsertKeepsSorted(x: int, s: seq<int>)
    requires Sorted(s)
    ensures Sorted(Insert(x, s))
  {
    if s != [] && x >= s[0] {
      InsertKeepsSorted(x, s[1..]);
      var t := Insert(x, s[1..]);
      forall k | 0 <= k < |t| ensures s[0] <= t[k] {
        assert t[k] in multiset(t);
        assert t[k] == x || t[k] in multiset(s[1..]);
      }
    }
  }

  /** The ascending rearrangement `sort((a, b) => a - b)` produces. */
  function Sort(s: seq<int>): (r: seq<int>)
    ensures Sorted(r)
    ensures multiset(r) == multiset(s)
  {
    if s == [] then []
    else
      assert s == s[..|s| - 1] + [s[|s| - 1]];
      InsertKeepsSorted(s[|s| - 1], Sort(s[..|s| - 1]));
      Insert(s[|s| - 1], Sort(s[..|s| - 1]))
  }

  /** The shop stock after an item with id `id` is sold: the id is added only when
      it is not stocked yet, and the stock is then sorted. */
  function Restock(stock: seq<int>, id: int): (r: seq<int>)
    ensures id in r
    ensures id in stock ==> r == stock
    ensures id !in stock ==> multiset(r) == multiset(stock) + multiset{id} && Sorted(r)
  {
    if id in stock then stock
    else
      assert id in multiset(Sort(stock + [id]));
      Sort(stock + [id])
  }

  /** `Math.floor(c / 2)`: Dafny's `/` rounds towards minus infinity for a positive divisor. */
  function FloorHalf(c: int): (r: int)
    ensures 2 * r <= c < 2 * r + 2
    ensures c >= 0 ==> 0 <= r <= c
  {
    c / 2
  }

  /** `maxStageReached` after clearing stage `current`. */
  function NextMaxStage(current: int, maxReached: int): (r: int)
    ensures r != maxReached ==> current >= maxReached
    ensures maxReached <= LastStage ==> maxReached <= r <= LastStage
    ensures current >= maxReached && current < LastStage ==> r == current + 1
    ensures current >= maxReached && current >= LastStage ==> r == LastStage
  {
    if current >= maxReached then (if current + 1 < LastStage then current + 1 else LastStage)
    else maxReached
  }

  /** `getItemDetail`: the first catalog entry with the given id, if any. */
  function ItemDetail(catalog: seq<Item>, id: int): (r: Option<Item>)
    ensures r.None? <==> forall k :: 0 <= k < |catalog| ==> catalog[k].id != id
    ensures r.Some? ==> exists k :: 0 <= k < |catalog| && catalog[k] == r.value && r.value.id == id
                                    && forall j :: 0 <= j < k ==> catalog[j].id != id
  {
    var ids := seq(|catalog|, k requires 0 <= k < |catalog| => catalog[k].id);
    var i := IndexOf(ids, id);
    if i < 0 then
      assert forall k :: 0 <= k < |catalog| ==> ids[k] == catalog[k].id;
      None
    else
      assert forall j :: 0 <= j < i ==> ids[..i][j] == catalog[j].id;
      Some(catalog[i])
  }

  // ----- lemmas about the stock and the inventory -----

  lemma {:induction false} InsertAfterAll(x: int, s: seq<int>)
    requires forall k :: 0 <= k < |s| ==> s[k] <= x
    ensures Insert(x, s) == s + [x]
  {
    if s != [] {
      InsertAfterAll(x, s[1..]);
      assert s == [s[0]] + s[1..];
    }
  }

  /** Sorting a sequence that is already ascending leaves it as it is. */
  lemma {:induction false} SortOfSorted(s: seq<int>)
    requires Sorted(s)
    ensures Sort(s) == s
  {
    if s != [] {
      var init := s[..|s| - 1];
      assert Sorted(init);
      SortOfSorted(init);
      InsertAfterAll(s[|s| - 1], init);
      assert init + [s[|s| - 1]] == s;
    }
  }

  /** Inserting a new number into a duplicate-free ascending sequence keeps it so. */
  lemma {:induction false} InsertKeepsStrict(x: int, s: seq<int>)
    requires StrictlySorted(s) && x !in s
    ensures StrictlySorted(Insert(x, s))
  {
    if s != [] && x >= s[0] {
      assert s == [s[0]] + s[1..];
      InsertKeepsStrict(x, s[1..]);
      var t := Insert(x, s[1..]);
      forall k | 0 <= k < |t| ensures s[0] < t[k] {
        assert t[k] in multiset(t);
        assert t[k] == x || t[k] in multiset(s[1..]);
      }
      assert Insert(x, s) == [s[0]] + t;
    }
  }

  /** Selling keeps the shop stock ascending and free of duplicates. */
  lemma RestockKeepsStrict(stock: seq<int>, id: int)
    requires StrictlySorted(stock)
    ensures StrictlySorted(Restock(stock, id))
  {
    if id !in stock {
      assert (stock + [id])[..|stock|] == stock;
      SortOfSorted(stock);
      InsertKeepsStrict(id, stock);
    }
  }

  /** Using an owned item removes exactly its first occurrence. */
  lemma RemoveFirstOccurrence(s: seq<int>, x: int)
    requires x in s
    ensures var k := IndexOf(s, x);
      && RemoveAt(s, k) == s[..k] + s[k + 1..]
      && multiset(RemoveAt(s, k)) == multiset(s) - multiset{x}
      && x !in s[..k]
  {
  }

  // ----- the store -----

  class Store {
    var state: SaveRecord
    var torch: real
    var maxTorch: real

    /** The shop stock shape every action keeps. */
    ghost predicate StockInOrder()
      reads this
    {
      StrictlySorted(state.shopStock)
    }

    constructor ()
      ensures state == InitialSave && torch == InitialTorch && maxTorch == InitialTorch
      ensures StockInOrder()
    {
      state := InitialSave;
      torch := InitialTorch;
      maxTorch := InitialTorch;
    }

    method BuyItem(item: Item) returns (ok: bool)
      modifies this
      ensures ok <==> old(state.jCoin) >= item.buyPrice
      ensures ok ==> state == old(state).(jCoin := old(state.jCoin) - item.buyPrice,
                                          inventory := old(state.inventory) + [item.id])
      ensures !ok ==> state == old(state)
      ensures torch == old(torch) && maxTorch == old(maxTorch)
    {
      if state.jCoin >= item.buyPrice {
        state := state.(jCoin := state.jCoin - item.buyPrice, inventory := state.inventory + [item.id]);
        return true;
      }
      return false;
    }

    method SellItem(index: int, item: Item)
      modifies this
      ensures state == old(state).(inventory := RemoveAt(old(state.inventory), index),
                                   jCoin := old(state.jCoin) + item.sellPrice,
                                   shopStock := Restock(old(state.shopStock), item.id))
      ensures item.id in state.shopStock
      ensures item.id in old(state.shopStock) ==> state.shopStock == old(state.shopStock)
      ensures old(StockInOrder()) ==> StockInOrder()
      ensures torch == old(torch) && maxTorch == old(maxTorch)
    {
      if StrictlySorted(state.shopStock) {
        RestockKeepsStrict(state.shopStock, item.id);
      }
      state := state.(inventory := RemoveAt(state.inventory, index));
      state := state.(jCoin := state.jCoin + item.sellPrice);
      if item.id !in state.shopStock {
        state := state.(shopStock := Sort(state.shopStock + [item.id]));
      }
    }

    method AddCoin(amount: int)
      modifies this
      ensures state == old(state).(jCoin := old(state.jCoin) + amount)
      ensures torch == old(torch) && maxTorch == old(maxTorch)
    {
      state := state.(jCoin := state.jCoin + amount);
    }

    method Die()
      modifies this
      ensures state == old(state).(deathCount := old(state.deathCount) + 1,
                                   jCoin := FloorHalf(old(state.jCoin)))
      ensures old(state.jCoin) >= 0 ==> 0 <= state.jCoin <= old(state.jCoin)
      ensures torch == old(torch) && maxTorch == old(maxTorch)
    {
      state := state.(deathCount := state.deathCount + 1);
      state := state.(jCoin := FloorHalf(state.jCoin));
    }

    method ConsumeItem(itemId: int) returns (o: ConsumeOutcome)
      modifies this
      ensures itemId !in old(state.inventory) ==> o == NotOwned
      ensures (itemId in old(state.inventory) && itemId <= LastRecoveryId && old(torch) >= old(maxTorch))
                ==> o == NotNeeded
      ensures (itemId in old(state.inventory) && itemId <= LastRecoveryId && old(torch) < old(maxTorch))
                ==> o == Recovered
      ensures itemId in old(state.inventory) && itemId > LastRecoveryId ==> o == UnknownUse
      ensures o == Recovered ==>
                && torch == MinReal(old(torch) + TorchRecovery, old(maxTorch))
                && state == old(state).(inventory := RemoveAt(old(state.inventory),
                                                              IndexOf(old(state.inventory), itemId)))
                && multiset(state.inventory) == multiset(old(state.inventory)) - multiset{itemId}
      ensures o != Recovered ==> state == old(state) && torch == old(torch)
      ensures maxTorch == old(maxTorch)
    {
      var itemIndex := IndexOf(state.inventory, itemId);
      if itemIndex == -1 {
        return NotOwned;
      }
      var consumed: bool;
      if itemId <= LastRecoveryId {
        if torch >= maxTorch {
          return NotNeeded;
        }
        torch := MinReal(torch + TorchRecovery, maxTorch);
        o := Recovered;
        consumed := true;
      } else {
        o := UnknownUse;
        consumed := false;
      }
      if consumed {
        RemoveFirstOccurrence(state.inventory, itemId);
        state := state.(inventory := RemoveAt(state.inventory, itemIndex));
      }
    }

    method ObtainItem(item: Item)
      modifies this
      ensures state == old(state).(inventory := old(state.inventory) + [item.id])
      ensures torch == old(torch) && maxTorch == old(maxTorch)
    {
      state := state.(inventory := state.inventory + [item.id]);
    }

    method RemoveCurse(index: int, cost: int) returns (ok: bool)
      modifies this
      ensures ok <==> old(state.jCoin) >= cost
      ensures ok ==> state == old(state).(jCoin := old(state.jCoin) - cost,
                                          inventory := RemoveAt(old(state.inventory), index))
      ensures !ok ==> state == old(state)
      ensures torch == old(torch) && maxTorch == old(maxTorch)
    {
      if state.jCoin >= cost {
        state := state.(jCoin := state.jCoin - cost);
        state := state.(inventory := RemoveAt(state.inventory, index));
        return true;
      }
      return false;
    }

    method UnlockNextStage(currentStageId: int)
      modifies this
      ensures state == old(state).(maxStageReached := NextMaxStage(currentStageId, old(state.maxStageReached)))
      ensures old(state.maxStageReached) <= LastStage ==>
                old(state.maxStageReached) <= state.maxStageReached <= LastStage
      ensures state.maxStageReached != old(state.maxStageReached) ==> currentStageId >= old(state.maxStageReached)
      ensures torch == old(torch) && maxTorch == old(maxTorch)
    {
      if currentStageId >= state.maxStageReached {
        var next := if currentStageId + 1 < LastStage then currentStageId + 1 else LastStage;
        state := state.(maxStageReached := next);
      }
    }
  }
}
