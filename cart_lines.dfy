/**
 * The cart's line list and the pure transformations the cart store applies
 * to it: `find` / `map` on add, `filter` on remove, `map` on a quantity
 * change, and the two `reduce` totals.
 */
module CartLines {

  import opened Options
  import opened Seqs

  /** One cart line. The price is captured when the line is first added. */
  datatype CartItem = CartItem(
    productId: string,
    productName: string,
    price: int,
    quantity: int,
    selectedSize: Option<string>,
    selectedColor: Option<string>,
    imageUrl: Option<string>)

  /**
   * What identifies a line: product, size and colour, compared with `===`,
   * so an absent size equals only an absent size.
   */
  datatype LineKey = LineKey(productId: string, size: Option<string>, color: Option<string>)

  function KeyOf(line: CartItem): LineKey
  {
    LineKey(line.productId, line.selectedSize, line.selectedColor)
  }

  /** No two lines share a key. */
  ghost predicate KeysUnique(s: seq<CartItem>)
  {
    forall i, j :: 0 <= i < j < |s| ==> KeyOf(s[i]) != KeyOf(s[j])
  }

  /** Every line has a quantity of at least one. */
  ghost predicate AllPositive(s: seq<CartItem>)
  {
    forall line :: line in s ==> line.quantity >= 1
  }

  /** No line has a negative unit price or quantity. */
  ghost predicate NoNegativeLine(s: seq<CartItem>)
  {
    forall line :: line in s ==> line.price >= 0 && line.quantity >= 0
  }

  /** No line has the given key. */
  ghost predicate KeyAbsent(s: seq<CartItem>, key: LineKey)
  {
    forall j :: 0 <= j < |s| ==> KeyOf(s[j]) != key
  }

  /** `prev.find(...)`: the position of the first line with the key, if any. */
  function FindLine(s: seq<CartItem>, key: LineKey): (r: Option<nat>)
    ensures r.Some? ==> r.value < |s| && KeyOf(s[r.value]) == key
    ensures r.Some? ==> forall j :: 0 <= j < r.value ==> KeyOf(s[j]) != key
    ensures r.None? <==> KeyAbsent(s, key)
  {
    if s == [] then None
    else if KeyOf(s[0]) == key then Some(0)
    else match FindLine(s[1..], key)
      case None => None
      case Some(i) => Some(i + 1)
  }

  /** The line after the merge step of `addToCart` has looked at it. */
  function Merged(line: CartItem, item: CartItem): CartItem
  {
    if KeyOf(line) == KeyOf(item) then line.(quantity := line.quantity + item.quantity) else line
  }

  /** `prev.map(...)` in `addToCart`. */
  function MergeInto(s: seq<CartItem>, item: CartItem): seq<CartItem>
  {
    seq(|s|, i requires 0 <= i < |s| => Merged(s[i], item))
  }

  /** The new line list after `addToCart(item)`. */
  function AddLine(s: seq<CartItem>, item: CartItem): (r: seq<CartItem>)
    ensures FindLine(s, KeyOf(item)).Some? ==> |r| == |s|
    ensures FindLine(s, KeyOf(item)).None? ==> r == s + [item]
    ensures forall i :: 0 <= i < |s| ==> KeyOf(r[i]) == KeyOf(s[i])
  {
    if FindLine(s, KeyOf(item)).Some? then MergeInto(s, item) else s + [item]
  }

  function KeyIsNot(key: LineKey): CartItem -> bool
  {
    line => KeyOf(line) != key
  }

  /** The new line list after `removeFromCart`: `prev.filter(...)`. */
  function RemoveLines(s: seq<CartItem>, key: LineKey): (r: seq<CartItem>)
    ensures forall line :: line in r <==> line in s && KeyOf(line) != key
  {
    Filter(s, KeyIsNot(key))
  }

  /** `prev.map(...)` in `updateQuantity`: matching lines get the quantity. */
  function SetQuantity(s: seq<CartItem>, key: LineKey, quantity: int): seq<CartItem>
  {
    seq(|s|, i requires 0 <= i < |s| => if KeyOf(s[i]) == key then s[i].(quantity := quantity) else s[i])
  }

  /** The new line list after `updateQuantity`: a quantity of zero or less removes. */
  function UpdateLines(s: seq<CartItem>, key: LineKey, quantity: int): (r: seq<CartItem>)
    ensures quantity <= 0 ==> KeyAbsent(r, key) && |r| <= |s|
    ensures quantity > 0 ==> |r| == |s| && forall i :: 0 <= i < |s| ==>
      KeyOf(r[i]) == KeyOf(s[i]) && r[i].price == s[i].price &&
      r[i].quantity == (if KeyOf(s[i]) == key then quantity else s[i].quantity)
  {
    if quantity <= 0 then RemoveLines(s, key) else SetQuantity(s, key, quantity)
  }

  /** What one line costs: unit price times quantity. */
  function LineSubtotal(line: CartItem): int
  {
    line.price * line.quantity
  }

  /** `reduce((total, item) => total + item.price * item.quantity, 0)`, a left fold. */
  function TotalPrice(s: seq<CartItem>): (r: int)
  {
    if s == [] then 0 else TotalPrice(s[..|s| - 1]) + LineSubtotal(s[|s| - 1])
  }

  /** `reduce((count, item) => count + item.quantity, 0)`, a left fold. */
  function ItemCount(s: seq<CartItem>): (r: int)
    ensures AllPositive(s) ==> r >= |s|
  {
    if s == [] then 0 else ItemCount(s[..|s| - 1]) + s[|s| - 1].quantity
  }

  /** With no negative price or quantity, the total is never negative. */
  lemma {:induction false} TotalPriceNonNegative(s: seq<CartItem>)
    requires NoNegativeLine(s)
    ensures TotalPrice(s) >= 0
  {
    if s != [] {
      var n := |s| - 1;
      assert forall line :: line in s[..n] ==> line in s;
      assert s[n] in s;
      TotalPriceNonNegative(s[..n]);
    }
  }

  // ---------------------------------------------------------------------
  // Adding

  /**
   * Adding an item whose key some line already has increases that line's
   * quantity by the added quantity, keeps its price, name and image, and
   * changes no other line and not the length.
   */
  lemma AddMergesExisting(s: seq<CartItem>, item: CartItem, k: nat)
    requires KeysUnique(s)
    requires k < |s| && KeyOf(s[k]) == KeyOf(item)
    ensures |AddLine(s, item)| == |s|
    ensures AddLine(s, item)[k] == s[k].(quantity := s[k].quantity + item.quantity)
    ensures AddLine(s, item)[k].price == s[k].price
    ensures AddLine(s, item)[k].productName == s[k].productName
    ensures AddLine(s, item)[k].imageUrl == s[k].imageUrl
    ensures forall j :: 0 <= j < |s| && j != k ==> AddLine(s, item)[j] == s[j]
  {
    assert !KeyAbsent(s, KeyOf(item));
  }

  /** Adding an item with a new key appends it; earlier lines are unchanged. */
  lemma AddAppendsNew(s: seq<CartItem>, item: CartItem)
    requires KeyAbsent(s, KeyOf(item))
    ensures AddLine(s, item) == s + [item]
  {
  }

  lemma AddKeepsKeysUnique(s: seq<CartItem>, item: CartItem)
    requires KeysUnique(s)
    ensures KeysUnique(AddLine(s, item))
  {
    if FindLine(s, KeyOf(item)).Some? {
      var r := MergeInto(s, item);
      assert forall i :: 0 <= i < |s| ==> KeyOf(r[i]) == KeyOf(s[i]);
    } else {
      var r := s + [item];
      forall i, j | 0 <= i < j < |r| ensures KeyOf(r[i]) != KeyOf(r[j]) {
        if j == |s| {
          assert r[i] == s[i];
        } else {
          assert r[i] == s[i] && r[j] == s[j];
        }
      }
    }
  }

  lemma AddKeepsPositive(s: seq<CartItem>, item: CartItem)
    requires AllPositive(s) && item.quantity >= 1
    ensures AllPositive(AddLine(s, item))
  {
    if FindLine(s, KeyOf(item)).Some? {
      var r := MergeInto(s, item);
      forall line | line in r ensures line.quantity >= 1 {
        var i :| 0 <= i < |r| && r[i] == line;
        assert s[i] in s;
      }
    }
  }

  /** Replacing one line changes the total by the difference of the two subtotals. */
  lemma {:induction false} PriceReplace(s: seq<CartItem>, k: nat, line: CartItem)
    requires k < |s|
    ensures TotalPrice(s[k := line]) == TotalPrice(s) - LineSubtotal(s[k]) + LineSubtotal(line)
  {
    var t := s[k := line];
    var n := |s| - 1;
    if k == n {
      assert t[..n] == s[..n];
    } else {
      assert t[..n] == s[..n][k := line];
      PriceReplace(s[..n], k, line);
    }
  }

  /** Replacing one line changes the item count by the difference of the two quantities. */
  lemma {:induction false} CountReplace(s: seq<CartItem>, k: nat, line: CartItem)
    requires k < |s|
    ensures ItemCount(s[k := line]) == ItemCount(s) - s[k].quantity + line.quantity
  {
    var t := s[k := line];
    var n := |s| - 1;
    if k == n {
      assert t[..n] == s[..n];
    } else {
      assert t[..n] == s[..n][k := line];
      CountReplace(s[..n], k, line);
    }
  }

  /** Appending a line adds its subtotal and its quantity. */
  lemma TotalsAppend(s: seq<CartItem>, line: CartItem)
    ensures TotalPrice(s + [line]) == TotalPrice(s) + LineSubtotal(line)
    ensures ItemCount(s + [line]) == ItemCount(s) + line.quantity
  {
    assert (s + [line])[..|s|] == s;
  }

  /**
   * On a cart without duplicate keys, adding raises the item count by the
   * added quantity; the total rises by the added quantity at the stored
   * line's price when it merges, and by the item's subtotal when it appends.
   */
  lemma AddTotals(s: seq<CartItem>, item: CartItem)
    requires KeysUnique(s)
    ensures ItemCount(AddLine(s, item)) == ItemCount(s) + item.quantity
    ensures FindLine(s, KeyOf(item)).Some? ==>
      TotalPrice(AddLine(s, item)) == TotalPrice(s) + s[FindLine(s, KeyOf(item)).value].price * item.quantity
    ensures FindLine(s, KeyOf(item)).None? ==>
      TotalPrice(AddLine(s, item)) == TotalPrice(s) + LineSubtotal(item)
  {
    match FindLine(s, KeyOf(item))
    case None =>
      TotalsAppend(s, item);
    case Some(k) =>
      AddTotalsMerge(s, item, k);
  }

  lemma {:induction false} AddTotalsMerge(s: seq<CartItem>, item: CartItem, k: nat)
    requires KeysUnique(s) && k < |s| && KeyOf(s[k]) == KeyOf(item)
    ensures ItemCount(AddLine(s, item)) == ItemCount(s) + item.quantity
    ensures TotalPrice(AddLine(s, item)) == TotalPrice(s) + s[k].price * item.quantity
  {
    AddIsReplace(s, item, k);
    MergedTotals(s, k, item.quantity);
  }

  /** Raising line `k`'s quantity by `c` adds `c` items and `c` units of its price. */
  lemma MergedTotals(s: seq<CartItem>, k: nat, c: int)
    requires k < |s|
    ensures ItemCount(s[k := s[k].(quantity := s[k].quantity + c)]) == ItemCount(s) + c
    ensures TotalPrice(s[k := s[k].(quantity := s[k].quantity + c)]) == TotalPrice(s) + s[k].price * c
  {
    CountReplace(s, k, s[k].(quantity := s[k].quantity + c));
    MergedPrice(s, k, c);
  }

  /** The total after raising line `k`'s quantity by `c`. */
  lemma MergedPrice(s: seq<CartItem>, k: nat, c: int)
    requires k < |s|
    ensures TotalPrice(s[k := s[k].(quantity := s[k].quantity + c)]) == TotalPrice(s) + s[k].price * c
  {
    PriceReplace(s, k, s[k].(quantity := s[k].quantity + c));
    SubtotalGrowth(s[k], c);
  }

  /** On a cart without duplicate keys, a merge replaces the one matching line. */
  lemma AddIsReplace(s: seq<CartItem>, item: CartItem, k: nat)
    requires KeysUnique(s) && k < |s| && KeyOf(s[k]) == KeyOf(item)
    ensures AddLine(s, item) == s[k := s[k].(quantity := s[k].quantity + item.quantity)]
  {
    AddMergesExisting(s, item, k);
  }

  /** Raising a line's quantity by `c` raises its subtotal by `c` units of its price. */
  lemma SubtotalGrowth(line: CartItem, c: int)
    ensures LineSubtotal(line.(quantity := line.quantity + c)) == LineSubtotal(line) + line.price * c
  {
    var a, b := line.price, line.quantity;
    assert a * (b + c) == a * b + a * c;
  }

  /**
   * Adding the same key twice to a cart that lacks it yields one line, with
   * the summed quantity and the first add's price, name and image.
   */
  lemma AddSameKeyTwice(s: seq<CartItem>, a: CartItem, b: CartItem)
    requires KeysUnique(s) && KeyAbsent(s, KeyOf(a)) && KeyOf(b) == KeyOf(a)
    ensures AddLine(AddLine(s, a), b) == s + [a.(quantity := a.quantity + b.quantity)]
  {
    AddAppendsNew(s, a);
    AddKeepsKeysUnique(s, a);
    var t := s + [a];
    AddMergesExisting(t, b, |s|);
  }

  /** Two items that differ in any part of the key become two lines, in order. */
  lemma AddDistinctKeys(s: seq<CartItem>, a: CartItem, b: CartItem)
    requires KeyAbsent(s, KeyOf(a)) && KeyAbsent(s, KeyOf(b)) && KeyOf(a) != KeyOf(b)
    ensures AddLine(AddLine(s, a), b) == s + [a, b]
  {
    AddAppendsNew(s, a);
    assert KeyAbsent(s + [a], KeyOf(b));
    AddAppendsNew(s + [a], b);
  }

  /**
   * Keys match on all three fields exactly: the same product and colour in
   * two sizes are two lines, and removing the key with no size leaves a
   * line that has one.
   */
  lemma SizesStaySeparate(a: CartItem, b: CartItem)
    requires a.productId == b.productId && a.selectedColor == b.selectedColor
    requires a.selectedSize != b.selectedSize
    ensures AddLine(AddLine([], a), b) == [a, b]
    ensures a.selectedSize.Some? ==> RemoveLines([a], LineKey(a.productId, None, a.selectedColor)) == [a]
  {
    AddDistinctKeys([], a, b);
    if a.selectedSize.Some? {
      RemoveAbsentIsNoop([a], LineKey(a.productId, None, a.selectedColor));
    }
  }

  // ---------------------------------------------------------------------
  // Removing

  /** Removal deletes exactly the lines with the key and keeps the rest in order. */
  lemma RemoveDeletesExactly(s: seq<CartItem>, key: LineKey)
    ensures forall line :: line in RemoveLines(s, key) <==> line in s && KeyOf(line) != key
    ensures IsSubsequence(RemoveLines(s, key), s)
  {
  }

  /** Removing a key no line has leaves the list as it was. */
  lemma RemoveAbsentIsNoop(s: seq<CartItem>, key: LineKey)
    requires KeyAbsent(s, key)
    ensures RemoveLines(s, key) == s
  {
    FilterKeepsAll(s, KeyIsNot(key));
  }

  /** On a cart without duplicate keys, removal deletes just the one line at its position. */
  lemma RemoveUniqueLine(s: seq<CartItem>, k: nat)
    requires KeysUnique(s) && k < |s|
    ensures RemoveLines(s, KeyOf(s[k])) == s[..k] + s[k + 1..]
  {
    var key := KeyOf(s[k]);
    assert s == s[..k] + ([s[k]] + s[k + 1..]);
    FilterConcat(s[..k], [s[k]] + s[k + 1..], KeyIsNot(key));
    FilterConcat([s[k]], s[k + 1..], KeyIsNot(key));
    FilterKeepsAll(s[..k], KeyIsNot(key));
    FilterKeepsAll(s[k + 1..], KeyIsNot(key));
  }

  lemma {:induction false} RemoveKeepsKeysUnique(s: seq<CartItem>, key: LineKey)
    requires KeysUnique(s)
    ensures KeysUnique(RemoveLines(s, key))
  {
    if s != [] {
      RemoveKeepsKeysUnique(s[1..], key);
      var rest := RemoveLines(s[1..], key);
      RemoveLinesCons(s, key);
      if KeyOf(s[0]) != key {
        var r := [s[0]] + rest;
        HeadKeyNotInTail(s);
        forall j | 0 < j < |r| ensures KeyOf(r[0]) != KeyOf(r[j]) {
          assert r[j] == rest[j - 1];
          assert r[j] in s[1..];
        }
        forall i, j | 0 < i < j < |r| ensures KeyOf(r[i]) != KeyOf(r[j]) {
          assert r[i] == rest[i - 1] && r[j] == rest[j - 1];
        }
      }
    }
  }

  /** With unique keys, no later line shares the first line's key. */
  lemma HeadKeyNotInTail(s: seq<CartItem>)
    requires KeysUnique(s) && s != []
    ensures forall line :: line in s[1..] ==> KeyOf(line) != KeyOf(s[0])
  {
    forall line | line in s[1..] ensures KeyOf(line) != KeyOf(s[0]) {
      var m :| 0 <= m < |s[1..]| && s[1..][m] == line;
      assert s[m + 1] == line;
    }
  }

  /** `filter` looks at the first line, then at the rest. */
  lemma RemoveLinesCons(s: seq<CartItem>, key: LineKey)
    requires s != []
    ensures RemoveLines(s, key) ==
      if KeyOf(s[0]) != key then [s[0]] + RemoveLines(s[1..], key) else RemoveLines(s[1..], key)
  {
  }

  lemma RemoveKeepsPositive(s: seq<CartItem>, key: LineKey)
    requires AllPositive(s)
    ensures AllPositive(RemoveLines(s, key))
  {
  }

  // ---------------------------------------------------------------------
  // Changing a quantity

  /**
   * With a positive quantity, the matching line's quantity is replaced (not
   * incremented) and nothing else changes.
   */
  lemma UpdateReplacesQuantity(s: seq<CartItem>, k: nat, quantity: int)
    requires KeysUnique(s) && k < |s| && quantity > 0
    ensures UpdateLines(s, KeyOf(s[k]), quantity) == s[k := s[k].(quantity := quantity)]
  {
  }

  /** A quantity of zero or less removes the line, like `removeFromCart`. */
  lemma UpdateToZeroRemoves(s: seq<CartItem>, key: LineKey, quantity: int)
    requires quantity <= 0
    ensures UpdateLines(s, key, quantity) == RemoveLines(s, key)
    ensures forall line :: line in UpdateLines(s, key, quantity) ==> KeyOf(line) != key
  {
  }

  /** Changing the quantity of a key no line has leaves the list as it was. */
  lemma UpdateAbsentIsNoop(s: seq<CartItem>, key: LineKey, quantity: int)
    requires KeyAbsent(s, key)
    ensures UpdateLines(s, key, quantity) == s
  {
    if quantity <= 0 {
      RemoveAbsentIsNoop(s, key);
    }
  }

  lemma UpdateKeepsKeysUnique(s: seq<CartItem>, key: LineKey, quantity: int)
    requires KeysUnique(s)
    ensures KeysUnique(UpdateLines(s, key, quantity))
  {
    if quantity <= 0 {
      RemoveKeepsKeysUnique(s, key);
    } else {
      var r := SetQuantity(s, key, quantity);
      assert forall i :: 0 <= i < |s| ==> KeyOf(r[i]) == KeyOf(s[i]);
    }
  }

  /** Whatever the new quantity, no stored line ends up below one. */
  lemma UpdateKeepsPositive(s: seq<CartItem>, key: LineKey, quantity: int)
    requires AllPositive(s)
    ensures AllPositive(UpdateLines(s, key, quantity))
  {
    if quantity > 0 {
      var r := SetQuantity(s, key, quantity);
      forall line | line in r ensures line.quantity >= 1 {
        var i :| 0 <= i < |r| && r[i] == line;
        assert s[i] in s;
      }
    }
  }

  // ---------------------------------------------------------------------
  // Any sequence of store calls

  /** One call on the cart store, as a value. */
  datatype CartOp =
    | AddOp(item: CartItem)
    | RemoveOp(key: LineKey)
    | UpdateOp(key: LineKey, quantity: int)
    | ClearOp

  function Step(s: seq<CartItem>, op: CartOp): seq<CartItem>
  {
    match op
    case AddOp(item) => AddLine(s, item)
    case RemoveOp(key) => RemoveLines(s, key)
    case UpdateOp(key, q) => UpdateLines(s, key, q)
    case ClearOp => []
  }

  function Run(s: seq<CartItem>, ops: seq<CartOp>): seq<CartItem>
    decreases |ops|
  {
    if ops == [] then s else Run(Step(s, ops[0]), ops[1..])
  }

  /** Every add in the sequence adds at least one unit. */
  ghost predicate AddsPositive(ops: seq<CartOp>)
  {
    forall op :: op in ops && op.AddOp? ==> op.item.quantity >= 1
  }

  /**
   * From a cart without duplicate keys and with positive quantities, any
   * sequence of calls whose adds are all positive keeps both properties.
   */
  lemma {:induction false} RunKeepsInvariants(s: seq<CartItem>, ops: seq<CartOp>)
    requires KeysUnique(s) && AllPositive(s) && AddsPositive(ops)
    ensures KeysUnique(Run(s, ops)) && AllPositive(Run(s, ops))
    decreases |ops|
  {
    if ops != [] {
      var op := ops[0];
      assert op in ops;
      match op {
        case AddOp(item) =>
          AddKeepsKeysUnique(s, item);
          AddKeepsPositive(s, item);
        case RemoveOp(key) =>
          RemoveKeepsKeysUnique(s, key);
          RemoveKeepsPositive(s, key);
        case UpdateOp(key, q) =>
          UpdateKeepsKeysUnique(s, key, q);
          UpdateKeepsPositive(s, key, q);
        case ClearOp =>
      }
      assert forall o :: o in ops[1..] ==> o in ops;
      RunKeepsInvariants(Step(s, op), ops[1..]);
    }
  }

  // ---------------------------------------------------------------------
  // A worked example

  /**
   * Two lines, 1000 x 2 and 500 x 1, total 2500 over three items; removing
   * the first by its key leaves the second, and a total of 500.
   */
  lemma TotalsExample()
    ensures
      var p1 := CartItem("p1", "Shirt", 1000, 2, Some("M"), Some("Black"), None);
      var p2 := CartItem("p2", "Cap", 500, 1, None, None, None);
      && TotalPrice([p1, p2]) == 2500
      && ItemCount([p1, p2]) == 3
      && RemoveLines([p1, p2], LineKey("p1", Some("M"), Some("Black"))) == [p2]
      && TotalPrice([p2]) == 500
  {
    var p1 := CartItem("p1", "Shirt", 1000, 2, Some("M"), Some("Black"), None);
    var p2 := CartItem("p2", "Cap", 500, 1, None, None, None);
    assert [p1, p2][..1] == [p1];
    assert [p1][..0] == [] && [p2][..0] == [];
    assert TotalPrice([p1]) == 2000 && ItemCount([p1]) == 2;
    assert TotalPrice([p2]) == 500;
    assert RemoveLines([p1, p2], KeyOf(p1)) == [p2] by {
      KeysUnique2(p1, p2);
      RemoveUniqueLine([p1, p2], 0);
    }
  }

  lemma KeysUnique2(a: CartItem, b: CartItem)
    requires KeyOf(a) != KeyOf(b)
    ensures KeysUnique([a, b])
  {
  }

}
