/** The shopping cart, `src/context/CartContext.tsx`: lines keyed by
    `itemId` (product id plus selected size) with a quantity each. Prices are
    whole BDT. */
module Cart {
  import opened Js
  import opened Strings
  import opened Seqs

  /** The catalogue product fields the cart uses (`src/types/product.ts`). */
  datatype Product = Product(id: string, title: string, price: int, sale: Option<int>)

  /** A cart line: the product's fields, spread, plus quantity, size and key. */
  datatype CartItem = CartItem(product: Product, quantity: int, selectedSize: Option<int>, itemId: string)

  /** `item.sale || item.price`: a sale price of 0 counts as no sale. */
  function UnitPrice(p: Product): int
  {
    if p.sale.Some? && p.sale.value != 0 then p.sale.value else p.price
  }

  /** `getCartItemId`: `${product._id}-${size}`, with "NOSIZE" when no size.
      The key starts with the product id and a dash, and ends in "NOSIZE"
      exactly when no size was chosen. */
  function CartItemId(p: Product, size: Option<int>): (r: string)
    ensures |r| > |p.id| + 1 && r[..|p.id|] == p.id && r[|p.id|] == '-'
    ensures r[|p.id| + 1..] == "NOSIZE" <==> size.None?
  {
    SizeKeyNotNoSize(size);
    p.id + "-" + SizeKey(size)
  }

  lemma SizeKeyNotNoSize(size: Option<int>)
    ensures |SizeKey(size)| > 0
    ensures SizeKey(size) == "NOSIZE" <==> size.None?
  {
    if size.Some? {
      var n := size.value;
      NatToDecimalShape(if n < 0 then -n else n);
      assert SizeKey(size)[0] != 'N';
    }
  }

  function SizeKey(size: Option<int>): string
  {
    match size
    case Some(n) => IntToString(n)
    case None => "NOSIZE"
  }

  /** The same product in two different sizes (or sized and unsized) gets two
      different keys. */
  lemma SizesGetDistinctIds(p: Product, s1: Option<int>, s2: Option<int>)
    requires s1 != s2
    ensures CartItemId(p, s1) != CartItemId(p, s2)
  {
    SizeKeyInjective(s1, s2);
    var pre := p.id + "-";
    assert CartItemId(p, s1)[|pre|..] == SizeKey(s1);
    assert CartItemId(p, s2)[|pre|..] == SizeKey(s2);
  }

  lemma SizeKeyInjective(s1: Option<int>, s2: Option<int>)
    requires s1 != s2
    ensures SizeKey(s1) != SizeKey(s2)
  {
    if s1.Some? && s2.Some? {
      IntToStringDistinct(s1.value, s2.value);
    } else {
      var n := if s1.Some? then s1.value else s2.value;
      NatToDecimalShape(if n < 0 then -n else n);
      assert SizeKey(Some(n))[0] != 'N';
      assert SizeKey(None)[0] == 'N';
    }
  }

  /** The text after the last '-' (all of it when there is none). */
  function AfterLastDash(t: string): (r: string)
    decreases |t|
  {
    if |t| == 0 then ""
    else if t[|t| - 1] == '-' then ""
    else AfterLastDash(t[..|t| - 1]) + [t[|t| - 1]]
  }

  lemma {:induction false} AfterLastDashOf(a: string, k: string)
    requires forall j :: 0 <= j < |k| ==> k[j] != '-'
    ensures AfterLastDash(a + "-" + k) == k
    ensures (a + "-" + k)[..|a|] == a
    decreases |k|
  {
    var t := a + "-" + k;
    assert t[..|a|] == a;
    if |k| > 0 {
      var k' := k[..|k| - 1];
      assert t[..|t| - 1] == a + "-" + k';
      AfterLastDashOf(a, k');
      assert k' + [k[|k| - 1]] == k;
    }
  }

  /** For sizes that are not negative the key determines product id and size:
      after the last '-' comes a size key, which contains no '-'. */
  lemma ItemIdDeterminesProductAndSize(p1: Product, s1: Option<int>, p2: Product, s2: Option<int>)
    requires s1.Some? ==> s1.value >= 0
    requires s2.Some? ==> s2.value >= 0
    requires CartItemId(p1, s1) == CartItemId(p2, s2)
    ensures p1.id == p2.id && s1 == s2
  {
    NoDashInSizeKey(s1);
    NoDashInSizeKey(s2);
    AfterLastDashOf(p1.id, SizeKey(s1));
    AfterLastDashOf(p2.id, SizeKey(s2));
    assert SizeKey(s1) == SizeKey(s2);
    assert |p1.id| == |p2.id|;
    if s1 != s2 {
      SizeKeyInjective(s1, s2);
    }
  }

  lemma NoDashInSizeKey(s: Option<int>)
    requires s.Some? ==> s.value >= 0
    ensures forall k :: 0 <= k < |SizeKey(s)| ==> SizeKey(s)[k] != '-'
  {
    if s.Some? {
      NatToDecimalShape(s.value);
    }
  }

  predicate HasItem(cart: seq<CartItem>, itemId: string)
  {
    exists i :: 0 <= i < |cart| && cart[i].itemId == itemId
  }

  /** Two carts with the same key at every position have the same keys. */
  lemma SameKeys(a: seq<CartItem>, b: seq<CartItem>)
    requires |a| == |b| && forall i :: 0 <= i < |a| ==> a[i].itemId == b[i].itemId
    ensures forall k :: HasItem(a, k) <==> HasItem(b, k)
  {
    forall k | HasItem(a, k)
      ensures HasItem(b, k)
    {
      var i :| 0 <= i < |a| && a[i].itemId == k;
      assert b[i].itemId == k;
    }
    forall k | HasItem(b, k)
      ensures HasItem(a, k)
    {
      var i :| 0 <= i < |b| && b[i].itemId == k;
      assert a[i].itemId == k;
    }
  }

  lemma AppendKeys(a: seq<CartItem>, line: CartItem)
    ensures forall k :: HasItem(a + [line], k) <==> HasItem(a, k) || k == line.itemId
  {
    var r := a + [line];
    assert r[|a|] == line;
    forall k | HasItem(r, k) && k != line.itemId
      ensures HasItem(a, k)
    {
      var i :| 0 <= i < |r| && r[i].itemId == k;
      assert a[i] == r[i];
    }
    forall k | HasItem(a, k)
      ensures HasItem(r, k)
    {
      var i :| 0 <= i < |a| && a[i].itemId == k;
      assert r[i] == a[i];
    }
  }

  lemma KeysOfMembers(a: seq<CartItem>, b: seq<CartItem>)
    requires forall x :: x in a ==> x in b
    ensures forall k :: HasItem(a, k) ==> HasItem(b, k)
  {
    forall k | HasItem(a, k)
      ensures HasItem(b, k)
    {
      var i :| 0 <= i < |a| && a[i].itemId == k;
      assert a[i] in a;
      var j :| 0 <= j < |b| && b[j] == a[i];
    }
  }

  lemma KeyAbsent(a: seq<CartItem>, k: string)
    requires forall x :: x in a ==> x.itemId != k
    ensures !HasItem(a, k)
  {
    forall i | 0 <= i < |a|
      ensures a[i].itemId != k
    {
      assert a[i] in a;
    }
  }

  lemma PositiveMembers(a: seq<CartItem>)
    requires forall x :: x in a ==> x.quantity > 0
    ensures AllPositive(a)
  {
    forall i | 0 <= i < |a|
      ensures a[i].quantity > 0
    {
      assert a[i] in a;
    }
  }

  /** Every key occurs on at most one line. */
  predicate UniqueIds(cart: seq<CartItem>)
  {
    UniqueBy(cart, ItemKey)
  }

  function ItemKey(item: CartItem): string
  {
    item.itemId
  }

  predicate AllPositive(cart: seq<CartItem>)
  {
    forall i :: 0 <= i < |cart| ==> cart[i].quantity > 0
  }

  function Bump(item: CartItem, itemId: string, delta: int): CartItem
  {
    if item.itemId == itemId then item.(quantity := item.quantity + delta) else item
  }

  /** `increaseQuantity`: every line with the key gains one; others are kept. */
  function IncreaseQuantity(cart: seq<CartItem>, itemId: string): (r: seq<CartItem>)
    ensures |r| == |cart|
    ensures forall i :: 0 <= i < |cart| ==>
              r[i].itemId == cart[i].itemId && r[i].product == cart[i].product
              && r[i].selectedSize == cart[i].selectedSize
              && r[i].quantity == cart[i].quantity + (if cart[i].itemId == itemId then 1 else 0)
    decreases |cart|
  {
    if |cart| == 0 then []
    else [Bump(cart[0], itemId, 1)] + IncreaseQuantity(cart[1..], itemId)
  }

  /** `addToCart`: one more of an existing line, or a new line of one.
      Afterwards the key is in the cart, the cart has grown by a line exactly
      when the key was new, and no other key has come or gone. */
  function AddToCart(cart: seq<CartItem>, p: Product, size: Option<int>): (r: seq<CartItem>)
    ensures HasItem(r, CartItemId(p, size))
    ensures |r| == |cart| + (if HasItem(cart, CartItemId(p, size)) then 0 else 1)
    ensures forall k :: k != CartItemId(p, size) ==> (HasItem(r, k) <==> HasItem(cart, k))
  {
    var itemId := CartItemId(p, size);
    if HasItem(cart, itemId) then
      var r := IncreaseQuantity(cart, itemId);
      SameKeys(r, cart);
      r
    else
      var line := CartItem(p, 1, size, itemId);
      AppendKeys(cart, line);
      cart + [line]
  }

  /** `removeFromCart`: no line with the key is left, and every other line
      is kept. */
  function RemoveFromCart(cart: seq<CartItem>, itemId: string): (r: seq<CartItem>)
    ensures !HasItem(r, itemId)
    ensures forall x :: x in cart && x.itemId != itemId ==> x in r
    ensures forall x :: x in r ==> x in cart
  {
    var r := Filter(cart, (item: CartItem) => item.itemId != itemId);
    KeyAbsent(r, itemId);
    r
  }

  /** `clearCart`: no line is left and the total is 0. */
  function ClearCart(): (r: seq<CartItem>)
    ensures forall k :: !HasItem(r, k)
    ensures TotalPrice(r) == 0
  {
    []
  }

  /** The matching lines lose one, never going below 0. */
  function LowerMatching(cart: seq<CartItem>, itemId: string): (r: seq<CartItem>)
    ensures |r| == |cart|
    ensures forall i :: 0 <= i < |cart| ==>
              r[i].itemId == cart[i].itemId && r[i].product == cart[i].product
              && r[i].selectedSize == cart[i].selectedSize
              && r[i].quantity == (if cart[i].itemId == itemId then Max0(cart[i].quantity - 1) else cart[i].quantity)
    decreases |cart|
  {
    if |cart| == 0 then []
    else [if cart[0].itemId == itemId then cart[0].(quantity := Max0(cart[0].quantity - 1)) else cart[0]]
         + LowerMatching(cart[1..], itemId)
  }

  function Max0(n: int): int
  {
    if n < 0 then 0 else n
  }

  /** `decreaseQuantity`: lower the matching lines, then drop every line whose
      quantity is not positive. No line is added and none is left without a
      positive quantity. */
  function DecreaseQuantity(cart: seq<CartItem>, itemId: string): (r: seq<CartItem>)
    ensures AllPositive(r)
    ensures |r| <= |cart|
    ensures forall k :: HasItem(r, k) ==> HasItem(cart, k)
  {
    var low := LowerMatching(cart, itemId);
    var r := Filter(low, (item: CartItem) => item.quantity > 0);
    PositiveMembers(r);
    KeysOfMembers(r, low);
    SameKeys(low, cart);
    r
  }

  function LineTotal(item: CartItem): int
  {
    UnitPrice(item.product) * item.quantity
  }

  /** `getTotalPrice` */
  function TotalPrice(cart: seq<CartItem>): int
    decreases |cart|
  {
    if |cart| == 0 then 0 else LineTotal(cart[0]) + TotalPrice(cart[1..])
  }

  predicate NonNegativeLines(cart: seq<CartItem>)
  {
    forall i :: 0 <= i < |cart| ==> UnitPrice(cart[i].product) >= 0 && cart[i].quantity >= 0
  }

  /** The total is never negative when no line has a negative unit price or
      quantity. */
  lemma {:induction false} TotalNonNegative(cart: seq<CartItem>)
    requires NonNegativeLines(cart)
    ensures TotalPrice(cart) >= 0
    decreases |cart|
  {
    if |cart| > 0 {
      TotalNonNegative(cart[1..]);
      assert LineTotal(cart[0]) >= 0;
    }
  }

  /** The total of the lines carrying a given key. */
  function KeyTotal(cart: seq<CartItem>, itemId: string): int
  {
    TotalPrice(Filter(cart, (item: CartItem) => item.itemId == itemId))
  }

  /** The unit prices of the lines carrying a given key. */
  function KeyUnitPrices(cart: seq<CartItem>, itemId: string): int
    decreases |cart|
  {
    if |cart| == 0 then 0
    else (if cart[0].itemId == itemId then UnitPrice(cart[0].product) else 0) + KeyUnitPrices(cart[1..], itemId)
  }

  /** The total is a sum over lines: 0 for the empty cart, the line total for
      a single line, and additive over concatenation. */
  lemma {:induction false} TotalIsSum(a: seq<CartItem>, b: seq<CartItem>)
    ensures TotalPrice([]) == 0
    ensures |a| == 1 ==> TotalPrice(a) == UnitPrice(a[0].product) * a[0].quantity
    ensures TotalPrice(a + b) == TotalPrice(a) + TotalPrice(b)
    decreases |a|
  {
    if |a| == 0 {
      assert a + b == b;
    } else {
      assert (a + b)[1..] == a[1..] + b;
      TotalIsSum(a[1..], b);
    }
  }

  /** Adding a product already in the cart raises only the lines with its key
      by one and keeps the number of lines; the total grows by those lines'
      own unit prices. */
  lemma AddExisting(cart: seq<CartItem>, p: Product, size: Option<int>)
    requires HasItem(cart, CartItemId(p, size))
    ensures var r := AddToCart(cart, p, size);
      && |r| == |cart|
      && (forall i :: 0 <= i < |cart| && cart[i].itemId != CartItemId(p, size) ==> r[i] == cart[i])
      && (forall i :: 0 <= i < |cart| && cart[i].itemId == CartItemId(p, size) ==>
            r[i] == cart[i].(quantity := cart[i].quantity + 1))
      && TotalPrice(r) == TotalPrice(cart) + KeyUnitPrices(cart, CartItemId(p, size))
  {
    var id := CartItemId(p, size);
    var r := AddToCart(cart, p, size);
    forall i | 0 <= i < |cart|
      ensures r[i] == (if cart[i].itemId == id then cart[i].(quantity := cart[i].quantity + 1) else cart[i])
    {
    }
    IncreaseTotal(cart, id);
  }

  lemma {:induction false} IncreaseTotal(cart: seq<CartItem>, itemId: string)
    ensures TotalPrice(IncreaseQuantity(cart, itemId)) == TotalPrice(cart) + KeyUnitPrices(cart, itemId)
    decreases |cart|
  {
    if |cart| > 0 {
      var r := IncreaseQuantity(cart, itemId);
      IncreaseTotal(cart[1..], itemId);
      assert r[1..] == IncreaseQuantity(cart[1..], itemId);
      assert TotalPrice(r) == LineTotal(r[0]) + TotalPrice(r[1..]);
      assert LineTotal(r[0]) == LineTotal(cart[0]) + (if cart[0].itemId == itemId then UnitPrice(cart[0].product) else 0);
    }
  }

  /** Adding a product not yet in the cart appends one line of quantity 1
      with its size and key, and the total grows by its unit price. */
  lemma AddNew(cart: seq<CartItem>, p: Product, size: Option<int>)
    requires !HasItem(cart, CartItemId(p, size))
    ensures AddToCart(cart, p, size) == cart + [CartItem(p, 1, size, CartItemId(p, size))]
    ensures TotalPrice(AddToCart(cart, p, size)) == TotalPrice(cart) + UnitPrice(p)
  {
    TotalIsSum(cart, [CartItem(p, 1, size, CartItemId(p, size))]);
    TotalIsSum([CartItem(p, 1, size, CartItemId(p, size))], []);
  }

  /** `addToCart` keeps keys unique and quantities positive. */
  lemma AddPreservesInvariants(cart: seq<CartItem>, p: Product, size: Option<int>)
    requires UniqueIds(cart) && AllPositive(cart)
    ensures UniqueIds(AddToCart(cart, p, size)) && AllPositive(AddToCart(cart, p, size))
  {
  }

  /** `removeFromCart` drops exactly the lines with the key, keeps the others
      in order, and takes their total off the cart total. */
  lemma RemoveSpec(cart: seq<CartItem>, itemId: string)
    ensures forall x :: x in RemoveFromCart(cart, itemId) <==> x in cart && x.itemId != itemId
    ensures Subsequence(RemoveFromCart(cart, itemId), cart)
    ensures TotalPrice(RemoveFromCart(cart, itemId)) == TotalPrice(cart) - KeyTotal(cart, itemId)
    ensures UniqueIds(cart) ==> UniqueIds(RemoveFromCart(cart, itemId))
  {
    FilterIsSubsequence(cart, (item: CartItem) => item.itemId != itemId);
    RemoveTotal(cart, itemId);
    if UniqueIds(cart) {
      SubsequenceKeepsUnique(RemoveFromCart(cart, itemId), cart, ItemKey);
    }
  }

  lemma {:induction false} RemoveTotal(cart: seq<CartItem>, itemId: string)
    ensures TotalPrice(RemoveFromCart(cart, itemId)) + KeyTotal(cart, itemId) == TotalPrice(cart)
    decreases |cart|
  {
    if |cart| > 0 {
      RemoveTotal(cart[1..], itemId);
      if cart[0].itemId == itemId {
        TotalIsSum([cart[0]], Filter(cart[1..], (item: CartItem) => item.itemId == itemId));
      } else {
        TotalIsSum([cart[0]], Filter(cart[1..], (item: CartItem) => item.itemId != itemId));
      }
    }
  }

  /** `increaseQuantity` on a key no line carries changes nothing; on a known
      key the total grows by the matching lines' unit prices. */
  lemma IncreaseSpec(cart: seq<CartItem>, itemId: string)
    ensures !HasItem(cart, itemId) ==> IncreaseQuantity(cart, itemId) == cart
    ensures TotalPrice(IncreaseQuantity(cart, itemId)) == TotalPrice(cart) + KeyUnitPrices(cart, itemId)
    ensures UniqueIds(cart) ==> UniqueIds(IncreaseQuantity(cart, itemId))
  {
    IncreaseTotal(cart, itemId);
    if !HasItem(cart, itemId) {
      var r := IncreaseQuantity(cart, itemId);
      forall i | 0 <= i < |cart|
        ensures r[i] == cart[i]
      {
      }
    }
  }

  /** After `decreaseQuantity` every line has a positive quantity; a line
      with another key and a positive quantity survives unchanged; a line with
      the key survives with one less exactly when it had more than one. */
  lemma DecreaseSpec(cart: seq<CartItem>, itemId: string)
    ensures AllPositive(DecreaseQuantity(cart, itemId))
    ensures forall x :: x in cart && x.itemId != itemId && x.quantity > 0 ==> x in DecreaseQuantity(cart, itemId)
    ensures forall x :: x in cart && x.itemId == itemId && x.quantity > 1 ==>
              x.(quantity := x.quantity - 1) in DecreaseQuantity(cart, itemId)
    ensures forall x :: x in DecreaseQuantity(cart, itemId) && x.itemId == itemId ==>
              x.(quantity := x.quantity + 1) in cart
    ensures Subsequence(DecreaseQuantity(cart, itemId), LowerMatching(cart, itemId))
    ensures AllPositive(cart) && !HasItem(cart, itemId) ==> DecreaseQuantity(cart, itemId) == cart
  {
    var low := LowerMatching(cart, itemId);
    var r := DecreaseQuantity(cart, itemId);
    FilterIsSubsequence(low, (item: CartItem) => item.quantity > 0);
    forall i | 0 <= i < |r|
      ensures r[i].quantity > 0
    {
      assert r[i] in r;
    }
    forall x | x in cart && x.itemId != itemId && x.quantity > 0
      ensures x in r
    {
      var i :| 0 <= i < |cart| && cart[i] == x;
      assert low[i] == x;
    }
    forall x | x in cart && x.itemId == itemId && x.quantity > 1
      ensures x.(quantity := x.quantity - 1) in r
    {
      var i :| 0 <= i < |cart| && cart[i] == x;
      assert low[i] == x.(quantity := x.quantity - 1);
    }
    forall x | x in r && x.itemId == itemId
      ensures x.(quantity := x.quantity + 1) in cart
    {
      var i :| 0 <= i < |low| && low[i] == x;
      assert cart[i] == x.(quantity := x.quantity + 1);
    }
    if AllPositive(cart) && !HasItem(cart, itemId) {
      assert low == cart;
      FilterKeepsAll(cart, (item: CartItem) => item.quantity > 0);
    }
  }
}
