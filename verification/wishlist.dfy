/** The wishlist, `src/context/WishlistContext.tsx`: an ordered list of
    products, toggled by product id. */
module Wishlist {
  import opened Seqs
  import Cart

  type Product = Cart.Product

  /** `isWishlisted`: some entry carries the id. */
  predicate IsWishlisted(w: seq<Product>, id: string)
  {
    exists i :: 0 <= i < |w| && w[i].id == id
  }

  /** `toggleWishlist`: drop every entry with the product's id when there is
      one, otherwise append the product. Either way the product's id changes
      membership, and no entry appears that was neither there nor toggled. */
  function Toggle(w: seq<Product>, p: Product): (r: seq<Product>)
    ensures IsWishlisted(r, p.id) <==> !IsWishlisted(w, p.id)
    ensures forall x :: x in r ==> x in w || x == p
  {
    if IsWishlisted(w, p.id) then
      var r := Filter(w, (x: Product) => x.id != p.id);
      IdAbsent(r, p.id);
      r
    else
      assert (w + [p])[|w|] == p;
      w + [p]
  }

  lemma IdAbsent(w: seq<Product>, id: string)
    requires forall x :: x in w ==> x.id != id
    ensures !IsWishlisted(w, id)
  {
    forall i | 0 <= i < |w|
      ensures w[i].id != id
    {
      assert w[i] in w;
    }
  }

  predicate UniqueIds(w: seq<Product>)
  {
    UniqueBy(w, ProductKey)
  }

  function ProductKey(p: Product): string
  {
    p.id
  }

  /** Toggling flips the membership of the toggled id and of no other. */
  lemma ToggleFlips(w: seq<Product>, p: Product, id: string)
    ensures IsWishlisted(Toggle(w, p), id) <==>
              (if id == p.id then !IsWishlisted(w, id) else IsWishlisted(w, id))
  {
    var r := Toggle(w, p);
    if IsWishlisted(w, p.id) {
      if IsWishlisted(r, id) {
        var i :| 0 <= i < |r| && r[i].id == id;
        assert r[i] in r;
      }
      if id != p.id && IsWishlisted(w, id) {
        var i :| 0 <= i < |w| && w[i].id == id;
        assert w[i] in r;
      }
    } else {
      assert r[|w|].id == p.id;
      if IsWishlisted(r, id) && id != p.id {
        var i :| 0 <= i < |r| && r[i].id == id;
        assert i < |w| && w[i] == r[i];
      }
      if IsWishlisted(w, id) {
        var i :| 0 <= i < |w| && w[i].id == id;
        assert r[i] == w[i];
      }
    }
  }

  /** Adding keeps the earlier entries in order and puts the product last;
      removing keeps the other entries in order. */
  lemma ToggleShape(w: seq<Product>, p: Product)
    ensures !IsWishlisted(w, p.id) ==> Toggle(w, p) == w + [p]
    ensures IsWishlisted(w, p.id) ==>
              Subsequence(Toggle(w, p), w) && |Toggle(w, p)| < |w|
              && forall x :: x in w && x.id != p.id ==> x in Toggle(w, p)
  {
    if IsWishlisted(w, p.id) {
      var keep := (x: Product) => x.id != p.id;
      FilterIsSubsequence(w, keep);
      var i :| 0 <= i < |w| && w[i].id == p.id;
      FilterMissesOne(w, keep, i);
    }
  }

  /** Toggling a product twice undoes the first toggle when it was absent,
      and moves it to the end when it was present (ids unique). */
  lemma ToggleTwice(w: seq<Product>, p: Product)
    ensures !IsWishlisted(w, p.id) ==> Toggle(Toggle(w, p), p) == w
    ensures IsWishlisted(w, p.id) ==>
              Toggle(Toggle(w, p), p) == Filter(w, (x: Product) => x.id != p.id) + [p]
  {
    var keep := (x: Product) => x.id != p.id;
    if !IsWishlisted(w, p.id) {
      assert (w + [p])[|w|].id == p.id;
      FilterConcat(w, [p], keep);
      assert Filter([p], keep) == [];
      FilterKeepsAll(w, keep);
      assert w + [] == w;
    } else {
      ToggleFlips(w, p, p.id);
    }
  }

  /** Toggling keeps ids unique. */
  lemma TogglePreservesUnique(w: seq<Product>, p: Product)
    requires UniqueIds(w)
    ensures UniqueIds(Toggle(w, p))
  {
    if IsWishlisted(w, p.id) {
      var keep := (x: Product) => x.id != p.id;
      FilterIsSubsequence(w, keep);
      SubsequenceKeepsUnique(Filter(w, keep), w, ProductKey);
    }
  }
}
