/** The buyer marketplace's favourites (client/src/components/Bmarketplace.jsx): a set
    of product ids, flipped one id at a time by `toggleFavorite`. */
module Favorites {

  /** Product ids are numbers. */
  type ProductId = int

  /** The `useState(new Set())` initial value. */
  function Initial(): (s: set<ProductId>)
    ensures |s| == 0
  {
    {}
  }

  /** `toggleFavorite(productId)`: remove the id when present, add it otherwise. */
  function Toggle(favorites: set<ProductId>, productId: ProductId): (r: set<ProductId>)
    ensures productId in r <==> productId !in favorites
    ensures forall other :: other != productId ==> (other in r <==> other in favorites)
    ensures |r| == if productId in favorites then |favorites| - 1 else |favorites| + 1
  {
    if productId in favorites then favorites - {productId} else favorites + {productId}
  }

  /** Toggling the same id twice restores the set. */
  lemma ToggleTwice(favorites: set<ProductId>, productId: ProductId)
    ensures Toggle(Toggle(favorites, productId), productId) == favorites
  {
  }

  /** Toggles of different ids commute. */
  lemma TogglesCommute(favorites: set<ProductId>, a: ProductId, b: ProductId)
    ensures Toggle(Toggle(favorites, a), b) == Toggle(Toggle(favorites, b), a)
  {
  }

  /** The favourites after toggling each id of `ids` in turn. */
  function ToggleAll(favorites: set<ProductId>, ids: seq<ProductId>): set<ProductId>
    decreases |ids|
  {
    if |ids| == 0 then favorites else ToggleAll(Toggle(favorites, ids[0]), ids[1..])
  }

  /** How often `id` occurs in `ids`. */
  function Count(ids: seq<ProductId>, id: ProductId): nat
    decreases |ids|
  {
    if |ids| == 0 then 0 else (if ids[0] == id then 1 else 0) + Count(ids[1..], id)
  }

  /** One more occurrence flips the parity. */
  lemma ParityFlips(c: nat)
    ensures (c + 1) % 2 == 0 <==> c % 2 != 0
  {
  }

  /** An id ends up a favourite exactly when its membership was flipped an even
      number of times from a favourite, or an odd number of times from a non-favourite. */
  lemma {:induction false} ToggleParity(favorites: set<ProductId>, ids: seq<ProductId>, id: ProductId)
    ensures id in ToggleAll(favorites, ids) <==> (id in favorites <==> Count(ids, id) % 2 == 0)
    decreases |ids|
  {
    if |ids| > 0 {
      var next := Toggle(favorites, ids[0]);
      ToggleParity(next, ids[1..], id);
      assert ToggleAll(favorites, ids) == ToggleAll(next, ids[1..]);
      if ids[0] == id {
        assert Count(ids, id) == 1 + Count(ids[1..], id);
        assert id in next <==> id !in favorites;
        ParityFlips(Count(ids[1..], id));
      } else {
        assert Count(ids, id) == Count(ids[1..], id);
        assert id in next <==> id in favorites;
      }
    }
  }

  /** Starting empty, an id is a favourite exactly when it was toggled an odd number
      of times. */
  lemma FavoriteIffToggledOddly(ids: seq<ProductId>, id: ProductId)
    ensures id in ToggleAll(Initial(), ids) <==> Count(ids, id) % 2 == 1
  {
    ToggleParity(Initial(), ids, id);
  }
}
