/**
 * The cart page: it lists the signed-in user's cards, joined with the card
 * catalogue, and lets the user narrow and order the list in memory.
 */
module Cart {
  import opened Common
  import opened Listing

  /** The card ids the cart rows reference through their `pokemon` column
      (`cartItems.map((item) => item.pokemon)`); null entries match no id. */
  function PokemonIds(rows: seq<CartRow>): (ids: set<nat>)
    ensures forall id :: id in ids <==> exists row :: row in rows && row.pokemon == Some(id)
  {
    set row | row in rows && row.pokemon.Some? :: row.pokemon.value
  }

  function IdIn(ids: set<nat>): Card -> bool
  {
    (c: Card) => c.id in ids
  }

  /** The list `fetchCart` stores in `cartProducts` (and in `filtered`): empty
      for a signed-out user, a failed or empty cart query, or a failed
      catalogue query; otherwise the catalogue rows whose id is referenced by
      one of the user's cart rows, in catalogue order, enriched. */
  function CartListing(user: Option<string>, cart: seq<CartRow>, cartFails: bool,
                       catalogue: seq<Card>, catalogueFails: bool, base: string): (r: seq<Card>)
    ensures user.None? || cartFails || catalogueFails || RowsOfUser(cart, user.value) == [] ==> r == []
  {
    if user.None? then []
    else
      var rows := RowsOfUser(cart, user.value);
      if cartFails || rows == [] then []
      else if catalogueFails then []
      else Enrich(Filter(catalogue, IdIn(PokemonIds(rows))), base)
  }

  /** Every listed card is a catalogue card that one of the user's cart rows
      references, with only its image rewritten; and every such catalogue card
      is listed. */
  lemma CartListingContents(user: string, cart: seq<CartRow>, catalogue: seq<Card>, base: string)
    requires RowsOfUser(cart, user) != []
    ensures var r := CartListing(Some(user), cart, false, catalogue, false, base);
      && (forall i :: 0 <= i < |r| ==>
            r[i].(image := ImageKey(base, r[i].image).value) in catalogue
            && exists row :: row in cart && row.userId == user && row.pokemon == Some(r[i].id))
      && (forall c :: c in catalogue && (exists row :: row in cart && row.userId == user && row.pokemon == Some(c.id))
            ==> exists i :: 0 <= i < |r| && r[i].(image := c.image) == c)
  {
    var rows := RowsOfUser(cart, user);
    var kept := Filter(catalogue, IdIn(PokemonIds(rows)));
    var r := Enrich(kept, base);
    EnrichedImageKeys(kept, base);
    forall i | 0 <= i < |r|
      ensures r[i].(image := ImageKey(base, r[i].image).value) in catalogue
    {
      assert r[i].(image := ImageKey(base, r[i].image).value) == kept[i];
    }
    forall c | c in catalogue && (exists row :: row in cart && row.userId == user && row.pokemon == Some(c.id))
      ensures exists i :: 0 <= i < |r| && r[i].(image := c.image) == c
    {
      var row :| row in cart && row.userId == user && row.pokemon == Some(c.id);
      assert row in rows;
      assert c in kept;
      var i :| 0 <= i < |kept| && kept[i] == c;
      assert r[i].(image := c.image) == c;
    }
  }

  /** Rows that leave the `pokemon` column null, such as the apparel rows the
      apparel page inserts, never reach the cart list. */
  lemma RowsWithoutPokemonNotListed(user: Option<string>, cart: seq<CartRow>, cartFails: bool,
                                    catalogue: seq<Card>, catalogueFails: bool, base: string)
    requires forall row :: row in cart ==> row.pokemon.None?
    ensures CartListing(user, cart, cartFails, catalogue, catalogueFails, base) == []
  {
    if user.Some? && !cartFails && !catalogueFails && RowsOfUser(cart, user.value) != [] {
      var rows := RowsOfUser(cart, user.value);
      assert PokemonIds(rows) == {};
      FilterNone(catalogue, IdIn(PokemonIds(rows)));
    }
  }

  /** The Checkout button: a user is present and the cart list is non-empty. */
  predicate CheckoutShown(user: Option<string>, cartProducts: seq<Card>)
  {
    user.Some? && |cartProducts| > 0
  }

  /** The button appears only for a signed-in user whose cart references at
      least one catalogue card, and only when both queries succeeded. */
  lemma CheckoutNeedsListedCard(user: Option<string>, cart: seq<CartRow>, cartFails: bool,
                                catalogue: seq<Card>, catalogueFails: bool, base: string)
    requires CheckoutShown(user, CartListing(user, cart, cartFails, catalogue, catalogueFails, base))
    ensures user.Some? && !cartFails && !catalogueFails
    ensures exists c, row :: c in catalogue && row in cart && row.userId == user.value && row.pokemon == Some(c.id)
  {
    var rows := RowsOfUser(cart, user.value);
    var kept := Filter(catalogue, IdIn(PokemonIds(rows)));
    assert |kept| > 0;
    var c := kept[0];
    assert c in kept;
    var row :| row in rows && row.pokemon == Some(c.id);
  }

  class CartView {
    var cartProducts: seq<Card>
    var filtered: seq<Card>
    var conditionFilter: string
    var minPrice: real
    var maxPrice: real
    var sort: SortState

    constructor ()
      ensures cartProducts == [] && filtered == []
      ensures conditionFilter == "" && minPrice == 0.0 && maxPrice == 1000.0
      ensures sort == InitialSort
    {
      cartProducts, filtered := [], [];
      conditionFilter := "";
      minPrice, maxPrice := 0.0, 1000.0;
      sort := InitialSort;
    }

    /** `fetchCart`, with the two queries' outcomes as parameters. */
    method FetchCart(user: Option<string>, cart: seq<CartRow>, cartFails: bool,
                     catalogue: seq<Card>, catalogueFails: bool, base: string)
      modifies this`cartProducts, this`filtered
      ensures cartProducts == CartListing(user, cart, cartFails, catalogue, catalogueFails, base)
      ensures filtered == cartProducts
    {
      if user.None? {
        cartProducts, filtered := [], [];
        return;
      }
      var cartItems := RowsOfUser(cart, user.value);
      if cartFails || |cartItems| == 0 {
        cartProducts, filtered := [], [];
        return;
      }
      var pokemonIds := PokemonIds(cartItems);
      if catalogueFails {
        cartProducts, filtered := [], [];
        return;
      }
      var pokemons := Filter(catalogue, IdIn(pokemonIds));
      var enriched := Enrich(pokemons, base);
      cartProducts, filtered := enriched, enriched;
    }

    /** The filter-and-sort effect: copy, filter by grade, by the lower bound,
        by the upper bound, then sort the copy in place. `cartProducts` itself
        is not changed. */
    method ApplyFilters()
      modifies this`filtered
      ensures Shown(filtered, cartProducts, conditionFilter, minPrice, maxPrice, sort.key, sort.order)
    {
      var products, condition, min, max := cartProducts, conditionFilter, minPrice, maxPrice;
      var result := products;
      if condition != "" {
        result := Filter(result, HasCondition(condition));
      }
      result := Filter(result, AtLeast(min));
      result := Filter(result, AtMost(max));
      ThreeStepFilter(products, condition, min, max);
      if sort.key != NoSort {
        result := SortedCopy(result, sort.key, sort.order);
      }
      filtered := result;
    }

    /** The grade selector. */
    method SelectCondition(condition: string)
      modifies this`conditionFilter
      ensures conditionFilter == condition
    {
      conditionFilter := condition;
    }

    /** The price slider. */
    method MovePriceSlider(min: real, max: real)
      modifies this`minPrice, this`maxPrice
      ensures minPrice == min && maxPrice == max
    {
      minPrice, maxPrice := min, max;
    }

    /** The "Price" header. */
    method ClickPrice()
      modifies this`sort
      ensures sort == ClickHeader(old(sort), Price)
    {
      sort := ClickHeader(sort, Price);
    }

    /** The "Newly Added" header. */
    method ClickNewlyAdded()
      modifies this`sort
      ensures sort == ClickHeader(old(sort), CreatedAt)
    {
      sort := ClickHeader(sort, CreatedAt);
    }
  }
}
