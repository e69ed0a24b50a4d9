/**
 * The all-cards page: the whole card catalogue with the same in-memory grade,
 * price and sort controls as the cart page (but only the Price header).
 */
module AllCards {
  import opened Common
  import opened Listing

  class AllCardsPage {
    var products: seq<Card>
    var filtered: seq<Card>
    var conditionFilter: string
    var minPrice: real
    var maxPrice: real
    var sort: SortState

    constructor ()
      ensures products == [] && filtered == []
      ensures conditionFilter == "" && minPrice == 0.0 && maxPrice == 1000.0
      ensures sort == InitialSort
    {
      products, filtered := [], [];
      conditionFilter := "";
      minPrice, maxPrice := 0.0, 1000.0;
      sort := InitialSort;
    }

    /** `fetchProducts`: on success both lists become the fetched rows, in
        order, with images rewritten to storage URLs; on error nothing changes. */
    method FetchProducts(rows: seq<Card>, fails: bool, base: string)
      modifies this`products, this`filtered
      ensures fails ==> products == old(products) && filtered == old(filtered)
      ensures !fails ==> products == Enrich(rows, base) && filtered == products
    {
      if !fails {
        var productsWithImageUrl := Enrich(rows, base);
        products, filtered := productsWithImageUrl, productsWithImageUrl;
      }
    }

    /** The filter-and-sort effect: copy, filter by grade, by both price bounds
        at once, then sort the copy in place. */
    method ApplyFilters()
      modifies this`filtered
      ensures Shown(filtered, products, conditionFilter, minPrice, maxPrice, sort.key, sort.order)
    {
      var all, condition, min, max := products, conditionFilter, minPrice, maxPrice;
      var result := all;
      if condition != "" {
        result := Filter(result, HasCondition(condition));
      }
      result := Filter(result, InRange(min, max));
      TwoStepFilter(all, condition, min, max);
      if sort.key != NoSort {
        result := SortedCopy(result, sort.key, sort.order);
      }
      filtered := result;
    }

    /** The grade selector. */
    method SelectCondition(condition: string)
      modifies this`conditionFilter
      ensures conditionFilter == condition
    {
      conditionFilter := condition;
    }

    /** The price slider. */
    method MovePriceSlider(min: real, max: real)
      modifies this`minPrice, this`maxPrice
      ensures minPrice == min && maxPrice == max
    {
      minPrice, maxPrice := min, max;
    }

    /** The "Price" header, with the same toggle as the cart page. */
    method ClickPrice()
      modifies this`sort
      ensures sort == ClickHeader(old(sort), Price)
    {
      sort := ClickHeader(sort, Price);
    }
  }
}
