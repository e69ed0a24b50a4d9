/**
 * What the cart page and the all-cards page share: the card row of the
 * `pokemon` catalogue, the storage URL both pages build for its image, the
 * filter predicates, the sort keys and orders with the header-click toggle,
 * and the in-place sort both pages run on their result list.
 */
module Listing {
  import opened Common

  /** A row of the `pokemon` catalogue. Prices are compared only, so a `real`
      stands for the dollar amount; `created_at` is an integer timestamp. */
  datatype Card = Card(
    id: nat,
    name: string,
    price: real,
    image: string,
    rarity: string,
    condition: string,
    cardSet: string,
    createdAt: int)

  // ---------------------------------------------------------------------------
  // Image URLs

  const StoragePath := "/storage/v1/object/public/images/"
  const ImageSuffix := ".jpg"

  /** `${SUPABASE_URL}/storage/v1/object/public/images/${image}.jpg` */
  function ImageUrl(base: string, key: string): (url: string)
    ensures base + StoragePath <= url
    ensures |url| == |base + StoragePath| + |key| + |ImageSuffix|
  {
    base + StoragePath + key + ImageSuffix
  }

  /** The storage key inside a URL built by `ImageUrl`, if it has that shape. */
  function ImageKey(base: string, url: string): (key: Option<string>)
  {
    var prefix := base + StoragePath;
    if prefix <= url && |url| >= |prefix| + |ImageSuffix|
       && url[|url| - |ImageSuffix|..] == ImageSuffix
    then Some(url[|prefix|..|url| - |ImageSuffix|])
    else None
  }

  lemma ImageKeyOfUrl(base: string, key: string)
    ensures ImageKey(base, ImageUrl(base, key)) == Some(key)
  {
    var prefix := base + StoragePath;
    var url := ImageUrl(base, key);
    assert url == prefix + key + ImageSuffix;
    assert url[|url| - |ImageSuffix|..] == ImageSuffix;
    assert url[|prefix|..|url| - |ImageSuffix|] == key;
  }

  /** The enrichment `map`: every field is kept except `image`, which becomes
      its storage URL. */
  function Enrich(rows: seq<Card>, base: string): (r: seq<Card>)
    ensures |r| == |rows|
    ensures forall i :: 0 <= i < |rows| ==> r[i].(image := rows[i].image) == rows[i]
  {
    seq(|rows|, i requires 0 <= i < |rows| => rows[i].(image := ImageUrl(base, rows[i].image)))
  }

  /** Each enriched image is a storage URL from which the original key is
      recovered. */
  lemma EnrichedImageKeys(rows: seq<Card>, base: string)
    ensures forall i :: 0 <= i < |rows| ==> ImageKey(base, Enrich(rows, base)[i].image) == Some(rows[i].image)
  {
    forall i | 0 <= i < |rows|
      ensures ImageKey(base, Enrich(rows, base)[i].image) == Some(rows[i].image)
    {
      ImageKeyOfUrl(base, rows[i].image);
    }
  }

  // ---------------------------------------------------------------------------
  // Filters

  function HasCondition(condition: string): Card -> bool
  {
    (p: Card) => p.condition == condition
  }

  function AtLeast(min: real): Card -> bool
  {
    (p: Card) => p.price >= min
  }

  function AtMost(max: real): Card -> bool
  {
    (p: Card) => p.price <= max
  }

  function InRange(min: real, max: real): Card -> bool
  {
    (p: Card) => p.price >= min && p.price <= max
  }

  /** `if (conditionFilter) result = result.filter(...)`: the empty string means
      "All Grades". */
  function ByCondition(s: seq<Card>, condition: string): (r: seq<Card>)
    ensures forall p :: p in r <==> p in s && (condition == "" || p.condition == condition)
  {
    if condition == "" then s else Filter(s, HasCondition(condition))
  }

  /** Reference definition of what both pages keep: the selected grade (any
      grade when empty) and a price within the inclusive range. */
  predicate Wanted(p: Card, condition: string, min: real, max: real)
  {
    (condition == "" || p.condition == condition) && min <= p.price <= max
  }

  function WantedBy(condition: string, min: real, max: real): Card -> bool
  {
    (p: Card) => Wanted(p, condition, min, max)
  }

  function Selection(s: seq<Card>, condition: string, min: real, max: real): (r: seq<Card>)
    ensures forall p :: p in r <==> p in s && Wanted(p, condition, min, max)
  {
    Filter(s, WantedBy(condition, min, max))
  }

  /** The selection keeps the relative order of the products. */
  lemma SelectionIsSubsequence(s: seq<Card>, condition: string, min: real, max: real)
    ensures Subsequence(Selection(s, condition, min, max), s)
  {
    FilterIsSubsequence(s, WantedBy(condition, min, max));
  }

  /** The cart page filters by grade, then by the lower bound, then by the upper
      bound; that is the selection. */
  lemma ThreeStepFilter(s: seq<Card>, condition: string, min: real, max: real)
    ensures Filter(Filter(ByCondition(s, condition), AtLeast(min)), AtMost(max))
            == Selection(s, condition, min, max)
  {
    var wanted := WantedBy(condition, min, max);
    var lo, hi := AtLeast(min), AtMost(max);
    if condition == "" {
      var both := (p: Card) => lo(p) && hi(p);
      FilterFuse(s, lo, hi, both);
      FilterSame(s, both, wanted);
    } else {
      var cond := HasCondition(condition);
      var condLo := (p: Card) => cond(p) && lo(p);
      FilterFuse(s, cond, lo, condLo);
      FilterFuse(s, condLo, hi, wanted);
    }
  }

  /** The all-cards page filters by grade, then by both bounds at once; that is
      the same selection, so the two pages agree on numeric bounds. */
  lemma TwoStepFilter(s: seq<Card>, condition: string, min: real, max: real)
    ensures Filter(ByCondition(s, condition), InRange(min, max)) == Selection(s, condition, min, max)
  {
    var wanted := WantedBy(condition, min, max);
    var range := InRange(min, max);
    if condition == "" {
      FilterSame(s, range, wanted);
    } else {
      FilterFuse(s, HasCondition(condition), range, wanted);
    }
  }

  // ---------------------------------------------------------------------------
  // Sorting

  /** `sortKey`: "" (no sort), "price" or "created_at". */
  datatype SortKey = NoSort | Price | CreatedAt

  /** `sortOrder`: "asc" or "desc". */
  datatype SortOrder = Asc | Desc

  function KeyOf(p: Card, key: SortKey): real
  {
    match key
    case NoSort => 0.0
    case Price => p.price
    case CreatedAt => p.createdAt as real
  }

  /** `x` may stand before `y`: the comparator `aVal - bVal` (ascending) or
      `bVal - aVal` (descending) is not positive. */
  predicate InOrder(x: Card, y: Card, key: SortKey, order: SortOrder)
  {
    if order == Asc then KeyOf(x, key) <= KeyOf(y, key) else KeyOf(x, key) >= KeyOf(y, key)
  }

  ghost predicate SortedBy(s: seq<Card>, key: SortKey, order: SortOrder)
  {
    forall i, j :: 0 <= i < j < |s| ==> InOrder(s[i], s[j], key, order)
  }

  /** `x` may stand anywhere before `y` when comparisons chain. */
  lemma InOrderTransitive(x: Card, y: Card, z: Card, key: SortKey, order: SortOrder)
    requires InOrder(x, y, key, order) && InOrder(y, z, key, order)
    ensures InOrder(x, z, key, order)
  {
  }

  /** Exchanges two neighbours of the array. */
  method SwapNeighbours(a: array<Card>, j: int)
    requires 0 < j < a.Length
    modifies a
    ensures a[j - 1] == old(a[j]) && a[j] == old(a[j - 1])
    ensures forall k :: 0 <= k < a.Length && k != j - 1 && k != j ==> a[k] == old(a[k])
    ensures multiset(a[..]) == multiset(old(a[..]))
  {
    a[j - 1], a[j] := a[j], a[j - 1];
  }

  /** `result.sort(comparator)` in place: an insertion sort that only swaps
      neighbours that are strictly out of order. */
  method SortInPlace(a: array<Card>, key: SortKey, order: SortOrder)
    modifies a
    ensures SortedBy(a[..], key, order)
    ensures multiset(a[..]) == multiset(old(a[..]))
  {
    var i := 0;
    while i < a.Length
      invariant 0 <= i <= a.Length
      invariant forall p, q :: 0 <= p < q < i ==> InOrder(a[p], a[q], key, order)
      invariant multiset(a[..]) == multiset(old(a[..]))
    {
      var j := i;
      while j > 0 && !InOrder(a[j - 1], a[j], key, order)
        invariant 0 <= j <= i
        invariant forall p, q :: 0 <= p < q <= i && q != j ==> InOrder(a[p], a[q], key, order)
        invariant multiset(a[..]) == multiset(old(a[..]))
      {
        SwapNeighbours(a, j);
        j := j - 1;
      }
      forall p, q | 0 <= p < q <= i
        ensures InOrder(a[p], a[q], key, order)
      {
        if q == j && p < j - 1 {
          InOrderTransitive(a[p], a[j - 1], a[j], key, order);
        }
      }
      i := i + 1;
    }
  }

  /** Copies the list into an array, sorts the array in place and reads it
      back: the sort step of the filter-and-sort effects. */
  method SortedCopy(s: seq<Card>, key: SortKey, order: SortOrder) returns (r: seq<Card>)
    ensures multiset(r) == multiset(s)
    ensures SortedBy(r, key, order)
  {
    var a := new Card[|s|](i requires 0 <= i < |s| => s[i]);
    assert a[..] == s;
    SortInPlace(a, key, order);
    r := a[..];
  }

  /** What a page shows after its filter-and-sort effect: the selection
      itself when no key is set, otherwise a permutation of the selection that
      is ordered by the key. */
  ghost predicate Shown(shown: seq<Card>, products: seq<Card>, condition: string,
                        min: real, max: real, key: SortKey, order: SortOrder)
  {
    var selected := Selection(products, condition, min, max);
    if key == NoSort then shown == selected
    else multiset(shown) == multiset(selected) && SortedBy(shown, key, order)
  }

  /** Everything shown is wanted, and everything wanted is shown. */
  lemma ShownIsSelection(shown: seq<Card>, products: seq<Card>, condition: string,
                         min: real, max: real, key: SortKey, order: SortOrder)
    requires Shown(shown, products, condition, min, max, key, order)
    ensures forall p :: p in shown <==> p in products && Wanted(p, condition, min, max)
  {
    var selected := Selection(products, condition, min, max);
    forall p ensures p in shown <==> p in selected {
      assert p in shown <==> p in multiset(shown);
      assert p in selected <==> p in multiset(selected);
    }
  }

  /** The sort state both pages keep. */
  datatype SortState = SortState(key: SortKey, order: SortOrder)

  const InitialSort := SortState(NoSort, Asc)

  /** A click on a sort header: the key becomes the clicked one; the order is
      "asc" only when the page was already sorting by that key in "desc". */
  function ClickHeader(s: SortState, clicked: SortKey): (r: SortState)
    ensures r.key == clicked
    ensures r.order == Asc <==> s.key == clicked && s.order == Desc
  {
    SortState(clicked, if s.key == clicked && s.order == Desc then Asc else Desc)
  }

  /** Repeated clicks on one header alternate the order, starting from "desc"
      when another key (or none) was active. */
  lemma ClickHeaderAlternates(s: SortState, clicked: SortKey)
    ensures s.key != clicked ==> ClickHeader(s, clicked).order == Desc
    ensures ClickHeader(ClickHeader(s, clicked), clicked).order != ClickHeader(s, clicked).order
    ensures ClickHeader(ClickHeader(ClickHeader(s, clicked), clicked), clicked) == ClickHeader(s, clicked)
  {
  }
}
